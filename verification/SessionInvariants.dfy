/**
 What every run of the session engine keeps: the inductive invariants behind the
 theorems of the modules SessionForwarding, SessionErrors, SessionShutdown,
 SessionAfterDisconnect and SessionCredentials.
*/
module SessionInvariants {
  import opened Results
  import opened SessionStream

  // ---------- Forwarding ----------

  predicate PreSettled(cfg: Config, p: Pump) {
    cfg.pre ==> p.preIn == p.recv && |p.preOut| == |p.preIn|
  }

  predicate PostSettled(cfg: Config, p: Pump) {
    cfg.post ==> p.postIn == p.gateOut && |p.postOut| == |p.postIn|
  }

  predicate GateSettled(p: Pump) {
    |p.gateOut| == |p.gateIn| == |p.asked|
  }

  /** Everything that passed the hooks has been written. */
  predicate AllWritten(cfg: Config, p: Pump) {
    PostSettled(cfg, p) && p.sent == p.PostResults(cfg)
  }

  /** `fwd` follows `recv` through all stages, in order, and is at most one packet behind. */
  predicate Image(cfg: Config, p: Pump, fwd: seq<Packet>) {
    && |p.recv| <= |fwd| + 1
    && (cfg.pre ==> p.preIn <= p.recv && |p.preOut| <= |p.preIn|)
    && p.gateIn <= p.PreResults(cfg)
    && |p.gateOut| <= |p.gateIn|
    && |p.gateOut| <= |p.asked|
    && (cfg.post ==> p.postIn <= p.gateOut && |p.postOut| <= |p.postIn|)
    && fwd <= p.PostResults(cfg)
  }

  /** Pump d has ended after telling the client that it may not receive a message. */
  predicate Refused(cfg: Config, d: Direction, p: Pump) {
    && d == Down
    && |p.sent| > 0 && p.sent[|p.sent| - 1] == NEW_DISCONNECT
    && Image(cfg, p, p.sent[..|p.sent| - 1])
    && |p.gateIn| == |p.gateOut| + 1
    && p.gateIn[|p.gateOut|].PublishPacket?
  }

  predicate PumpInv(cfg: Config, d: Direction, p: Pump) {
    match p.pc
    case Reading =>
      PreSettled(cfg, p) && p.gateIn == p.PreResults(cfg) && GateSettled(p) && AllWritten(cfg, p)
    case PreIntercept(x) =>
      cfg.pre && p.recv == p.preIn + [x] && |p.preOut| == |p.preIn| && p.gateIn == p.preOut
      && GateSettled(p) && AllWritten(cfg, p)
    case Gate(x) =>
      PreSettled(cfg, p) && p.PreResults(cfg) == p.gateIn + [x] && GateSettled(p) && AllWritten(cfg, p)
    case AskConnect(x) =>
      d == Up && PreSettled(cfg, p) && p.gateIn == p.PreResults(cfg) && x.ConnectPacket?
      && |p.asked| == |p.gateOut| && |p.gateIn| == |p.gateOut| + 1 && p.gateIn[|p.gateOut|] == x && AllWritten(cfg, p)
    case CopyBack(x) =>
      d == Up && PreSettled(cfg, p) && p.gateIn == p.PreResults(cfg) && x.ConnectPacket?
      && |p.asked| == |p.gateIn| == |p.gateOut| + 1 && p.gateIn[|p.gateOut|] == x && AllWritten(cfg, p)
      && p.asked[|p.gateOut|].Some? && p.asked[|p.gateOut|].value.AuthConnect?
    case PostIntercept(x) =>
      cfg.post && PreSettled(cfg, p) && p.gateIn == p.PreResults(cfg) && GateSettled(p)
      && p.gateOut == p.postIn + [x] && |p.postOut| == |p.postIn| && p.sent == p.postOut
    case Writing(x) =>
      PreSettled(cfg, p) && p.gateIn == p.PreResults(cfg) && GateSettled(p) && PostSettled(cfg, p)
      && p.PostResults(cfg) == p.sent + [x]
    case Notifying(x) =>
      d == Up && PreSettled(cfg, p) && p.gateIn == p.PreResults(cfg) && GateSettled(p) && AllWritten(cfg, p)
      && |p.sent| > 0 && p.sent[|p.sent| - 1] == x
    case Refusing(_) =>
      d == Down && PreSettled(cfg, p) && p.gateIn == p.PreResults(cfg) && AllWritten(cfg, p)
      && |p.asked| == |p.gateOut| && |p.gateIn| == |p.gateOut| + 1 && p.gateIn[|p.gateOut|].PublishPacket?
    case Sending(_, last) =>
      if last then |p.asked| == |p.gateOut| && (Image(cfg, p, p.sent) || Refused(cfg, d, p))
      else d == Up && PreSettled(cfg, p) && p.gateIn == p.PreResults(cfg) && GateSettled(p) && AllWritten(cfg, p)
    case Done => |p.asked| == |p.gateOut| && (Image(cfg, p, p.sent) || Refused(cfg, d, p))
  }

  /** The hook call `asked` was the right one for packet x and left it as y. */
  predicate Cleared(d: Direction, x: Packet, asked: Option<AuthCall>, y: Packet) {
    match (d, x)
    case (Up, ConnectPacket(_, _, _, rest)) =>
      asked.Some? && asked.value.AuthConnect? && y.ConnectPacket? && y.rest == rest
    case (Up, PublishPacket(topic, payload, rest)) =>
      asked.Some? && asked.value.AuthPublish? && asked.value.topic == topic && asked.value.payload == payload
      && y == PublishPacket(asked.value.topicLeft, asked.value.payloadLeft, rest)
    case (Up, SubscribePacket(topics, rest)) =>
      asked.Some? && asked.value.AuthSubscribe? && asked.value.topics == topics
      && y == SubscribePacket(asked.value.topicsLeft, rest)
    case (Down, PublishPacket(topic, _, _)) =>
      asked.Some? && asked.value.AuthSubscribe? && asked.value.topics == [topic] && y == x
    case _ => asked.None? && y == x
  }

  predicate GateInv(d: Direction, p: Pump) {
    && |p.gateOut| <= |p.asked|
    && |p.gateOut| <= |p.gateIn|
    && forall i :: 0 <= i < |p.gateOut| ==> Cleared(d, p.gateIn[i], p.asked[i], p.gateOut[i])
  }

  // ---------- Hook log ----------

  /** The notification calls in a hook log. */
  function Notes(hooks: seq<HookCall>): seq<NoteCall> {
    if hooks == [] then []
    else
      var h := hooks[|hooks| - 1];
      Notes(hooks[..|hooks| - 1]) + if h.Note? then [h.note] else []
  }

  /** The notifications due for packets written to the broker. */
  function NotesDue(sent: seq<Packet>): seq<NoteCall> {
    if sent == [] then []
    else
      var n := NoteFor(sent[|sent| - 1]);
      NotesDue(sent[..|sent| - 1]) + if n.Some? then [n.value] else []
  }

  /** The authorization calls of pump d that were accepted. */
  function AcceptedAuths(d: Direction, hooks: seq<HookCall>): seq<AuthCall> {
    if hooks == [] then []
    else
      var h := hooks[|hooks| - 1];
      AcceptedAuths(d, hooks[..|hooks| - 1]) + if h.Auth? && h.d == d && h.verdict.Accept? then [h.auth] else []
  }

  function Flat(asked: seq<Option<AuthCall>>): seq<AuthCall> {
    if asked == [] then []
    else
      var a := asked[|asked| - 1];
      Flat(asked[..|asked| - 1]) + if a.Some? then [a.value] else []
  }

  function DisconnectCalls(hooks: seq<HookCall>): nat {
    if hooks == [] then 0
    else DisconnectCalls(hooks[..|hooks| - 1]) + if hooks[|hooks| - 1].Disconnect? then 1 else 0
  }

  /** Every packet pump p has written has been notified, except for the one in hand. */
  predicate NoteInv(p: Pump, notes: seq<NoteCall>) {
    if p.pc.Notifying? then
      |p.sent| > 0 && p.sent[|p.sent| - 1] == p.pc.p && notes == NotesDue(p.sent[..|p.sent| - 1])
    else
      notes == NotesDue(p.sent)
  }

  predicate HookInv(s: State) {
    && NoteInv(s.up, Notes(s.hooks))
    && AcceptedAuths(Up, s.hooks) == Flat(s.up.asked)
    && AcceptedAuths(Down, s.hooks) == Flat(s.down.asked)
    && DisconnectCalls(s.hooks) == (if s.stream.Returned? then 1 else 0)
  }

  // ---------- The error channel ----------

  function Pending(p: Pump): nat { if p.pc.Sending? then 1 else 0 }

  /** Has pump p met the error that ends it? */
  predicate HasStopped(p: Pump) {
    p.pc.Done? || (p.pc.Sending? && p.pc.last)
  }

  function Stopped(p: Pump): nat { if HasStopped(p) then 1 else 0 }

  function Taken(s: State): nat { if s.stream.Receiving? then 0 else 1 }

  predicate ChanInv(s: State) {
    && |s.chan| <= CHAN_SIZE
    && |s.errors| == Taken(s) + |s.chan|
    && s.chan == s.errors[Taken(s)..]
    && (!s.stream.Receiving? ==> s.stream.err == s.errors[0])
    && |s.errors| + Pending(s.up) + Pending(s.down) == NoteFailures(s.hooks) + Stopped(s.up) + Stopped(s.down)
    && (s.down.pc.Sending? ==> s.down.pc.last)
    && (s.outClosed ==> s.stream.Returned?)
    && (s.inClosed ==> s.outClosed)
  }

  predicate Inv(cfg: Config, s: State) {
    && PumpInv(cfg, Up, s.up) && PumpInv(cfg, Down, s.down)
    && GateInv(Up, s.up) && GateInv(Down, s.down)
    && HookInv(s)
    && ChanInv(s)
  }

  // ---------- Every step keeps them ----------

  // The invariant of a pump, one kind of step at a time.

  lemma ReadStep(cfg: Config, d: Direction, p: Pump, e: Event, before: Session, after: Session)
    requires Actor(e) == Some(d) && Ready(d, p.pc, e) && PumpInv(cfg, d, p)
    requires e.ReadOk? || e.ReadFail?
    ensures PumpInv(cfg, d, NextPump(cfg, d, p, e, before, after))
  {
  }

  lemma InterceptStep(cfg: Config, d: Direction, p: Pump, e: Event, before: Session, after: Session)
    requires Actor(e) == Some(d) && Ready(d, p.pc, e) && PumpInv(cfg, d, p)
    requires e.Intercepted?
    ensures PumpInv(cfg, d, NextPump(cfg, d, p, e, before, after))
  {
  }

  lemma InterceptFailStep(cfg: Config, d: Direction, p: Pump, e: Event, before: Session, after: Session)
    requires Actor(e) == Some(d) && Ready(d, p.pc, e) && PumpInv(cfg, d, p)
    requires e.InterceptFail?
    ensures PumpInv(cfg, d, NextPump(cfg, d, p, e, before, after))
  {
  }

  lemma ConnectStep(cfg: Config, d: Direction, p: Pump, e: Event, before: Session, after: Session)
    requires Actor(e) == Some(d) && Ready(d, p.pc, e) && PumpInv(cfg, d, p)
    requires e.StoreSession? || e.ConnectAnswer? || e.CopySession?
    ensures PumpInv(cfg, d, NextPump(cfg, d, p, e, before, after))
  {
  }

  lemma PublishStep(cfg: Config, d: Direction, p: Pump, e: Event, before: Session, after: Session)
    requires Actor(e) == Some(d) && Ready(d, p.pc, e) && PumpInv(cfg, d, p)
    requires e.PublishAnswer?
    ensures PumpInv(cfg, d, NextPump(cfg, d, p, e, before, after))
  {
  }

  lemma SubscribeStep(cfg: Config, d: Direction, p: Pump, e: Event, before: Session, after: Session)
    requires Actor(e) == Some(d) && Ready(d, p.pc, e) && PumpInv(cfg, d, p)
    requires e.SubscribeAnswer? && d == Up
    ensures PumpInv(cfg, d, NextPump(cfg, d, p, e, before, after))
  {
  }

  lemma ReceiveStep(cfg: Config, d: Direction, p: Pump, e: Event, before: Session, after: Session)
    requires Actor(e) == Some(d) && Ready(d, p.pc, e) && PumpInv(cfg, d, p)
    requires e.SubscribeAnswer? && d == Down
    ensures PumpInv(cfg, d, NextPump(cfg, d, p, e, before, after))
  {
  }

  lemma NoHookStep(cfg: Config, d: Direction, p: Pump, e: Event, before: Session, after: Session)
    requires Actor(e) == Some(d) && Ready(d, p.pc, e) && PumpInv(cfg, d, p)
    requires e.NoHook?
    ensures PumpInv(cfg, d, NextPump(cfg, d, p, e, before, after))
  {
  }

  lemma WriteStep(cfg: Config, d: Direction, p: Pump, e: Event, before: Session, after: Session)
    requires Actor(e) == Some(d) && Ready(d, p.pc, e) && PumpInv(cfg, d, p)
    requires e.WriteOk? && p.pc.Writing?
    ensures PumpInv(cfg, d, NextPump(cfg, d, p, e, before, after))
  {
  }

  lemma RefuseStep(cfg: Config, d: Direction, p: Pump, e: Event, before: Session, after: Session)
    requires Actor(e) == Some(d) && Ready(d, p.pc, e) && PumpInv(cfg, d, p)
    requires e.WriteOk? && p.pc.Refusing?
    ensures PumpInv(cfg, d, NextPump(cfg, d, p, e, before, after))
  {
    var q := NextPump(cfg, d, p, e, before, after);
    assert q.sent[..|q.sent| - 1] == p.sent;
  }

  lemma WriteFailStep(cfg: Config, d: Direction, p: Pump, e: Event, before: Session, after: Session)
    requires Actor(e) == Some(d) && Ready(d, p.pc, e) && PumpInv(cfg, d, p)
    requires e.WriteFail?
    ensures PumpInv(cfg, d, NextPump(cfg, d, p, e, before, after))
  {
  }

  lemma NotedStep(cfg: Config, d: Direction, p: Pump, e: Event, before: Session, after: Session)
    requires Actor(e) == Some(d) && Ready(d, p.pc, e) && PumpInv(cfg, d, p)
    requires e.NoteAnswer? || e.NoNote?
    ensures PumpInv(cfg, d, NextPump(cfg, d, p, e, before, after))
  {
  }

  lemma SendStep(cfg: Config, d: Direction, p: Pump, e: Event, before: Session, after: Session)
    requires Actor(e) == Some(d) && Ready(d, p.pc, e) && PumpInv(cfg, d, p)
    requires e.Send?
    ensures PumpInv(cfg, d, NextPump(cfg, d, p, e, before, after))
  {
  }

  lemma PumpStep(cfg: Config, d: Direction, p: Pump, e: Event, before: Session, after: Session)
    requires Actor(e) == Some(d) && Ready(d, p.pc, e) && PumpInv(cfg, d, p)
    ensures PumpInv(cfg, d, NextPump(cfg, d, p, e, before, after))
  {
    if e.ReadOk? || e.ReadFail? { ReadStep(cfg, d, p, e, before, after); }
    else if e.Intercepted? { InterceptStep(cfg, d, p, e, before, after); }
    else if e.InterceptFail? { InterceptFailStep(cfg, d, p, e, before, after); }
    else if e.StoreSession? || e.ConnectAnswer? || e.CopySession? { ConnectStep(cfg, d, p, e, before, after); }
    else if e.PublishAnswer? { PublishStep(cfg, d, p, e, before, after); }
    else if e.SubscribeAnswer? && d == Up { SubscribeStep(cfg, d, p, e, before, after); }
    else if e.SubscribeAnswer? { ReceiveStep(cfg, d, p, e, before, after); }
    else if e.NoHook? { NoHookStep(cfg, d, p, e, before, after); }
    else if e.WriteOk? && p.pc.Writing? { WriteStep(cfg, d, p, e, before, after); }
    else if e.WriteOk? { RefuseStep(cfg, d, p, e, before, after); }
    else if e.WriteFail? { WriteFailStep(cfg, d, p, e, before, after); }
    else if e.Send? { SendStep(cfg, d, p, e, before, after); }
    else { NotedStep(cfg, d, p, e, before, after); }
  }

  lemma StagesGrow(cfg: Config, d: Direction, p: Pump, e: Event, before: Session, after: Session)
    requires Actor(e) == Some(d) && Ready(d, p.pc, e)
    ensures var q := NextPump(cfg, d, p, e, before, after);
            && p.gateIn <= q.gateIn && p.asked <= q.asked && p.gateOut <= q.gateOut
            && |q.gateOut| <= |p.gateOut| + 1
  {
  }

  /** The packet that has just passed the hooks was cleared by the right call. */
  predicate JustCleared(d: Direction, p: Pump, q: Pump) {
    var n := |p.gateOut|;
    |q.gateOut| == |q.asked| == |q.gateIn| == n + 1 && Cleared(d, q.gateIn[n], q.asked[n], q.gateOut[n])
  }

  lemma ConnectCleared(cfg: Config, d: Direction, p: Pump, e: Event, before: Session, after: Session)
    requires Actor(e) == Some(d) && Ready(d, p.pc, e) && PumpInv(cfg, d, p)
    requires e.CopySession?
    requires |NextPump(cfg, d, p, e, before, after).gateOut| > |p.gateOut|
    ensures JustCleared(d, p, NextPump(cfg, d, p, e, before, after))
  {
  }

  lemma AnswerCleared(cfg: Config, d: Direction, p: Pump, e: Event, before: Session, after: Session)
    requires Actor(e) == Some(d) && Ready(d, p.pc, e) && PumpInv(cfg, d, p)
    requires e.PublishAnswer? || e.SubscribeAnswer?
    requires |NextPump(cfg, d, p, e, before, after).gateOut| > |p.gateOut|
    ensures JustCleared(d, p, NextPump(cfg, d, p, e, before, after))
  {
  }

  lemma ClearedStep(cfg: Config, d: Direction, p: Pump, e: Event, before: Session, after: Session)
    requires Actor(e) == Some(d) && Ready(d, p.pc, e) && PumpInv(cfg, d, p)
    requires |NextPump(cfg, d, p, e, before, after).gateOut| > |p.gateOut|
    ensures JustCleared(d, p, NextPump(cfg, d, p, e, before, after))
  {
    if e.CopySession? {
      ConnectCleared(cfg, d, p, e, before, after);
    } else if e.PublishAnswer? || e.SubscribeAnswer? {
      AnswerCleared(cfg, d, p, e, before, after);
    }
  }

  lemma GateStep(cfg: Config, d: Direction, p: Pump, e: Event, before: Session, after: Session)
    requires Actor(e) == Some(d) && Ready(d, p.pc, e)
    requires PumpInv(cfg, d, p) && GateInv(d, p)
    ensures GateInv(d, NextPump(cfg, d, p, e, before, after))
  {
    StagesGrow(cfg, d, p, e, before, after);
    if |NextPump(cfg, d, p, e, before, after).gateOut| > |p.gateOut| {
      ClearedStep(cfg, d, p, e, before, after);
    }
    GateExtend(d, p, NextPump(cfg, d, p, e, before, after));
  }

  lemma GateExtend(d: Direction, p: Pump, q: Pump)
    requires GateInv(d, p)
    requires p.gateIn <= q.gateIn && p.asked <= q.asked && p.gateOut <= q.gateOut && |q.gateOut| <= |p.gateOut| + 1
    requires |q.gateOut| > |p.gateOut| ==>
               |q.gateOut| <= |q.asked| && |q.gateOut| <= |q.gateIn|
               && Cleared(d, q.gateIn[|p.gateOut|], q.asked[|p.gateOut|], q.gateOut[|p.gateOut|])
    ensures GateInv(d, q)
  {
  }

  lemma OneMoreCall(hooks: seq<HookCall>, h: HookCall)
    ensures Notes(hooks + [h]) == Notes(hooks) + if h.Note? then [h.note] else []
    ensures AcceptedAuths(Up, hooks + [h]) ==
            AcceptedAuths(Up, hooks) + if h.Auth? && h.d == Up && h.verdict.Accept? then [h.auth] else []
    ensures AcceptedAuths(Down, hooks + [h]) ==
            AcceptedAuths(Down, hooks) + if h.Auth? && h.d == Down && h.verdict.Accept? then [h.auth] else []
    ensures DisconnectCalls(hooks + [h]) == DisconnectCalls(hooks) + if h.Disconnect? then 1 else 0
    ensures NoteFailures(hooks + [h]) == NoteFailures(hooks) + if h.Note? && h.verdict.Refuse? then 1 else 0
  {
    assert (hooks + [h])[..|hooks|] == hooks;
  }

  lemma OneMoreSent(sent: seq<Packet>, p: Packet)
    ensures NotesDue(sent + [p]) == NotesDue(sent) + if NoteFor(p).Some? then [NoteFor(p).value] else []
  {
    assert (sent + [p])[..|sent|] == sent;
  }

  lemma OneMoreAsked(asked: seq<Option<AuthCall>>, a: Option<AuthCall>)
    ensures Flat(asked + [a]) == Flat(asked) + if a.Some? then [a.value] else []
  {
    assert (asked + [a])[..|asked|] == asked;
  }

  predicate AsksHook(e: Event) {
    e.ConnectAnswer? || e.PublishAnswer? || e.SubscribeAnswer?
  }

  /** The call that step e of pump d gets accepted, if it does. */
  function NewAccepted(d: Direction, pc: Pc, e: Event, session: Session): seq<AuthCall> {
    if Actor(e) == Some(d) && Ready(d, pc, e) && AsksHook(e) && e.verdict.Accept? then [AuthOf(d, pc, e, session).value]
    else []
  }

  lemma HooksAfter(cfg: Config, s: State, e: Event)
    requires Enabled(s, e)
    ensures Apply(cfg, s, e).hooks == s.hooks + NewCalls(s, e)
  {
  }

  lemma NewCallsShape(s: State, e: Event)
    requires Enabled(s, e)
    ensures var calls := NewCalls(s, e);
            if AsksHook(e) then
              Actor(e).Some? && var d := Actor(e).value;
              calls == [Auth(d, AuthOf(d, s.Of(d).pc, e, s.session).value, e.verdict)]
            else if e.NoteAnswer? then calls == [Note(NoteFor(s.up.pc.p).value, e.verdict)]
            else if e.DisconnectAnswer? then calls == [Disconnect(e.verdict)]
            else calls == []
  {
  }

  /** What step e adds to the hook log, seen through the functions on it. */
  lemma HooksGrow(cfg: Config, s: State, e: Event)
    requires Enabled(s, e)
    ensures var hooks := Apply(cfg, s, e).hooks;
            && Notes(hooks) == Notes(s.hooks) + (if e.NoteAnswer? then [NoteFor(s.up.pc.p).value] else [])
            && DisconnectCalls(hooks) == DisconnectCalls(s.hooks) + (if e.DisconnectAnswer? then 1 else 0)
            && NoteFailures(hooks) == NoteFailures(s.hooks) + (if e.NoteAnswer? && e.verdict.Refuse? then 1 else 0)
  {
    HooksAfter(cfg, s, e);
    NewCallsShape(s, e);
    if NewCalls(s, e) == [] {
      assert Apply(cfg, s, e).hooks == s.hooks;
    } else {
      OneMoreCall(s.hooks, NewCalls(s, e)[0]);
    }
  }

  lemma AuthsGrow(cfg: Config, s: State, e: Event, d: Direction)
    requires Enabled(s, e)
    ensures AcceptedAuths(d, Apply(cfg, s, e).hooks)
         == AcceptedAuths(d, s.hooks) + NewAccepted(d, s.Of(d).pc, e, s.session)
  {
    HooksAfter(cfg, s, e);
    NewCallsShape(s, e);
    var calls := NewCalls(s, e);
    if calls == [] {
      assert s.hooks + calls == s.hooks;
    } else {
      OneMoreCall(s.hooks, calls[0]);
      assert calls == [calls[0]];
    }
  }

  /** A step moves the pump that takes it and no other. */
  lemma PumpAfter(cfg: Config, s: State, e: Event, d: Direction)
    requires Enabled(s, e)
    ensures Apply(cfg, s, e).Of(d) ==
            if Actor(e) == Some(d) then NextPump(cfg, d, s.Of(d), e, s.session, NextSession(s, e)) else s.Of(d)
  {
  }

  /** What step e of the Up pump adds to the notifications given. */
  function NewNotes(pc: Pc, e: Event): seq<NoteCall>
    requires Actor(e) == Some(Up) && Ready(Up, pc, e)
  {
    if e.NoteAnswer? then [NoteFor(pc.p).value] else []
  }

  lemma NoteStep(cfg: Config, s: State, e: Event)
    requires PumpInv(cfg, Up, s.up) && NoteInv(s.up, Notes(s.hooks)) && Enabled(s, e)
    ensures var t := Apply(cfg, s, e); NoteInv(t.up, Notes(t.hooks))
  {
    HooksGrow(cfg, s, e);
    PumpAfter(cfg, s, e, Up);
    if Actor(e) == Some(Up) {
      NotePumpStep(cfg, s.up, Notes(s.hooks), e, s.session, NextSession(s, e));
    }
  }

  lemma NotePumpStep(cfg: Config, p: Pump, notes: seq<NoteCall>, e: Event, before: Session, after: Session)
    requires Actor(e) == Some(Up) && Ready(Up, p.pc, e) && PumpInv(cfg, Up, p) && NoteInv(p, notes)
    ensures NoteInv(NextPump(cfg, Up, p, e, before, after), notes + NewNotes(p.pc, e))
  {
    if e.WriteOk? {
      NoteDue(cfg, p, notes, e, before, after);
    } else {
      SentStays(cfg, p, e, before, after);
      if e.NoteAnswer? || e.NoNote? {
        LastIsDue(cfg, p);
      }
    }
  }

  /** The packet that a pump is about to notify of is the last one it wrote. */
  lemma LastIsDue(cfg: Config, p: Pump)
    requires PumpInv(cfg, Up, p) && p.pc.Notifying?
    ensures var due := NotesDue(p.sent); var n := NoteFor(p.pc.p);
            due == NotesDue(p.sent[..|p.sent| - 1]) + if n.Some? then [n.value] else []
  {
  }

  /** Only a write makes a notification due. */
  lemma SentStays(cfg: Config, p: Pump, e: Event, before: Session, after: Session)
    requires Actor(e) == Some(Up) && Ready(Up, p.pc, e) && !e.WriteOk?
    ensures var q := NextPump(cfg, Up, p, e, before, after);
            && q.sent == p.sent && !q.pc.Notifying?
            && (p.pc.Notifying? <==> e.NoteAnswer? || e.NoNote?)
  {
  }

  lemma NoteDue(cfg: Config, p: Pump, notes: seq<NoteCall>, e: Event, before: Session, after: Session)
    requires e == WriteOk(Up) && Ready(Up, p.pc, e) && PumpInv(cfg, Up, p) && NoteInv(p, notes)
    ensures NoteInv(NextPump(cfg, Up, p, e, before, after), notes)
  {
    var q := NextPump(cfg, Up, p, e, before, after);
    assert q.sent[..|q.sent| - 1] == p.sent;
  }

  lemma AskedGrows(cfg: Config, d: Direction, p: Pump, e: Event, before: Session, after: Session)
    requires Actor(e) == Some(d) && Ready(d, p.pc, e)
    ensures var q := NextPump(cfg, d, p, e, before, after); var accepted := NewAccepted(d, p.pc, e, before);
            q.asked == p.asked + if accepted != [] then [Some(accepted[0])] else if e.NoHook? then [None] else []
  {
  }

  lemma AskedStep(cfg: Config, s: State, e: Event, d: Direction)
    requires Enabled(s, e)
    requires AcceptedAuths(d, s.hooks) == Flat(s.Of(d).asked)
    ensures var t := Apply(cfg, s, e); AcceptedAuths(d, t.hooks) == Flat(t.Of(d).asked)
  {
    AuthsGrow(cfg, s, e, d);
    PumpAfter(cfg, s, e, d);
    if Actor(e) == Some(d) {
      FlatAfter(cfg, d, s.Of(d), e, s.session, NextSession(s, e));
    }
  }

  lemma FlatAfter(cfg: Config, d: Direction, p: Pump, e: Event, before: Session, after: Session)
    requires Actor(e) == Some(d) && Ready(d, p.pc, e)
    ensures Flat(NextPump(cfg, d, p, e, before, after).asked) == Flat(p.asked) + NewAccepted(d, p.pc, e, before)
  {
    AskedGrows(cfg, d, p, e, before, after);
    var accepted := NewAccepted(d, p.pc, e, before);
    if accepted != [] {
      OneMoreAsked(p.asked, Some(accepted[0]));
    } else if e.NoHook? {
      OneMoreAsked(p.asked, None);
    }
  }

  lemma DisconnectStep(cfg: Config, s: State, e: Event)
    requires Enabled(s, e)
    requires DisconnectCalls(s.hooks) == if s.stream.Returned? then 1 else 0
    ensures var t := Apply(cfg, s, e); DisconnectCalls(t.hooks) == if t.stream.Returned? then 1 else 0
  {
    HooksGrow(cfg, s, e);
  }

  lemma ChanStep(cfg: Config, s: State, e: Event)
    requires ChanInv(s) && Enabled(s, e)
    ensures ChanInv(Apply(cfg, s, e))
  {
    HooksGrow(cfg, s, e);
    if Actor(e).None? {
      CallerChanStep(cfg, s, e);
    } else if e.Send? {
      SendChanStep(cfg, s, e);
    } else {
      PumpChanStep(cfg, s, e);
    }
  }

  lemma CallerChanStep(cfg: Config, s: State, e: Event)
    requires ChanInv(s) && Enabled(s, e) && Actor(e).None?
    requires NoteFailures(Apply(cfg, s, e).hooks) == NoteFailures(s.hooks)
    ensures ChanInv(Apply(cfg, s, e))
  {
    PumpAfter(cfg, s, e, Up);
    PumpAfter(cfg, s, e, Down);
    if e.Receive? {
      assert Apply(cfg, s, e).chan == s.errors[1..];
    } else {
      assert Apply(cfg, s, e).chan == s.chan && Apply(cfg, s, e).errors == s.errors;
    }
  }

  lemma SendChanStep(cfg: Config, s: State, e: Event)
    requires ChanInv(s) && Enabled(s, e) && e.Send?
    requires NoteFailures(Apply(cfg, s, e).hooks) == NoteFailures(s.hooks)
    ensures ChanInv(Apply(cfg, s, e))
  {
  }

  /** A pump that begins a send either stops or has just had a notification fail. */
  lemma SendsCounted(cfg: Config, d: Direction, p: Pump, e: Event, before: Session, after: Session)
    requires Actor(e) == Some(d) && Ready(d, p.pc, e) && !e.Send?
    requires d == Down ==> !e.NoteAnswer?
    ensures var q := NextPump(cfg, d, p, e, before, after);
            && Pending(p) == Stopped(p) == 0
            && Pending(q) == Stopped(q) + (if e.NoteAnswer? && e.verdict.Refuse? then 1 else 0)
            && (d == Down && q.pc.Sending? ==> q.pc.last)
  {
  }

  lemma PumpChanStep(cfg: Config, s: State, e: Event)
    requires ChanInv(s) && Enabled(s, e) && Actor(e).Some? && !e.Send?
    requires NoteFailures(Apply(cfg, s, e).hooks)
          == NoteFailures(s.hooks) + if e.NoteAnswer? && e.verdict.Refuse? then 1 else 0
    ensures ChanInv(Apply(cfg, s, e))
  {
    var d := Actor(e).value;
    SendsCounted(cfg, d, s.Of(d), e, s.session, NextSession(s, e));
  }

  lemma BothPumpsStep(cfg: Config, s: State, e: Event, d: Direction)
    requires PumpInv(cfg, d, s.Of(d)) && GateInv(d, s.Of(d)) && Enabled(s, e)
    ensures var q := Apply(cfg, s, e).Of(d); PumpInv(cfg, d, q) && GateInv(d, q)
  {
    if Actor(e) == Some(d) {
      PumpStep(cfg, d, s.Of(d), e, s.session, NextSession(s, e));
      GateStep(cfg, d, s.Of(d), e, s.session, NextSession(s, e));
    } else {
      assert Apply(cfg, s, e).Of(d) == s.Of(d);
    }
  }

  lemma InvStep(cfg: Config, s: State, e: Event)
    requires Inv(cfg, s) && Enabled(s, e)
    ensures Inv(cfg, Apply(cfg, s, e))
  {
    BothPumpsStep(cfg, s, e, Up);
    BothPumpsStep(cfg, s, e, Down);
    NoteStep(cfg, s, e);
    AskedStep(cfg, s, e, Up);
    AskedStep(cfg, s, e, Down);
    DisconnectStep(cfg, s, e);
    ChanStep(cfg, s, e);
  }

  lemma {:induction false} InvAlong(cfg: Config, s: State, es: seq<Event>)
    requires Inv(cfg, s) && Exec(cfg, s, es).Some?
    ensures Inv(cfg, Exec(cfg, s, es).value)
  {
    if es != [] {
      InvAlong(cfg, s, es[..|es| - 1]);
      InvStep(cfg, Exec(cfg, s, es[..|es| - 1]).value, es[|es| - 1]);
    }
  }

  lemma IdlePumpInv(cfg: Config, d: Direction)
    ensures PumpInv(cfg, d, IDLE_PUMP) && GateInv(d, IDLE_PUMP)
  {
  }

  lemma InitInv(cfg: Config)
    ensures Inv(cfg, INIT)
  {
    IdlePumpInv(cfg, Up);
    IdlePumpInv(cfg, Down);
    assert HookInv(INIT);
    assert ChanInv(INIT);
  }

  lemma InvReachable(cfg: Config, s: State)
    requires Reachable(cfg, s)
    ensures Inv(cfg, s)
  {
    InitInv(cfg);
    var es :| Exec(cfg, INIT, es) == Some(s);
    InvAlong(cfg, INIT, es);
  }
}
