/**
 What can still happen after `Stream` has called Disconnect. It waits for one pump
 only, so the Up pump may still be at work. The lemmas say from which states it can
 still call a hook, and how often it does once both connections are closed.
*/
module SessionAfterDisconnect {
  import opened Results
  import opened SessionStream
  import opened SessionInvariants
  import opened SessionShutdown

  /** Does step e call an authorization or notification hook for a client's packet? */
  predicate CallsForClient(s: State, e: Event)
    requires Enabled(s, e)
  {
    exists h :: h in NewCalls(s, e) && (h.Note? || (h.Auth? && h.d == Up))
  }

  /** Some continuation calls a hook for a client's packet. */
  ghost predicate CallMayFollow(cfg: Config, s: State) {
    exists es, e :: CalledBy(cfg, s, es, e)
  }

  ghost predicate CalledBy(cfg: Config, s: State, es: seq<Event>, e: Event) {
    var r := Exec(cfg, s, es);
    r.Some? && Enabled(r.value, e) && CallsForClient(r.value, e)
  }

  /** Has the Up pump a hook before it? Where it must write first, the connection to the
      broker must be open; where it must send an error first, the channel must have room. */
  predicate CanAsk(s: State) {
    PcCanAsk(s.up.pc, !s.outClosed, |s.chan| < CHAN_SIZE)
  }

  predicate PcCanAsk(pc: Pc, outOpen: bool, room: bool) {
    match pc
    case Reading => true
    case PreIntercept(_) => true
    case Gate(p) => Guarded(Up, p) || outOpen
    case AskConnect(_) => true
    case CopyBack(_) => outOpen
    case PostIntercept(_) => outOpen
    case Writing(_) => outOpen
    case Notifying(_) => true
    case Refusing(_) => false
    case Sending(_, last) => !last && room
    case Done => false
  }

  const CLIENT_PACKET := SubscribePacket([], [])

  /** A step of the Up pump towards its next hook, or the call itself. */
  function Towards(pc: Pc): Event {
    match pc
    case Reading => ReadOk(Up, CLIENT_PACKET)
    case PreIntercept(_) => Intercepted(Up, CLIENT_PACKET, NOBODY)
    case Gate(p) =>
      if p.ConnectPacket? then StoreSession
      else if p.PublishPacket? then PublishAnswer(Accept, [], [], NOBODY)
      else if p.SubscribePacket? then SubscribeAnswer(Up, Accept, [], NOBODY)
      else NoHook(Up)
    case AskConnect(_) => ConnectAnswer(Accept, NOBODY)
    case CopyBack(_) => CopySession
    case PostIntercept(p) => Intercepted(Up, p, NOBODY)
    case Writing(_) => WriteOk(Up)
    case Notifying(p) => if NoteFor(p).Some? then NoteAnswer(Accept, NOBODY) else NoNote
    case _ => Send(Up)
  }

  /** How many steps the next hook is away. */
  function Distance(pc: Pc): nat {
    match pc
    case Gate(p) => if p.ConnectPacket? then 1 else if Guarded(Up, p) then 0 else 9
    case AskConnect(_) => 0
    case PreIntercept(_) => 1
    case Reading => 2
    case Sending(_, _) => 3
    case Notifying(p) => if NoteFor(p).Some? then 0 else 3
    case Writing(_) => 4
    case PostIntercept(_) => 5
    case CopyBack(_) => 6
    case _ => 0
  }

  lemma CallsForClientExactlyWhen(s: State, e: Event)
    requires Enabled(s, e)
    ensures CallsForClient(s, e) <==> (AsksHook(e) && Actor(e) == Some(Up)) || e.NoteAnswer?
  {
    NewCallsShape(s, e);
    if AsksHook(e) || e.NoteAnswer? {
      assert NewCalls(s, e)[0] in NewCalls(s, e);
    }
  }

  lemma TowardsPump(cfg: Config, p: Pump, outOpen: bool, room: bool, before: Session, after: Session)
    requires PumpInv(cfg, Up, p) && PcCanAsk(p.pc, outOpen, room)
    ensures var e := Towards(p.pc);
            && Actor(e) == Some(Up) && Ready(Up, p.pc, e)
            && (e.WriteOk? ==> outOpen) && (e.Send? ==> room)
            && (AsksHook(e) || e.NoteAnswer?
                || (var q := NextPump(cfg, Up, p, e, before, after);
                    PcCanAsk(q.pc, outOpen, true) && !q.pc.Sending? && Distance(q.pc) < Distance(p.pc)))
  {
  }

  lemma TowardsStep(cfg: Config, s: State)
    requires PumpInv(cfg, Up, s.up) && CanAsk(s)
    ensures var e := Towards(s.up.pc);
            && Enabled(s, e)
            && (CallsForClient(s, e)
                || (CanAsk(Apply(cfg, s, e)) && Distance(Apply(cfg, s, e).up.pc) < Distance(s.up.pc)))
  {
    var e := Towards(s.up.pc);
    TowardsPump(cfg, s.up, !s.outClosed, |s.chan| < CHAN_SIZE, s.session, s.session);
    assert Enabled(s, e);
    TowardsPump(cfg, s.up, !s.outClosed, |s.chan| < CHAN_SIZE, s.session, NextSession(s, e));
    CallsForClientExactlyWhen(s, e);
    PumpAfter(cfg, s, e, Up);
  }

  lemma {:induction false} CanAskCalls(cfg: Config, s: State)
    requires PumpInv(cfg, Up, s.up) && CanAsk(s)
    ensures CallMayFollow(cfg, s)
    decreases Distance(s.up.pc)
  {
    var e := Towards(s.up.pc);
    TowardsStep(cfg, s);
    if CallsForClient(s, e) {
      assert CalledBy(cfg, s, [], e);
    } else {
      var t := Apply(cfg, s, e);
      PumpAfter(cfg, s, e, Up);
      PumpStep(cfg, Up, s.up, e, s.session, NextSession(s, e));
      CanAskCalls(cfg, t);
      var es, f :| CalledBy(cfg, t, es, f);
      ExecCons(cfg, s, e, es);
      assert CalledBy(cfg, s, [e] + es, f);
    }
  }

  /** A pump without a hook before it comes no nearer to one. */
  lemma CannotAskPump(cfg: Config, p: Pump, e: Event, before: Session, after: Session, outOpen: bool, room: bool)
    requires PumpInv(cfg, Up, p) && !PcCanAsk(p.pc, outOpen, room)
    requires Actor(e) == Some(Up) && Ready(Up, p.pc, e) && (e.WriteOk? ==> outOpen) && (e.Send? ==> room)
    ensures !AsksHook(e) && !e.NoteAnswer?
    ensures !PcCanAsk(NextPump(cfg, Up, p, e, before, after).pc, outOpen, true)
  {
  }

  lemma CannotAskStep(cfg: Config, s: State, e: Event)
    requires PumpInv(cfg, Up, s.up) && s.stream.Returned? && !CanAsk(s) && Enabled(s, e)
    ensures !CallsForClient(s, e)
    ensures var t := Apply(cfg, s, e); t.stream.Returned? && !CanAsk(t)
  {
    PumpAfter(cfg, s, e, Up);
    CallsForClientExactlyWhen(s, e);
    NothingOpens(cfg, s, e);
    if Actor(e) == Some(Up) {
      CannotAskPump(cfg, s.up, e, s.session, NextSession(s, e), !s.outClosed, |s.chan| < CHAN_SIZE);
    }
  }

  /** After `Stream` has returned no connection is opened and the channel is not emptied. */
  lemma NothingOpens(cfg: Config, s: State, e: Event)
    requires s.stream.Returned? && Enabled(s, e)
    ensures var t := Apply(cfg, s, e);
            t.stream == s.stream && (s.outClosed ==> t.outClosed) && |t.chan| >= |s.chan|
            && (Actor(e).Some? ==> t.outClosed == s.outClosed)
  {
  }

  lemma {:induction false} CannotAsk(cfg: Config, s: State, es: seq<Event>)
    requires Inv(cfg, s) && s.stream.Returned? && !CanAsk(s) && Exec(cfg, s, es).Some?
    ensures var t := Exec(cfg, s, es).value; Inv(cfg, t) && t.stream.Returned? && !CanAsk(t)
  {
    if es != [] {
      CannotAsk(cfg, s, es[..|es| - 1]);
      var t := Exec(cfg, s, es[..|es| - 1]).value;
      CannotAskStep(cfg, t, es[|es| - 1]);
      InvStep(cfg, t, es[|es| - 1]);
    }
  }

  /** After Disconnect a hook can still be called for a client's packet exactly when the Up
      pump's program counter, the channel and the connection to the broker allow it. */
  lemma CallsFollowDisconnectExactlyWhen(cfg: Config, s: State)
    requires Reachable(cfg, s) && s.stream.Returned?
    ensures CallMayFollow(cfg, s) <==> CanAsk(s)
  {
    InvReachable(cfg, s);
    if CanAsk(s) {
      CanAskCalls(cfg, s);
    }
    if CallMayFollow(cfg, s) && !CanAsk(s) {
      var es, e :| CalledBy(cfg, s, es, e);
      CannotAsk(cfg, s, es);
      CannotAskStep(cfg, Exec(cfg, s, es).value, e);
    }
  }

  // ---------- Once both connections are closed ----------

  /** The authorization calls of the Up pump, accepted or not. */
  function AuthCalls(hooks: seq<HookCall>): nat {
    if hooks == [] then 0
    else
      var h := hooks[|hooks| - 1];
      AuthCalls(hooks[..|hooks| - 1]) + if h.Auth? && h.d == Up then 1 else 0
  }

  function AuthsLeft(pc: Pc): nat {
    match pc
    case Reading => 1
    case PreIntercept(_) => 1
    case Gate(_) => 1
    case AskConnect(_) => 1
    case Notifying(_) => 1
    case Sending(_, last) => if last then 0 else 1
    case _ => 0
  }

  function NotesLeft(pc: Pc): nat { if pc.Notifying? then 1 else 0 }

  lemma AuthCallsGrow(cfg: Config, s: State, e: Event)
    requires Enabled(s, e)
    ensures AuthCalls(Apply(cfg, s, e).hooks)
         == AuthCalls(s.hooks) + if AsksHook(e) && Actor(e) == Some(Up) then 1 else 0
  {
    HooksAfter(cfg, s, e);
    NewCallsShape(s, e);
    var hooks := Apply(cfg, s, e).hooks;
    if NewCalls(s, e) == [] {
      assert hooks == s.hooks;
    } else {
      assert hooks[..|hooks| - 1] == s.hooks;
    }
  }

  lemma CallsLeftStep(cfg: Config, p: Pump, e: Event, before: Session, after: Session)
    requires Actor(e) == Some(Up) && Ready(Up, p.pc, e) && !e.WriteOk?
    ensures var q := NextPump(cfg, Up, p, e, before, after);
            && AuthsLeft(q.pc) + (if AsksHook(e) then 1 else 0) <= AuthsLeft(p.pc)
            && NotesLeft(q.pc) + (if e.NoteAnswer? then 1 else 0) <= NotesLeft(p.pc)
  {
  }

  /** Once both connections are closed at most one more packet is authorized and at most one
      more notified, however the session goes on. */
  lemma {:induction false} LastCalls(cfg: Config, s: State, es: seq<Event>)
    requires Over(s) && Exec(cfg, s, es).Some?
    ensures var t := Exec(cfg, s, es).value;
            && Over(t)
            && AuthCalls(t.hooks) + AuthsLeft(t.up.pc) <= AuthCalls(s.hooks) + AuthsLeft(s.up.pc)
            && |Notes(t.hooks)| + NotesLeft(t.up.pc) <= |Notes(s.hooks)| + NotesLeft(s.up.pc)
            && AuthCalls(t.hooks) <= AuthCalls(s.hooks) + 1 && |Notes(t.hooks)| <= |Notes(s.hooks)| + 1
  {
    if es != [] {
      LastCalls(cfg, s, es[..|es| - 1]);
      var t, e := Exec(cfg, s, es[..|es| - 1]).value, es[|es| - 1];
      HooksGrow(cfg, t, e);
      AuthCallsGrow(cfg, t, e);
      PumpAfter(cfg, t, e, Up);
      if Actor(e) == Some(Up) {
        CallsLeftStep(cfg, t.up, e, t.session, NextSession(t, e));
      }
    }
  }

  // ---------- A run in which it happens ----------

  ghost predicate DisconnectBefore(hooks: seq<HookCall>, i: nat, j: nat) {
    i < j < |hooks| && hooks[i].Disconnect? && hooks[j].Auth? && hooks[j].d == Up
  }

  lemma DownFails(s: State) returns (t: State)
    requires Reachable(PLAIN, s) && s.down.pc.Reading? && s.chan == []
    ensures Reachable(PLAIN, t) && t.stream == s.stream && |t.chan| == 1 && t.up == s.up && t.hooks == s.hooks
  {
    t := Extend(PLAIN, s, ReadFail(Down, Eof));
    t := Extend(PLAIN, t, Send(Down));
  }

  /** The Down pump ends, and `Stream` takes its error and calls Disconnect. */
  lemma DownEnds(s: State) returns (t: State)
    requires Reachable(PLAIN, s) && s.down.pc.Reading? && s.chan == [] && s.stream.Receiving?
    ensures Reachable(PLAIN, t) && t.up == s.up && t.hooks == s.hooks + [Disconnect(Accept)]
  {
    t := DownFails(s);
    t := Extend(PLAIN, t, Receive);
    t := Extend(PLAIN, t, DisconnectAnswer(Accept, NOBODY));
  }

  /** `Stream` does not wait for the pump it has not heard from: a client's packet can
      still be authorized after Disconnect has been called. */
  lemma HooksMayFollowDisconnect() returns (t: State)
    ensures Reachable(PLAIN, t) && exists i, j :: DisconnectBefore(t.hooks, i, j)
  {
    assert Exec(PLAIN, INIT, []) == Some(INIT);
    t := Extend(PLAIN, INIT, ReadOk(Up, SubscribePacket([], [])));
    t := DownEnds(t);
    t := Extend(PLAIN, t, SubscribeAnswer(Up, Accept, [], NOBODY));
    assert DisconnectBefore(t.hooks, 0, 1);
  }
}
