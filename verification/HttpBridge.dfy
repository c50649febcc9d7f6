/**
 The websocket bridge of pkg/http/ws.go as a transition system: the handshake of
 `handleWebSocket`, two pumps that close each other's source when they stop, the
 join, and the one Unsubscribe.

 The Up pump goes from the client (inConn) to the server (targetConn); the Down
 pump the other way. A step is one call to the outside world.
*/
module HttpBridge {
  import opened Results

  type Payload = seq<bv8>

  datatype Direction = Up | Down

  datatype Frame = Frame(kind: int, payload: Payload)

  /** Why a read failed, as far as handleStreamErr can tell. */
  datatype Cause = NormalClose | NetClosed | Other(text: string)

  /** A call of AuthPublish or Publish, with its arguments before and after. */
  datatype PubCall = PubCall(topic: string, payload: Payload, topicLeft: string, payloadLeft: Payload, ok: bool)

  /** A hook called before the dial, with its argument and whether it accepted. */
  datatype Hello = AuthConnect(ok: bool) | AuthSubscribe(topic: string, ok: bool) | Subscribe(topic: string, ok: bool)

  datatype Pc =
    | Idle                       // not started
    | Reading
    | AuthPublishing(f: Frame)   // Up only
    | Publishing(f: Frame)       // Up only
    | AuthSubscribing(f: Frame)  // Down only
    | Writing(f: Frame)
    | SayingClose(err: Option<Cause>)
    | Closing(err: Option<Cause>)
    | Returned

  datatype Main =
    | Connecting | CheckingSubscribe | Subscribing   // AuthConnect, AuthSubscribe, Subscribe
    | Dialling | Upgrading
    | Pumping
    | Unsubscribing
    | Finished

  datatype UpPump = UpPump(
    pc: Pc, topic: string,
    got: seq<Frame>, auths: seq<PubCall>, pubs: seq<PubCall>, forwarded: seq<Frame>)

  datatype DownPump = DownPump(pc: Pc, got: seq<Frame>, checks: seq<(string, bool)>, forwarded: seq<Frame>)

  datatype State = State(
    main: Main, topic: string,
    hellos: seq<Hello>,
    up: UpPump, down: DownPump,
    targetOpen: bool, inOpen: bool,
    upLeft: nat, downLeft: nat,  // frames a pump can still read from its source after it was closed
    cancelled: bool,             // the context of the error group, which every later hook gets
    firstErr: Option<Cause>,
    unsubscribes: nat)
  {
    function Pc(d: Direction): Pc { if d == Up then up.pc else down.pc }

    /** Can a read still succeed? */
    predicate SourceOpen(d: Direction) { if d == Up then inOpen || upLeft > 0 else targetOpen || downLeft > 0 }

    predicate DestOpen(d: Direction) { if d == Up then targetOpen else inOpen }
  }

  function Init(topic: string): State {
    State(Connecting, topic, [], UpPump(Idle, topic, [], [], [], []), DownPump(Idle, [], [], []),
          false, false, 0, 0, false, None, 0)
  }

  datatype Event =
    | Handshake(ok: bool)        // a hook, the dial or the upgrade answers
    | ReadOk(d: Direction, f: Frame)
    | ReadFail(d: Direction, cause: Cause)
    | AuthPublished(ok: bool, topic: string, payload: Payload)
    | Published(ok: bool, topic: string, payload: Payload)
    | AuthSubscribed(ok: bool)
    | Write(d: Direction, ok: bool)
    | SayClose(d: Direction)
    | Close(d: Direction, left: nat)
    | Join
    | Unsubscribe

  /** `handleStreamErr`: a normal end is not an error. */
  function StreamErr(cause: Cause, d: Direction): Option<Cause> {
    if (d == Up && cause.NormalClose?) || cause.NetClosed? then None else Some(cause)
  }

  const REFUSED := Other("refused")

  predicate Enabled(s: State, e: Event) {
    match e
    case Handshake(_) => !s.main.Pumping? && !s.main.Unsubscribing? && !s.main.Finished?
    case ReadOk(d, _) => s.Pc(d).Reading? && s.SourceOpen(d)
    case ReadFail(d, _) => s.Pc(d).Reading?
    case AuthPublished(_, _, _) => s.up.pc.AuthPublishing?
    case Published(_, _, _) => s.up.pc.Publishing?
    case AuthSubscribed(_) => s.down.pc.AuthSubscribing?
    case Write(d, ok) => s.Pc(d).Writing? && (ok ==> s.DestOpen(d))
    case SayClose(d) => s.Pc(d).SayingClose?
    case Close(d, _) => s.Pc(d).Closing?
    case Join => s.main.Pumping? && s.up.pc.Returned? && s.down.pc.Returned?
    case Unsubscribe => s.main.Unsubscribing?
  }

  function NextMain(s: State, e: Event): Main
    requires Enabled(s, e)
  {
    match e
    case Handshake(ok) =>
      if !ok then Finished
      else
        (match s.main
         case Connecting => CheckingSubscribe
         case CheckingSubscribe => Subscribing
         case Subscribing => Dialling
         case Dialling => Upgrading
         case _ => Pumping)
    case Join => Unsubscribing
    case Unsubscribe => Finished
    case _ => s.main
  }

  function NewHellos(s: State, e: Event): seq<Hello> {
    match e
    case Handshake(ok) =>
      (match s.main
       case Connecting => [AuthConnect(ok)]
       case CheckingSubscribe => [AuthSubscribe(s.topic, ok)]
       case Subscribing => [Subscribe(s.topic, ok)]
       case _ => [])
    case _ => []
  }

  /** Does step e start the pumps? */
  predicate Starts(s: State, e: Event) {
    e == Handshake(true) && s.main.Upgrading?
  }

  function NextUp(s: State, e: Event): UpPump
    requires Enabled(s, e)
  {
    var p := s.up;
    match e
    case Handshake(_) => if Starts(s, e) then p.(pc := Reading) else p
    case ReadOk(Up, f) => p.(got := p.got + [f], pc := AuthPublishing(f))
    case ReadFail(Up, cause) => p.(pc := SayingClose(StreamErr(cause, Up)))
    case AuthPublished(ok, topic, payload) =>
      p.(auths := p.auths + [PubCall(p.topic, p.pc.f.payload, topic, payload, ok)],
         topic := topic, pc := if ok then Publishing(p.pc.f.(payload := payload)) else SayingClose(Some(REFUSED)))
    case Published(ok, topic, payload) =>
      p.(pubs := p.pubs + [PubCall(p.topic, p.pc.f.payload, topic, payload, ok)],
         topic := topic, pc := if ok then Writing(p.pc.f.(payload := payload)) else SayingClose(Some(REFUSED)))
    case Write(Up, ok) =>
      if ok then p.(forwarded := p.forwarded + [p.pc.f], pc := Reading)
      else p.(pc := SayingClose(Some(Other("write"))))
    case SayClose(Up) => p.(pc := Closing(p.pc.err))
    case Close(Up, _) => p.(pc := Returned)
    case _ => p
  }

  function NextDown(s: State, e: Event): DownPump
    requires Enabled(s, e)
  {
    var p := s.down;
    match e
    case Handshake(_) => if Starts(s, e) then p.(pc := Reading) else p
    case ReadOk(Down, f) => p.(got := p.got + [f], pc := AuthSubscribing(f))
    case ReadFail(Down, cause) => p.(pc := SayingClose(StreamErr(cause, Down)))
    case AuthSubscribed(ok) =>
      p.(checks := p.checks + [(s.topic, ok)], pc := if ok then Writing(p.pc.f) else SayingClose(Some(REFUSED)))
    case Write(Down, ok) =>
      if ok then p.(forwarded := p.forwarded + [p.pc.f], pc := Reading)
      else p.(pc := SayingClose(Some(Other("write"))))
    case SayClose(Down) => p.(pc := Closing(p.pc.err))
    case Close(Down, _) => p.(pc := Returned)
    case _ => p
  }

  function Apply(s: State, e: Event): State
    requires Enabled(s, e)
  {
    // A pump that returns an error cancels the group's context, and so does the join.
    var err := if e.Close? then s.Pc(e.d).err else None;
    var upCloses, downCloses := e.Close? && e.d == Up, e.Close? && e.d == Down;
    State(
      NextMain(s, e), s.topic, s.hellos + NewHellos(s, e), NextUp(s, e), NextDown(s, e),
      (s.targetOpen || (e == Handshake(true) && s.main.Dialling?)) && !upCloses
      && !(e == Handshake(false) && s.main.Upgrading?),
      (s.inOpen || Starts(s, e)) && !downCloses,
      // The websocket may have buffered frames when it is closed.
      if downCloses then e.left else s.upLeft - (if e.ReadOk? && e.d == Up && !s.inOpen then 1 else 0),
      if upCloses then e.left else s.downLeft - (if e.ReadOk? && e.d == Down && !s.targetOpen then 1 else 0),
      s.cancelled || err.Some? || e.Join?,
      if s.firstErr.Some? then s.firstErr else err,
      s.unsubscribes + if e.Unsubscribe? then 1 else 0)
  }

  function Exec(s: State, es: seq<Event>): Option<State> {
    if es == [] then Some(s)
    else
      var r := Exec(s, es[..|es| - 1]);
      if r.Some? && Enabled(r.value, es[|es| - 1]) then Some(Apply(r.value, es[|es| - 1])) else None
  }

  /** A run followed by a run. */
  lemma {:induction false} ExecConcat(s: State, es: seq<Event>, fs: seq<Event>)
    requires Exec(s, es).Some?
    ensures Exec(s, es + fs) == Exec(Exec(s, es).value, fs)
  {
    if fs == [] {
      assert es + fs == es;
    } else {
      ExecConcat(s, es, fs[..|fs| - 1]);
      assert (es + fs)[..|es + fs| - 1] == es + fs[..|fs| - 1];
    }
  }

  ghost predicate Reachable(topic: string, s: State) {
    exists es :: Exec(Init(topic), es) == Some(s)
  }

  // ---------- Invariants ----------

  /** The topic message number i starts with: the initial one after the rewrites of the
      messages before it. */
  function TopicBefore(topic: string, pubs: seq<PubCall>, i: nat): string
    requires i <= |pubs|
  {
    if i == 0 then topic else pubs[i - 1].topicLeft
  }

  /** Call number i of AuthPublish was about message number i. */
  predicate AuthRight(topic: string, p: UpPump, i: nat) {
    && i < |p.auths| && i < |p.got| && i <= |p.pubs|
    && p.auths[i].topic == TopicBefore(topic, p.pubs, i) && p.auths[i].payload == p.got[i].payload
  }

  /** Call number i of Publish was given what an accepting AuthPublish had left. */
  predicate PubRight(p: UpPump, i: nat) {
    && i < |p.pubs| && i < |p.auths|
    && p.auths[i].ok && p.pubs[i].topic == p.auths[i].topicLeft && p.pubs[i].payload == p.auths[i].payloadLeft
  }

  /** Message number i was forwarded as an accepting Publish had left it. */
  predicate ForwardRight(p: UpPump, i: nat) {
    && i < |p.forwarded| && i < |p.pubs| && i < |p.got|
    && p.pubs[i].ok && p.forwarded[i] == Frame(p.got[i].kind, p.pubs[i].payloadLeft)
  }

  predicate UpInv(topic: string, p: UpPump) {
    && |p.forwarded| <= |p.pubs| <= |p.auths| <= |p.got| <= |p.forwarded| + 1
    && (forall i :: 0 <= i < |p.auths| ==> AuthRight(topic, p, i))
    && (forall i :: 0 <= i < |p.pubs| ==> PubRight(p, i))
    && (forall i :: 0 <= i < |p.forwarded| ==> ForwardRight(p, i))
    && (match p.pc
        case Idle => |p.got| == 0 && p.topic == topic
        case Reading => |p.got| == |p.forwarded| && p.topic == TopicBefore(topic, p.pubs, |p.pubs|)
        case AuthPublishing(f) =>
          |p.got| == |p.auths| + 1 && |p.auths| == |p.pubs| == |p.forwarded|
          && f == p.got[|p.auths|] && p.topic == TopicBefore(topic, p.pubs, |p.pubs|)
        case Publishing(f) =>
          |p.auths| == |p.got| == |p.pubs| + 1 && |p.pubs| == |p.forwarded|
          && p.auths[|p.pubs|].ok && p.topic == p.auths[|p.pubs|].topicLeft
          && f == Frame(p.got[|p.pubs|].kind, p.auths[|p.pubs|].payloadLeft)
        case Writing(f) =>
          |p.pubs| == |p.got| == |p.forwarded| + 1 && p.topic == p.pubs[|p.forwarded|].topicLeft
          && p.pubs[|p.forwarded|].ok && f == Frame(p.got[|p.forwarded|].kind, p.pubs[|p.forwarded|].payloadLeft)
        case AuthSubscribing(_) => false
        case _ => true)
  }

  predicate DownInv(topic: string, p: DownPump) {
    && p.forwarded <= p.got && |p.forwarded| <= |p.checks| <= |p.got| <= |p.forwarded| + 1
    && (forall i :: 0 <= i < |p.checks| ==> p.checks[i].0 == topic)
    && (forall i :: 0 <= i < |p.forwarded| ==> p.checks[i].1)
    && (match p.pc
        case Idle => |p.got| == 0
        case Reading => |p.got| == |p.forwarded|
        case AuthSubscribing(f) => p.got == p.forwarded + [f] && |p.checks| == |p.forwarded|
        case Writing(f) => p.got == p.forwarded + [f] && |p.checks| == |p.got| && p.checks[|p.forwarded|].1
        case AuthPublishing(_) => false
        case Publishing(_) => false
        case _ => true)
  }

  predicate LifeInv(s: State) {
    && (s.up.pc.Idle? <==> s.down.pc.Idle?)
    && (s.main.Pumping? ==> !s.up.pc.Idle?)
    && (s.main.Unsubscribing? ==> s.up.pc.Returned? && s.down.pc.Returned? && s.cancelled)
    && (s.main.Finished? ==> s.up.pc.Idle? || (s.up.pc.Returned? && s.down.pc.Returned? && s.cancelled))
    && (s.main.Pumping? || s.main.Unsubscribing? || s.main.Finished? || s.up.pc.Idle?)
    && s.unsubscribes == (if s.main.Finished? && !s.up.pc.Idle? then 1 else 0)
    && (s.up.pc.Idle? ==> !s.inOpen && (s.targetOpen <==> s.main.Upgrading?))
    && (!s.up.pc.Idle? ==> (s.targetOpen <==> !s.up.pc.Returned?) && (s.inOpen <==> !s.down.pc.Returned?))
  }

  predicate Inv(topic: string, s: State) {
    s.topic == topic && UpInv(topic, s.up) && DownInv(topic, s.down) && LifeInv(s)
  }

  lemma LogsGrow(topic: string, p: UpPump, q: UpPump)
    requires p.got <= q.got && p.auths <= q.auths && p.pubs <= q.pubs && p.forwarded <= q.forwarded
    ensures forall i: nat :: AuthRight(topic, p, i) ==> AuthRight(topic, q, i)
    ensures forall i: nat :: PubRight(p, i) ==> PubRight(q, i)
    ensures forall i: nat :: ForwardRight(p, i) ==> ForwardRight(q, i)
  {
  }

  lemma AuthPublishedStep(topic: string, s: State, e: Event)
    requires UpInv(topic, s.up) && Enabled(s, e) && e.AuthPublished?
    ensures UpInv(topic, NextUp(s, e))
  {
    LogsGrow(topic, s.up, NextUp(s, e));
  }

  lemma PublishedStep(topic: string, s: State, e: Event)
    requires UpInv(topic, s.up) && Enabled(s, e) && e.Published?
    ensures UpInv(topic, NextUp(s, e))
  {
    LogsGrow(topic, s.up, NextUp(s, e));
  }

  lemma ForwardedStep(topic: string, s: State, e: Event)
    requires UpInv(topic, s.up) && Enabled(s, e) && e == Write(Up, true)
    ensures UpInv(topic, NextUp(s, e))
  {
    LogsGrow(topic, s.up, NextUp(s, e));
  }

  lemma QuietUpStep(topic: string, s: State, e: Event)
    requires UpInv(topic, s.up) && Enabled(s, e) && !e.AuthPublished? && !e.Published? && e != Write(Up, true)
    requires Starts(s, e) ==> s.up.pc.Idle?
    ensures UpInv(topic, NextUp(s, e))
  {
    LogsGrow(topic, s.up, NextUp(s, e));
  }

  lemma UpStep(topic: string, s: State, e: Event)
    requires UpInv(topic, s.up) && Enabled(s, e) && (Starts(s, e) ==> s.up.pc.Idle?)
    ensures UpInv(topic, NextUp(s, e))
  {
    if e.AuthPublished? {
      AuthPublishedStep(topic, s, e);
    } else if e.Published? {
      PublishedStep(topic, s, e);
    } else if e == Write(Up, true) {
      ForwardedStep(topic, s, e);
    } else {
      QuietUpStep(topic, s, e);
    }
  }

  lemma DownStep(topic: string, s: State, e: Event)
    requires DownInv(topic, s.down) && Enabled(s, e) && s.topic == topic && (Starts(s, e) ==> s.down.pc.Idle?)
    ensures DownInv(topic, NextDown(s, e))
  {
  }

  lemma LifeStep(s: State, e: Event)
    requires LifeInv(s) && Enabled(s, e)
    ensures LifeInv(Apply(s, e))
  {
  }

  lemma InvStep(topic: string, s: State, e: Event)
    requires Inv(topic, s) && Enabled(s, e)
    ensures Inv(topic, Apply(s, e))
  {
    UpStep(topic, s, e);
    DownStep(topic, s, e);
    LifeStep(s, e);
  }

  lemma {:induction false} InvAlong(topic: string, s: State, es: seq<Event>)
    requires Inv(topic, s) && Exec(s, es).Some?
    ensures Inv(topic, Exec(s, es).value)
  {
    if es != [] {
      InvAlong(topic, s, es[..|es| - 1]);
      InvStep(topic, Exec(s, es[..|es| - 1]).value, es[|es| - 1]);
    }
  }

  lemma InvReachable(topic: string, s: State)
    requires Reachable(topic, s)
    ensures Inv(topic, s)
  {
    var es :| Exec(Init(topic), es) == Some(s);
    InvAlong(topic, Init(topic), es);
  }

  // ---------- Theorems ----------

  /** Unsubscribe is called exactly once by a session that started its pumps and never by
      one that did not; by then both pumps have returned, both connections are closed, and
      the context it is given has been cancelled. */
  lemma UnsubscribedOnce(topic: string, s: State)
    requires Reachable(topic, s)
    ensures s.unsubscribes <= 1
    ensures s.main.Finished? ==> (s.unsubscribes == 1 <==> !s.up.pc.Idle?)
    ensures s.unsubscribes == 1 || s.main.Unsubscribing? ==>
              s.up.pc.Returned? && s.down.pc.Returned? && !s.inOpen && !s.targetOpen && s.cancelled
    ensures s.main.Finished? ==> !s.inOpen && !s.targetOpen
  {
    InvReachable(topic, s);
  }

  function Rank(pc: Pc): nat {
    match pc
    case Idle => 0
    case Returned => 0
    case Closing(_) => 1
    case SayingClose(_) => 2
    case Reading => 3
    case Writing(_) => 4
    case AuthSubscribing(_) => 5
    case Publishing(_) => 5
    case AuthPublishing(_) => 6
  }

  function MainRank(m: Main): nat {
    match m
    case Pumping => 2
    case Unsubscribing => 1
    case _ => 0
  }

  /** The frames a running pump can still get from a source that was closed. */
  function Buffered(s: State): nat {
    (if s.up.pc.Returned? then 0 else s.upLeft) + if s.down.pc.Returned? then 0 else s.downLeft
  }

  /** A pass over a buffered frame takes less than seven steps. */
  function StepsLeft(s: State): nat {
    Rank(s.up.pc) + Rank(s.down.pc) + MainRank(s.main) + 7 * Buffered(s)
  }

  lemma StepsLeftFall(topic: string, s: State, e: Event)
    requires Inv(topic, s) && Enabled(s, e)
    requires s.up.pc.Returned? || s.down.pc.Returned?
    ensures var t := Apply(s, e);
            StepsLeft(t) < StepsLeft(s) && (t.up.pc.Returned? || t.down.pc.Returned?)
  {
  }

  /** Once one pump has returned the whole session ends: the other pump handles at most the
      frames its closed source had buffered, and no more than eight steps follow besides. */
  lemma {:induction false} OneEndsBoth(topic: string, s: State, es: seq<Event>)
    requires Inv(topic, s) && Exec(s, es).Some?
    requires s.up.pc.Returned? || s.down.pc.Returned?
    ensures var t := Exec(s, es).value;
            && Inv(topic, t) && (t.up.pc.Returned? || t.down.pc.Returned?)
            && |es| + StepsLeft(t) <= StepsLeft(s) <= 8 + 7 * Buffered(s)
  {
    if es != [] {
      OneEndsBoth(topic, s, es[..|es| - 1]);
      InvStep(topic, Exec(s, es[..|es| - 1]).value, es[|es| - 1]);
      StepsLeftFall(topic, Exec(s, es[..|es| - 1]).value, es[|es| - 1]);
    }
  }

  function PumpChoice(d: Direction, pc: Pc): Event
    requires !pc.Idle? && !pc.Returned?
  {
    match pc
    case Reading => ReadFail(d, NetClosed)
    case AuthPublishing(f) => AuthPublished(true, "", f.payload)
    case Publishing(f) => Published(true, "", f.payload)
    case AuthSubscribing(_) => AuthSubscribed(true)
    case Writing(_) => Write(d, false)
    case SayingClose(_) => SayClose(d)
    case Closing(_) => Close(d, 0)
  }

  /** Nothing ever blocks: a session that cannot take a step has finished, so the join is
      always reached. */
  lemma StuckExactlyWhen(topic: string, s: State)
    requires Reachable(topic, s)
    ensures (forall e :: !Enabled(s, e)) <==> s.main.Finished?
  {
    InvReachable(topic, s);
    if forall e :: !Enabled(s, e) {
      assert !Enabled(s, Handshake(true)) && !Enabled(s, Unsubscribe) && !Enabled(s, Join);
      if s.main.Pumping? {
        if !s.up.pc.Returned? {
          assert Enabled(s, PumpChoice(Up, s.up.pc));
        } else {
          assert Enabled(s, PumpChoice(Down, s.down.pc));
        }
      }
    }
  }

  /** Upstream: message number i is forwarded with its kind and with the payload left by its
      own AuthPublish and Publish, if both accepted it; it started with the topic left by the
      messages before it. */
  lemma UpstreamMessages(topic: string, s: State, i: nat)
    requires Reachable(topic, s)
    ensures |s.up.forwarded| <= |s.up.pubs| <= |s.up.auths| <= |s.up.got| <= |s.up.forwarded| + 1
    ensures i < |s.up.auths| ==> AuthRight(topic, s.up, i)
    ensures i < |s.up.forwarded| ==> PubRight(s.up, i) && ForwardRight(s.up, i)
  {
    InvReachable(topic, s);
  }

  /** Downstream: the client gets the server's messages unchanged and in order, each after
      an accepted check against the initial topic. */
  lemma DownstreamMessages(topic: string, s: State)
    requires Reachable(topic, s)
    ensures s.down.forwarded <= s.down.got && |s.down.forwarded| <= |s.down.checks|
    ensures forall i :: 0 <= i < |s.down.checks| ==> s.down.checks[i].0 == topic
    ensures forall i :: 0 <= i < |s.down.forwarded| ==> s.down.checks[i].1
  {
    InvReachable(topic, s);
  }
}
