/**
 The MQTT session engine of pkg/session/stream.go as a transition system.

 `Stream` starts two pumps that share one session and one two-slot error
 channel, takes one error from the channel, calls Disconnect and returns; its
 caller then closes the broker connection and the client connection. An `Event`
 is one atomic step of one of these three threads, and carries whatever the
 outside world answered: the packet read, what an interceptor returned, what a
 hook decided and what it left in the arguments it was given by reference.
 Everything the engine passes to the outside world is kept in logs.
*/
module SessionStream {
  import opened Results

  type Bytes = seq<bv8>

  datatype Direction = Up | Down

  /** A control packet; `rest` stands for all the fields mGate never looks at. */
  datatype Packet =
    | ConnectPacket(id: string, username: string, password: Bytes, rest: Bytes)
    | PublishPacket(topic: string, payload: Bytes, rest: Bytes)
    | SubscribePacket(topics: seq<string>, rest: Bytes)
    | UnsubscribePacket(topics: seq<string>, rest: Bytes)
    | DisconnectPacket(rest: Bytes)
    | OtherPacket(rest: Bytes)

  /** The packet the Down pump makes up for a client that may not receive a message. */
  const NEW_DISCONNECT := DisconnectPacket([])

  datatype Session = Session(id: string, username: string, password: Bytes)

  datatype Cause = Eof | Fault(text: string) | Joined(first: Cause, second: Cause)

  datatype Wording = ErrBroker | ErrClient

  datatype Error = Plain(cause: Cause) | Proxied(wording: Wording, id: string, cause: Cause)

  datatype Verdict = Accept | Refuse(cause: Cause)

  /** Which of the two optional interceptors are installed. */
  datatype Config = Config(pre: bool, post: bool)

  /** No interceptors. */
  const PLAIN := Config(false, false)

  /** A call to an authorization hook, with its arguments before and after the call. */
  datatype AuthCall =
    | AuthConnect(before: Session, after: Session)
    | AuthPublish(topic: string, payload: Bytes, topicLeft: string, payloadLeft: Bytes)
    | AuthSubscribe(topics: seq<string>, topicsLeft: seq<string>)

  datatype NoteCall =
    | Connect
    | Publish(topic: string, payload: Bytes)
    | Subscribe(topics: seq<string>)
    | Unsubscribe(topics: seq<string>)

  /** An entry of the log of handler calls, in the order in which they happened. */
  datatype HookCall =
    | Auth(d: Direction, auth: AuthCall, verdict: Verdict)
    | Note(note: NoteCall, verdict: Verdict)
    | Disconnect(verdict: Verdict)

  datatype Pc =
    | Reading
    | PreIntercept(p: Packet)
    | Gate(p: Packet)          // about to authorize
    | AskConnect(p: Packet)    // session filled in from p, AuthConnect not called yet
    | CopyBack(p: Packet)      // AuthConnect accepted, p not updated yet
    | PostIntercept(p: Packet)
    | Writing(p: Packet)
    | Notifying(p: Packet)
    | Refusing(cause: Cause)   // Down only: about to write NEW_DISCONNECT
    | Sending(err: Error, last: bool)
    | Done

  /** A pump: where it is, and the log of every packet that crossed each of its stages. */
  datatype Pump = Pump(
    pc: Pc,
    recv: seq<Packet>,
    preIn: seq<Packet>, preOut: seq<Packet>,
    gateIn: seq<Packet>, asked: seq<Option<AuthCall>>, gateOut: seq<Packet>,
    postIn: seq<Packet>, postOut: seq<Packet>,
    sent: seq<Packet>)
  {
    function PreResults(cfg: Config): seq<Packet> { if cfg.pre then preOut else recv }

    function PostResults(cfg: Config): seq<Packet> { if cfg.post then postOut else gateOut }
  }

  const IDLE_PUMP := Pump(Reading, [], [], [], [], [], [], [], [], [])

  datatype StreamPc = Receiving | Disconnecting(err: Error) | Returned(err: Error, disconnect: Verdict)

  datatype State = State(
    up: Pump, down: Pump,
    session: Session,
    chan: seq<Error>,        // content of errs
    errors: seq<Error>,      // every error ever put into errs
    stream: StreamPc,
    outClosed: bool, inClosed: bool,
    hooks: seq<HookCall>)
  {
    function Of(d: Direction): Pump { if d == Up then up else down }

    /** Has the connection pump d writes to been closed? */
    predicate SinkClosed(d: Direction) { if d == Up then outClosed else inClosed }
  }

  const CHAN_SIZE := 2

  const INIT := State(IDLE_PUMP, IDLE_PUMP, Session("", "", []), [], [], Receiving, false, false, [])

  /** `session` is what the session holds when the call returns: every hook and
      interceptor gets a context that points to it. */
  datatype Event =
    | ReadOk(d: Direction, p: Packet)
    | ReadFail(d: Direction, cause: Cause)
    | Intercepted(d: Direction, p: Packet, session: Session)
    | InterceptFail(d: Direction, cause: Cause, session: Session)
    | StoreSession
    | ConnectAnswer(verdict: Verdict, session: Session)
    | CopySession
    | PublishAnswer(verdict: Verdict, topic: string, payload: Bytes, session: Session)
    | SubscribeAnswer(d: Direction, verdict: Verdict, topics: seq<string>, session: Session)
    | NoHook(d: Direction)
    | WriteOk(d: Direction)
    | WriteFail(d: Direction, cause: Cause)
    | NoteAnswer(verdict: Verdict, session: Session)
    | NoNote
    | Send(d: Direction)
    | Receive
    | DisconnectAnswer(verdict: Verdict, session: Session)
    | CloseOut
    | CloseIn

  /** `wrap`: end of file passes unchanged, anything else gets the session's id. */
  function Wrap(cause: Cause, id: string, d: Direction): Error {
    if cause == Eof then Plain(Eof)
    else if d == Up then Proxied(ErrClient, id, cause)
    else Proxied(ErrBroker, id, cause)
  }

  /** The argument the notification hook for p gets, if p has one. */
  function NoteFor(p: Packet): Option<NoteCall> {
    match p
    case ConnectPacket(_, _, _, _) => Some(Connect)
    case PublishPacket(topic, payload, _) => Some(Publish(topic, payload))
    case SubscribePacket(topics, _) => Some(Subscribe(topics))
    case UnsubscribePacket(topics, _) => Some(Unsubscribe(topics))
    case DisconnectPacket(_) => None
    case OtherPacket(_) => None
  }

  function Credentials(p: Packet): Session
    requires p.ConnectPacket?
  {
    Session(p.id, p.username, p.password)
  }

  /** Does pump d ask a hook before it lets p through? */
  predicate Guarded(d: Direction, p: Packet) {
    match d
    case Up => p.ConnectPacket? || p.PublishPacket? || p.SubscribePacket?
    case Down => p.PublishPacket?
  }

  /** The pump that takes step e; the other steps belong to `Stream` and its caller. */
  function Actor(e: Event): Option<Direction> {
    match e
    case ReadOk(d, _) => Some(d)
    case ReadFail(d, _) => Some(d)
    case Intercepted(d, _, _) => Some(d)
    case InterceptFail(d, _, _) => Some(d)
    case StoreSession => Some(Up)
    case ConnectAnswer(_, _) => Some(Up)
    case CopySession => Some(Up)
    case PublishAnswer(_, _, _, _) => Some(Up)
    case SubscribeAnswer(d, _, _, _) => Some(d)
    case NoHook(d) => Some(d)
    case WriteOk(d) => Some(d)
    case WriteFail(d, _) => Some(d)
    case NoteAnswer(_, _) => Some(Up)
    case NoNote => Some(Up)
    case Send(d) => Some(d)
    case Receive => None
    case DisconnectAnswer(_, _) => None
    case CloseOut => None
    case CloseIn => None
  }

  /** Is e what pump d does next when its program counter is pc? */
  predicate Ready(d: Direction, pc: Pc, e: Event)
    requires Actor(e) == Some(d)
  {
    match e
    case ReadOk(_, _) => pc.Reading?
    case ReadFail(_, _) => pc.Reading?
    case Intercepted(_, _, _) => pc.PreIntercept? || pc.PostIntercept?
    case InterceptFail(_, _, _) => pc.PreIntercept? || pc.PostIntercept?
    case StoreSession => pc.Gate? && pc.p.ConnectPacket?
    case ConnectAnswer(_, _) => pc.AskConnect?
    case CopySession => pc.CopyBack? && pc.p.ConnectPacket?
    case PublishAnswer(_, _, _, _) => pc.Gate? && pc.p.PublishPacket?
    case SubscribeAnswer(_, _, _, _) => pc.Gate? && if d == Up then pc.p.SubscribePacket? else pc.p.PublishPacket?
    case NoHook(_) => pc.Gate? && !Guarded(d, pc.p)
    case WriteOk(_) => pc.Writing? || pc.Refusing?
    case WriteFail(_, _) => pc.Writing? || pc.Refusing?
    case NoteAnswer(_, _) => pc.Notifying? && NoteFor(pc.p).Some?
    case NoNote => pc.Notifying? && NoteFor(pc.p).None?
    case Send(_) => pc.Sending?
  }

  /** Nothing can be written to a closed connection; what it has buffered may still be read. */
  predicate Enabled(s: State, e: Event) {
    match Actor(e)
    case Some(d) =>
      && Ready(d, s.Of(d).pc, e)
      && (e.WriteOk? ==> !s.SinkClosed(d))
      && (e.Send? ==> |s.chan| < CHAN_SIZE)
    case None =>
      && (e.Receive? ==> s.stream.Receiving? && |s.chan| > 0)
      && (e.DisconnectAnswer? ==> s.stream.Disconnecting?)
      && (e.CloseOut? ==> s.stream.Returned? && !s.outClosed)
      && (e.CloseIn? ==> s.stream.Returned? && s.outClosed && !s.inClosed)
  }

  /** `errs <- wrap(ctx, err, dir); return`: the pump is about to send its last error. */
  function Stop(d: Direction, p: Pump, cause: Cause, session: Session): Pump {
    p.(pc := Sending(Wrap(cause, session.id, d), true))
  }

  /** Packet x has passed the hooks and enters the second half of the pass. */
  function Pass(cfg: Config, p: Pump, x: Packet): Pump {
    p.(gateOut := p.gateOut + [x], pc := if cfg.post then PostIntercept(x) else Writing(x))
  }

  /** The hook asked about packet x through `call` answers; y is x as the hook left it. */
  function Answered(
    cfg: Config, d: Direction, p: Pump, x: Packet,
    call: AuthCall, verdict: Verdict, y: Packet, session: Session): Pump
  {
    var q := p.(gateIn := p.gateIn + [x]);
    match verdict
    case Accept => Pass(cfg, q.(asked := q.asked + [Some(call)]), y)
    case Refuse(cause) => if d == Up then Stop(d, q, cause, session) else q.(pc := Refusing(cause))
  }

  /** The call e answers, for steps that answer an authorization hook. */
  function AuthOf(d: Direction, pc: Pc, e: Event, session: Session): (call: Option<AuthCall>)
    requires Actor(e) == Some(d) && Ready(d, pc, e)
    ensures call.Some? <==> e.ConnectAnswer? || e.PublishAnswer? || e.SubscribeAnswer?
  {
    match e
    case ConnectAnswer(_, after) => Some(AuthConnect(session, after))
    case PublishAnswer(_, topic, payload, _) => Some(AuthPublish(pc.p.topic, pc.p.payload, topic, payload))
    case SubscribeAnswer(_, _, topics, _) =>
      // The Down pump hands the hook a list of its own.
      Some(AuthSubscribe(if d == Up then pc.p.topics else [pc.p.topic], topics))
    case _ => None
  }

  /** Pump d after its step e; the session is `before` when the step begins and `after` when it ends. */
  function NextPump(cfg: Config, d: Direction, p: Pump, e: Event, before: Session, after: Session): Pump
    requires Actor(e) == Some(d) && Ready(d, p.pc, e)
  {
    match e
    case ReadOk(_, x) => p.(recv := p.recv + [x], pc := if cfg.pre then PreIntercept(x) else Gate(x))
    case ReadFail(_, cause) => Stop(d, p, cause, after)
    case Intercepted(_, y, _) =>
      if p.pc.PreIntercept? then p.(preIn := p.preIn + [p.pc.p], preOut := p.preOut + [y], pc := Gate(y))
      else p.(postIn := p.postIn + [p.pc.p], postOut := p.postOut + [y], pc := Writing(y))
    case InterceptFail(_, cause, _) =>
      if p.pc.PreIntercept? then Stop(d, p.(preIn := p.preIn + [p.pc.p]), cause, after)
      else Stop(d, p.(postIn := p.postIn + [p.pc.p]), cause, after)
    case StoreSession => p.(gateIn := p.gateIn + [p.pc.p], pc := AskConnect(p.pc.p))
    case ConnectAnswer(Accept, _) =>
      p.(asked := p.asked + [AuthOf(d, p.pc, e, before)], pc := CopyBack(p.pc.p))
    case ConnectAnswer(Refuse(cause), _) => Stop(d, p, cause, after)
    case CopySession =>
      Pass(cfg, p, p.pc.p.(id := before.id, username := before.username, password := before.password))
    case PublishAnswer(verdict, topic, payload, _) =>
      Answered(cfg, d, p, p.pc.p, AuthOf(d, p.pc, e, before).value, verdict,
               p.pc.p.(topic := topic, payload := payload), after)
    case SubscribeAnswer(_, verdict, topics, _) =>
      Answered(cfg, d, p, p.pc.p, AuthOf(d, p.pc, e, before).value, verdict,
               if d == Up then p.pc.p.(topics := topics) else p.pc.p, after)
    case NoHook(_) => Pass(cfg, p.(gateIn := p.gateIn + [p.pc.p], asked := p.asked + [None]), p.pc.p)
    case WriteOk(_) =>
      if p.pc.Refusing? then Stop(d, p.(sent := p.sent + [NEW_DISCONNECT]), p.pc.cause, after)
      else p.(sent := p.sent + [p.pc.p], pc := if d == Up then Notifying(p.pc.p) else Reading)
    case WriteFail(_, cause) =>
      Stop(d, p, if p.pc.Refusing? then Joined(p.pc.cause, cause) else cause, after)
    case NoteAnswer(Accept, _) => p.(pc := Reading)
    // After a failed notification the error is sent, but the pump goes on.
    case NoteAnswer(Refuse(cause), _) => p.(pc := Sending(Wrap(cause, after.id, d), false))
    case NoNote => p.(pc := Reading)
    case Send(_) => p.(pc := if p.pc.last then Done else Reading)
  }

  /** The session after step e. */
  function NextSession(s: State, e: Event): Session
    requires Enabled(s, e)
  {
    match e
    case Intercepted(_, _, session) => session
    case InterceptFail(_, _, session) => session
    case StoreSession => Credentials(s.up.pc.p)
    case ConnectAnswer(_, session) => session
    case PublishAnswer(_, _, _, session) => session
    case SubscribeAnswer(_, _, _, session) => session
    case NoteAnswer(_, session) => session
    case DisconnectAnswer(_, session) => session
    case _ => s.session
  }

  /** What step e adds to the hook log. */
  function NewCalls(s: State, e: Event): (calls: seq<HookCall>)
    requires Enabled(s, e)
  {
    match e
    case ConnectAnswer(verdict, _) => [Auth(Up, AuthOf(Up, s.up.pc, e, s.session).value, verdict)]
    case PublishAnswer(verdict, _, _, _) => [Auth(Up, AuthOf(Up, s.up.pc, e, s.session).value, verdict)]
    case SubscribeAnswer(d, verdict, _, _) => [Auth(d, AuthOf(d, s.Of(d).pc, e, s.session).value, verdict)]
    case NoteAnswer(verdict, _) => [Note(NoteFor(s.up.pc.p).value, verdict)]
    case DisconnectAnswer(verdict, _) => [Disconnect(verdict)]
    case _ => []
  }

  function Apply(cfg: Config, s: State, e: Event): State
    requires Enabled(s, e)
  {
    var session := NextSession(s, e);
    var hooks := s.hooks + NewCalls(s, e);
    match Actor(e)
    case Some(d) =>
      var p := NextPump(cfg, d, s.Of(d), e, s.session, session);
      var news := if e.Send? then [s.Of(d).pc.err] else [];
      s.(up := if d == Up then p else s.up, down := if d == Down then p else s.down,
         session := session, hooks := hooks, chan := s.chan + news, errors := s.errors + news)
    case None =>
      (match e
       case Receive => s.(stream := Disconnecting(s.chan[0]), chan := s.chan[1..])
       case DisconnectAnswer(verdict, _) =>
         s.(stream := Returned(s.stream.err, verdict), session := session, hooks := hooks)
       case CloseOut => s.(outClosed := true)
       case CloseIn => s.(inClosed := true))
  }

  /** The state after the steps es from s, or None if es is not a possible run from s. */
  function Exec(cfg: Config, s: State, es: seq<Event>): Option<State> {
    if es == [] then Some(s)
    else
      var r := Exec(cfg, s, es[..|es| - 1]);
      if r.Some? && Enabled(r.value, es[|es| - 1]) then Some(Apply(cfg, r.value, es[|es| - 1])) else None
  }

  /** State t can follow state s. */
  ghost predicate Reaches(cfg: Config, s: State, t: State) {
    exists es :: Exec(cfg, s, es) == Some(t)
  }

  ghost predicate Reachable(cfg: Config, s: State) {
    Reaches(cfg, INIT, s)
  }

  lemma ExecExtend(cfg: Config, s: State, es: seq<Event>, e: Event)
    requires Exec(cfg, s, es).Some? && Enabled(Exec(cfg, s, es).value, e)
    ensures Exec(cfg, s, es + [e]) == Some(Apply(cfg, Exec(cfg, s, es).value, e))
  {
    assert (es + [e])[..|es|] == es;
  }

  lemma Extend(cfg: Config, s: State, e: Event) returns (t: State)
    requires Reachable(cfg, s) && Enabled(s, e)
    ensures t == Apply(cfg, s, e) && Reachable(cfg, t)
  {
    t := Apply(cfg, s, e);
    var es :| Exec(cfg, INIT, es) == Some(s);
    ExecExtend(cfg, INIT, es, e);
    assert Exec(cfg, INIT, es + [e]) == Some(t);
  }

  /** A run is its first step and the run from there. */
  lemma {:induction false} ExecCons(cfg: Config, s: State, e: Event, es: seq<Event>)
    requires Enabled(s, e)
    ensures Exec(cfg, s, [e] + es) == Exec(cfg, Apply(cfg, s, e), es)
  {
    if es == [] {
      assert [e] + es == [] + [e];
      ExecExtend(cfg, s, [], e);
    } else {
      var pre := es[..|es| - 1];
      ExecCons(cfg, s, e, pre);
      assert ([e] + es)[..|[e] + es| - 1] == [e] + pre;
    }
  }

  /** A run followed by a run. */
  lemma {:induction false} ExecConcat(cfg: Config, s: State, es: seq<Event>, fs: seq<Event>)
    requires Exec(cfg, s, es).Some?
    ensures Exec(cfg, s, es + fs) == Exec(cfg, Exec(cfg, s, es).value, fs)
  {
    if fs == [] {
      assert es + fs == es;
    } else {
      ExecConcat(cfg, s, es, fs[..|fs| - 1]);
      assert (es + fs)[..|es + fs| - 1] == es + fs[..|fs| - 1];
    }
  }

  /** Pump d is sending on a full channel that nobody will ever empty again. */
  predicate Blocked(s: State, d: Direction) {
    s.Of(d).pc.Sending? && |s.chan| == CHAN_SIZE && !s.stream.Receiving?
  }

  /** How many notification hooks have failed so far. */
  function NoteFailures(hooks: seq<HookCall>): nat {
    if hooks == [] then 0
    else
      var h := hooks[|hooks| - 1];
      NoteFailures(hooks[..|hooks| - 1]) + if h.Note? && h.verdict.Refuse? then 1 else 0
  }
}
