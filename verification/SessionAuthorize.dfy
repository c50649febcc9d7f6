/**
 `authorize` of pkg/session/stream.go on the objects it works on: a session and a
 packet that are updated in place. The method is proved against `Authorized`, and
 `AuthorizeIsTheGate` ties that function to the steps the Up pump takes when no
 other thread steps in between.
*/
module SessionAuthorize {
  import opened Results
  import opened SessionStream

  /** The authorization hooks: what they decide, and what they leave in their arguments and in
      the session, which they can reach through their context. */
  datatype Handler = Handler(
    connect: Session -> (Verdict, Session),
    publish: (Session, string, Bytes) -> (Verdict, string, Bytes, Session),
    subscribe: (Session, seq<string>) -> (Verdict, seq<string>, Session))

  class SessionRecord {
    var ID: string
    var Username: string
    var Password: Bytes

    constructor ()
      ensures Value() == INIT.session
    {
      ID, Username, Password := "", "", [];
    }

    function Value(): Session
      reads this
    {
      Session(ID, Username, Password)
    }

    method Set(s: Session)
      modifies this
      ensures Value() == s
    {
      ID := s.id;
      Username := s.username;
      Password := s.password;
    }
  }

  class PacketRecord {
    var packet: Packet

    constructor (p: Packet)
      ensures packet == p
    {
      packet := p;
    }
  }

  /** Verdict, packet and session after `authorize` when nothing else runs. */
  function Authorized(s: Session, p: Packet, h: Handler): (Verdict, Packet, Session) {
    match p
    case ConnectPacket(_, _, _, rest) =>
      var (verdict, left) := h.connect(Credentials(p));
      (verdict, if verdict.Accept? then ConnectPacket(left.id, left.username, left.password, rest) else p, left)
    case PublishPacket(topic, payload, rest) =>
      var (verdict, t, b, left) := h.publish(s, topic, payload);
      (verdict, PublishPacket(t, b, rest), left)
    case SubscribePacket(topics, rest) =>
      var (verdict, ts, left) := h.subscribe(s, topics);
      (verdict, SubscribePacket(ts, rest), left)
    case UnsubscribePacket(_, _) => (Accept, p, s)
    case DisconnectPacket(_) => (Accept, p, s)
    case OtherPacket(_) => (Accept, p, s)
  }

  /** The call `authorize` makes, with its arguments before and after. AuthConnect finds the
      credentials of the packet in the session, whatever was there. */
  function CallFor(s: Session, p: Packet, h: Handler): Option<AuthCall> {
    match p
    case ConnectPacket(_, _, _, _) => Some(AuthConnect(Credentials(p), h.connect(Credentials(p)).1))
    case PublishPacket(topic, payload, _) =>
      var (_, t, b, _) := h.publish(s, topic, payload);
      Some(AuthPublish(topic, payload, t, b))
    case SubscribePacket(topics, _) => Some(AuthSubscribe(topics, h.subscribe(s, topics).1))
    case _ => None
  }

  method Authorize(s: SessionRecord, pkt: PacketRecord, h: Handler)
    returns (verdict: Verdict, call: Option<AuthCall>)
    modifies s, pkt
    ensures (verdict, pkt.packet, s.Value()) == Authorized(old(s.Value()), old(pkt.packet), h)
    ensures call == CallFor(old(s.Value()), old(pkt.packet), h)
    ensures old(pkt.packet).ConnectPacket? ==>
              call.Some? && call.value.AuthConnect? && call.value.before == Credentials(old(pkt.packet))
  {
    match pkt.packet
    case ConnectPacket(id, username, password, _) =>
      s.ID := id;
      s.Username := username;
      s.Password := password;
      var shown := s.Value();
      var (answer, left) := h.connect(shown);
      s.Set(left);
      verdict, call := answer, Some(AuthConnect(shown, left));
      if verdict.Refuse? {
        return;
      }
      pkt.packet := pkt.packet.(id := s.ID);
      pkt.packet := pkt.packet.(username := s.Username);
      pkt.packet := pkt.packet.(password := s.Password);
    case PublishPacket(topic, payload, _) =>
      var (answer, t, b, left) := h.publish(s.Value(), topic, payload);
      s.Set(left);
      pkt.packet := pkt.packet.(topic := t, payload := b);
      verdict, call := answer, Some(AuthPublish(topic, payload, t, b));
    case SubscribePacket(topics, _) =>
      var (answer, ts, left) := h.subscribe(s.Value(), topics);
      s.Set(left);
      pkt.packet := pkt.packet.(topics := ts);
      verdict, call := answer, Some(AuthSubscribe(topics, ts));
    case _ =>
      verdict, call := Accept, None;
  }

  /** The steps of the Up pump for one call of `authorize`. */
  function GateSteps(s: Session, p: Packet, h: Handler): seq<Event> {
    match p
    case ConnectPacket(_, _, _, _) =>
      var (verdict, left) := h.connect(Credentials(p));
      [StoreSession, ConnectAnswer(verdict, left)] + if verdict.Accept? then [CopySession] else []
    case PublishPacket(topic, payload, _) =>
      var (verdict, t, b, left) := h.publish(s, topic, payload);
      [PublishAnswer(verdict, t, b, left)]
    case SubscribePacket(topics, _) =>
      var (verdict, ts, left) := h.subscribe(s, topics);
      [SubscribeAnswer(Up, verdict, ts, left)]
    case _ => [NoHook(Up)]
  }

  /** What the hook log holds after a call, or after none. */
  function Logged(hooks: seq<HookCall>, call: Option<AuthCall>, verdict: Verdict): seq<HookCall> {
    if call.Some? then hooks + [Auth(Up, call.value, verdict)] else hooks
  }

  /** From state s, with the Up pump at the gate, the gate steps make the call, forward the
      packet and leave the session of `authorize`; a refusal stops the pump with the hook's error. */
  predicate GateAgrees(cfg: Config, s: State, h: Handler)
    requires s.up.pc.Gate?
  {
    var x := s.up.pc.p;
    var (verdict, y, session) := Authorized(s.session, x, h);
    var r := Exec(cfg, s, GateSteps(s.session, x, h));
    && r.Some? && r.value == s.(up := r.value.up, session := session,
                                hooks := Logged(s.hooks, CallFor(s.session, x, h), verdict))
    && r.value.up.recv == s.up.recv && r.value.up.sent == s.up.sent
    && r.value.up.gateIn == s.up.gateIn + [x]
    && match verdict
       case Accept =>
         r.value.up.gateOut == s.up.gateOut + [y]
         && r.value.up.asked == s.up.asked + [CallFor(s.session, x, h)]
         && r.value.up.pc == (if cfg.post then PostIntercept(y) else Writing(y))
       case Refuse(cause) =>
         r.value.up.gateOut == s.up.gateOut && r.value.up.asked == s.up.asked
         && r.value.up.pc == Sending(Wrap(cause, session.id, Up), true)
  }

  lemma AuthorizeIsTheGate(cfg: Config, s: State, h: Handler)
    requires s.up.pc.Gate?
    ensures GateAgrees(cfg, s, h)
  {
    if s.up.pc.p.ConnectPacket? {
      ConnectIsTheGate(cfg, s, h);
    } else if s.up.pc.p.PublishPacket? {
      PublishIsTheGate(cfg, s, h);
    } else if s.up.pc.p.SubscribePacket? {
      SubscribeIsTheGate(cfg, s, h);
    } else {
      OneStep(cfg, s, NoHook(Up));
    }
  }

  /** A step of the Up pump that sends no error. */
  lemma OneStep(cfg: Config, s: State, e: Event)
    requires Enabled(s, e) && Actor(e) == Some(Up) && !e.Send?
    ensures var session := NextSession(s, e);
            Exec(cfg, s, [e]) == Some(s.(up := NextPump(cfg, Up, s.up, e, s.session, session), session := session,
                                         hooks := s.hooks + NewCalls(s, e)))
  {
    ExecExtend(cfg, s, [], e);
    assert [] + [e] == [e] && s.chan + [] == s.chan && s.errors + [] == s.errors;
  }

  lemma PublishIsTheGate(cfg: Config, s: State, h: Handler)
    requires s.up.pc.Gate? && s.up.pc.p.PublishPacket?
    ensures GateAgrees(cfg, s, h)
  {
    var (verdict, t, b, left) := h.publish(s.session, s.up.pc.p.topic, s.up.pc.p.payload);
    OneStep(cfg, s, PublishAnswer(verdict, t, b, left));
  }

  lemma SubscribeIsTheGate(cfg: Config, s: State, h: Handler)
    requires s.up.pc.Gate? && s.up.pc.p.SubscribePacket?
    ensures GateAgrees(cfg, s, h)
  {
    var (verdict, ts, left) := h.subscribe(s.session, s.up.pc.p.topics);
    OneStep(cfg, s, SubscribeAnswer(Up, verdict, ts, left));
  }

  lemma ConnectIsTheGate(cfg: Config, s: State, h: Handler)
    requires s.up.pc.Gate? && s.up.pc.p.ConnectPacket?
    ensures GateAgrees(cfg, s, h)
  {
    var (verdict, left) := h.connect(Credentials(s.up.pc.p));
    AskedConnect(cfg, s, verdict, left);
    var e1, e2 := StoreSession, ConnectAnswer(verdict, left);
    if verdict.Accept? {
      ExecExtend(cfg, s, [e1, e2], CopySession);
      assert [e1, e2] + [CopySession] == [e1, e2, CopySession];
    }
  }

  lemma AskedConnect(cfg: Config, s: State, verdict: Verdict, left: Session)
    requires s.up.pc.Gate? && s.up.pc.p.ConnectPacket?
    ensures var x := s.up.pc.p;
            var r := Exec(cfg, s, [StoreSession, ConnectAnswer(verdict, left)]);
            var call := AuthConnect(Credentials(x), left);
            var up := s.up.(gateIn := s.up.gateIn + [x]);
            r == Some(s.(session := left, hooks := s.hooks + [Auth(Up, call, verdict)],
                         up := match verdict
                               case Accept => up.(asked := up.asked + [Some(call)], pc := CopyBack(x))
                               case Refuse(cause) => Stop(Up, up, cause, left)))
  {
    var x, e1, e2 := s.up.pc.p, StoreSession, ConnectAnswer(verdict, left);
    OneStep(cfg, s, e1);
    assert s.hooks + [] == s.hooks && s.chan + [] == s.chan && s.errors + [] == s.errors;
    ExecExtend(cfg, s, [e1], e2);
    assert [e1] + [e2] == [e1, e2];
  }
}
