/**
 The loop `stream` of pkg/session/stream.go in its own form: a method that reads,
 intercepts, asks, writes and notifies. Whatever the outside world answers, what it
 does is a run of the transition system in which no other thread takes a step. So
 every behaviour of the loop is one the theorems about all runs speak of.
*/
module SessionPump {
  import opened Results
  import opened SessionStream
  import opened SessionAuthorize

  type Interceptor = (Session, Packet) -> (Result<Packet, Cause>, Session)

  /** What the outside world does during one pass of the loop: packets, connections, hooks
      and interceptors. Whoever is called may change the session. */
  datatype World = World(
    read: Result<Packet, Cause>,
    pre: Interceptor,
    hooks: Handler,
    post: Interceptor,
    write: Packet -> Option<Cause>,
    note: (Session, NoteCall) -> (Verdict, Session))

  /** Steps of pump d lead from s to t: nothing else has changed. */
  predicate Alone(d: Direction, s: State, t: State) {
    t == (if d == Up then s.(up := t.up, session := t.session, hooks := t.hooks)
          else s.(down := t.down, session := t.session, hooks := t.hooks))
  }

  lemma Move(cfg: Config, d: Direction, s: State, es: seq<Event>, t: State, e: Event)
    returns (es': seq<Event>, u: State)
    requires Exec(cfg, s, es) == Some(t) && Alone(d, s, t)
    requires Enabled(t, e) && Actor(e) == Some(d) && !e.Send?
    ensures Exec(cfg, s, es') == Some(u) && Alone(d, s, u)
    ensures u.Of(d) == NextPump(cfg, d, t.Of(d), e, t.session, NextSession(t, e))
    ensures u.session == NextSession(t, e) && u.hooks == t.hooks + NewCalls(t, e)
  {
    ExecExtend(cfg, s, es, e);
    es', u := es + [e], Apply(cfg, t, e);
    assert t.chan + [] == t.chan && t.errors + [] == t.errors;
  }

  /** `wrap` */
  method WrapError(cause: Cause, session: SessionRecord, d: Direction) returns (err: Error)
    ensures err == Wrap(cause, session.ID, d)
  {
    if cause == Eof {
      return Plain(cause);
    }
    match d
    case Up => return Proxied(ErrClient, session.ID, cause);
    case Down => return Proxied(ErrBroker, session.ID, cause);
  }

  /** `notify`: the call made, if any, and the answer. */
  method Notify(w: World, session: SessionRecord, p: Packet) returns (call: Option<NoteCall>, verdict: Verdict)
    modifies session
    ensures call == NoteFor(p)
    ensures call == None ==> verdict == Accept && session.Value() == old(session.Value())
    ensures call.Some? ==> (verdict, session.Value()) == w.note(old(session.Value()), call.value)
  {
    match p
    case ConnectPacket(_, _, _, _) =>
      verdict := NotifyWith(w, session, Connect);
      call := Some(Connect);
    case PublishPacket(topic, payload, _) =>
      verdict := NotifyWith(w, session, Publish(topic, payload));
      call := Some(Publish(topic, payload));
    case SubscribePacket(topics, _) =>
      verdict := NotifyWith(w, session, Subscribe(topics));
      call := Some(Subscribe(topics));
    case UnsubscribePacket(topics, _) =>
      verdict := NotifyWith(w, session, Unsubscribe(topics));
      call := Some(Unsubscribe(topics));
    case _ =>
      call, verdict := None, Accept;
  }

  method NotifyWith(w: World, session: SessionRecord, call: NoteCall) returns (verdict: Verdict)
    modifies session
    ensures (verdict, session.Value()) == w.note(old(session.Value()), call)
  {
    var (answer, left) := w.note(session.Value(), call);
    session.Set(left);
    return answer;
  }

  /** What a pass leaves: what it wrote, the calls it made, the error it is about to send, and
      whether that is the pump's last. */
  datatype Trail = Trail(recv: seq<Packet>, sent: seq<Packet>, hooks: seq<HookCall>, err: Option<(Error, bool)>)

  /** From s, pump d alone can get to t, and has then done what the trail says. */
  predicate Follows(cfg: Config, d: Direction, s: State, es: seq<Event>, t: State, session: Session, trail: Trail) {
    && Exec(cfg, s, es) == Some(t) && Alone(d, s, t)
    && t.session == session
    && t.Of(d).recv == s.Of(d).recv + trail.recv
    && t.Of(d).sent == s.Of(d).sent + trail.sent
    && t.hooks == s.hooks + trail.hooks
    && (trail.err.Some? ==> t.Of(d).pc == Sending(trail.err.value.0, trail.err.value.1))
  }

  // The parts of a pass. Each goes on from state t0, reached from s, to state t.

  /** `ReadPacket` */
  method PassRead(cfg: Config, d: Direction, w: World, session: SessionRecord, ghost s: State)
    returns (pkt: Option<Packet>, trail: Trail, ghost es: seq<Event>, ghost t: State)
    requires s.Of(d).pc.Reading? && session.Value() == s.session
    ensures Follows(cfg, d, s, es, t, session.Value(), trail)
    ensures pkt.None? <==> trail.err.Some?
    ensures pkt.Some? ==> t.Of(d).pc == (if cfg.pre then PreIntercept(pkt.value) else Gate(pkt.value))
    ensures trail.err.Some? ==> trail.err.value.1
    ensures trail.recv == if w.read.Ok? then [w.read.value] else []
  {
    trail, es, t := Trail([], [], [], None), [], s;
    if w.read.Err? {
      es, t := Move(cfg, d, s, es, t, ReadFail(d, w.read.error));
      var err := WrapError(w.read.error, session, d);
      return None, trail.(err := Some((err, true))), es, t;
    }
    es, t := Move(cfg, d, s, es, t, ReadOk(d, w.read.value));
    return Some(w.read.value), trail.(recv := [w.read.value]), es, t;
  }

  /** Either interceptor, if it is installed. */
  method PassIntercept(cfg: Config, d: Direction, ic: Interceptor, session: SessionRecord, p: Packet,
                       ghost s: State, ghost es0: seq<Event>, ghost t0: State, trail0: Trail)
    returns (pkt: Option<Packet>, trail: Trail, ghost es: seq<Event>, ghost t: State)
    requires Follows(cfg, d, s, es0, t0, session.Value(), trail0) && trail0.err.None?
    requires t0.Of(d).pc == PreIntercept(p) || t0.Of(d).pc == PostIntercept(p)
    modifies session
    ensures Follows(cfg, d, s, es, t, session.Value(), trail)
    ensures pkt.None? <==> trail.err.Some?
    ensures pkt.Some? ==> t.Of(d).pc == (if t0.Of(d).pc.PreIntercept? then Gate(pkt.value) else Writing(pkt.value))
    ensures trail.err.Some? ==> trail.err.value.1
    ensures trail.recv == trail0.recv
  {
    trail, es, t := trail0, es0, t0;
    var (r, left) := ic(session.Value(), p);
    session.Set(left);
    match r
    case Err(cause) =>
      es, t := Move(cfg, d, s, es, t, InterceptFail(d, cause, left));
      var err := WrapError(cause, session, d);
      return None, trail.(err := Some((err, true))), es, t;
    case Ok(y) =>
      es, t := Move(cfg, d, s, es, t, Intercepted(d, y, left));
      return Some(y), trail, es, t;
  }

  /** `authorize` in the Up pump. */
  method PassUpGate(cfg: Config, w: World, session: SessionRecord, p: Packet,
                    ghost s: State, ghost es0: seq<Event>, ghost t0: State, trail0: Trail)
    returns (pkt: Option<Packet>, trail: Trail, ghost es: seq<Event>, ghost t: State)
    requires Follows(cfg, Up, s, es0, t0, session.Value(), trail0) && trail0.err.None?
    requires t0.up.pc == Gate(p)
    modifies session
    ensures Follows(cfg, Up, s, es, t, session.Value(), trail)
    ensures pkt.None? <==> trail.err.Some?
    ensures pkt.Some? ==> t.up.pc == (if cfg.post then PostIntercept(pkt.value) else Writing(pkt.value))
    ensures trail.err.Some? ==> trail.err.value.1
    ensures trail.recv == trail0.recv
  {
    ghost var steps := GateSteps(t0.session, p, w.hooks);
    AuthorizeIsTheGate(cfg, t0, w.hooks);
    ExecConcat(cfg, s, es0, steps);
    es, t := es0 + steps, Exec(cfg, t0, steps).value;
    var record := new PacketRecord(p);
    var verdict, call := Authorize(session, record, w.hooks);
    trail := trail0;
    if call.Some? {
      trail := trail.(hooks := trail.hooks + [Auth(Up, call.value, verdict)]);
    }
    if verdict.Refuse? {
      var err := WrapError(verdict.cause, session, Up);
      return None, trail.(err := Some((err, true))), es, t;
    }
    return Some(record.packet), trail, es, t;
  }

  /** The Down pump asks whether the client may get a message. */
  method PassDownGate(cfg: Config, w: World, session: SessionRecord, p: Packet,
                      ghost s: State, ghost es0: seq<Event>, ghost t0: State, trail0: Trail)
    returns (refused: Option<Cause>, trail: Trail, ghost es: seq<Event>, ghost t: State)
    requires Follows(cfg, Down, s, es0, t0, session.Value(), trail0) && trail0.err.None?
    requires t0.down.pc == Gate(p)
    modifies session
    ensures Follows(cfg, Down, s, es, t, session.Value(), trail) && trail.err.None?
    ensures t.down.pc == if refused.Some? then Refusing(refused.value)
                         else if cfg.post then PostIntercept(p) else Writing(p)
    ensures trail.recv == trail0.recv
  {
    trail, es, t := trail0, es0, t0;
    if !p.PublishPacket? {
      es, t := Move(cfg, Down, s, es, t, NoHook(Down));
      return None, trail, es, t;
    }
    var topics := [p.topic];
    var (verdict, topicsLeft, left) := w.hooks.subscribe(session.Value(), topics);
    session.Set(left);
    es, t := Move(cfg, Down, s, es, t, SubscribeAnswer(Down, verdict, topicsLeft, left));
    trail := trail.(hooks := trail.hooks + [Auth(Down, AuthSubscribe(topics, topicsLeft), verdict)]);
    refused := if verdict.Refuse? then Some(verdict.cause) else None;
  }

  /** A client that may not get a message gets a DISCONNECT. */
  method PassRefusal(cfg: Config, w: World, session: SessionRecord, cause: Cause,
                     ghost s: State, ghost es0: seq<Event>, ghost t0: State, trail0: Trail)
    returns (trail: Trail, ghost es: seq<Event>, ghost t: State)
    requires Follows(cfg, Down, s, es0, t0, session.Value(), trail0) && trail0.err.None?
    requires t0.down.pc == Refusing(cause)
    requires s.inClosed ==> forall p :: w.write(p).Some?
    ensures Follows(cfg, Down, s, es, t, session.Value(), trail)
    ensures trail.err.Some? && trail.err.value.1
    ensures trail.recv == trail0.recv
  {
    trail := trail0;
    var pkt := DisconnectPacket([]);
    var all := cause;
    var wErr := w.write(pkt);
    if wErr.Some? {
      all := Joined(cause, wErr.value);
      es, t := Move(cfg, Down, s, es0, t0, WriteFail(Down, wErr.value));
    } else {
      es, t := Move(cfg, Down, s, es0, t0, WriteOk(Down));
      trail := trail.(sent := trail.sent + [pkt]);
    }
    var err := WrapError(all, session, Down);
    trail := trail.(err := Some((err, true)));
  }

  /** `pkt.Write` */
  method PassWrite(cfg: Config, d: Direction, w: World, session: SessionRecord, p: Packet,
                   ghost s: State, ghost es0: seq<Event>, ghost t0: State, trail0: Trail)
    returns (trail: Trail, ghost es: seq<Event>, ghost t: State)
    requires Follows(cfg, d, s, es0, t0, session.Value(), trail0) && trail0.err.None?
    requires t0.Of(d).pc == Writing(p)
    requires s.SinkClosed(d) ==> forall p :: w.write(p).Some?
    ensures Follows(cfg, d, s, es, t, session.Value(), trail)
    ensures trail.err.None? ==> t.Of(d).pc == if d == Up then Notifying(p) else Reading
    ensures trail.err.Some? ==> trail.err.value.1
    ensures trail.recv == trail0.recv
  {
    var wErr := w.write(p);
    if wErr.Some? {
      es, t := Move(cfg, d, s, es0, t0, WriteFail(d, wErr.value));
      var err := WrapError(wErr.value, session, d);
      return trail0.(err := Some((err, true))), es, t;
    }
    es, t := Move(cfg, d, s, es0, t0, WriteOk(d));
    return trail0.(sent := trail0.sent + [p]), es, t;
  }

  /** `notify`; its error is sent, but the loop goes on. */
  method PassNotify(cfg: Config, w: World, session: SessionRecord, p: Packet,
                    ghost s: State, ghost es0: seq<Event>, ghost t0: State, trail0: Trail)
    returns (trail: Trail, ghost es: seq<Event>, ghost t: State)
    requires Follows(cfg, Up, s, es0, t0, session.Value(), trail0) && trail0.err.None?
    requires t0.up.pc == Notifying(p)
    modifies session
    ensures Follows(cfg, Up, s, es, t, session.Value(), trail)
    ensures if trail.err.Some? then !trail.err.value.1 else t.up.pc.Reading?
    ensures trail.recv == trail0.recv
  {
    trail := trail0;
    var call, verdict := Notify(w, session, p);
    if call.None? {
      es, t := Move(cfg, Up, s, es0, t0, NoNote);
      return;
    }
    es, t := Move(cfg, Up, s, es0, t0, NoteAnswer(verdict, session.Value()));
    trail := trail.(hooks := trail.hooks + [Note(call.value, verdict)]);
    if verdict.Refuse? {
      var err := WrapError(verdict.cause, session, Up);
      trail := trail.(err := Some((err, false)));
    }
  }

  /** One pass of the loop: it ends where the next one begins, or with an error to send. */
  method Pass(cfg: Config, d: Direction, w: World, session: SessionRecord, ghost s: State)
    returns (trail: Trail, ghost es: seq<Event>, ghost t: State)
    requires s.Of(d).pc.Reading? && session.Value() == s.session
    requires s.SinkClosed(d) ==> forall p :: w.write(p).Some?
    modifies session
    ensures Follows(cfg, d, s, es, t, session.Value(), trail)
    ensures trail.err.None? ==> t.Of(d).pc.Reading?
    ensures trail.recv == if w.read.Ok? then [w.read.value] else []
  {
    var pkt;
    pkt, trail, es, t := PassRead(cfg, d, w, session, s);
    if pkt.None? {
      return;
    }
    if cfg.pre {
      pkt, trail, es, t := PassIntercept(cfg, d, w.pre, session, pkt.value, s, es, t, trail);
      if pkt.None? {
        return;
      }
    }
    match d {
      case Up =>
        pkt, trail, es, t := PassUpGate(cfg, w, session, pkt.value, s, es, t, trail);
        if pkt.None? {
          return;
        }
      case Down =>
        var refused;
        refused, trail, es, t := PassDownGate(cfg, w, session, pkt.value, s, es, t, trail);
        if refused.Some? {
          trail, es, t := PassRefusal(cfg, w, session, refused.value, s, es, t, trail);
          return;
        }
    }
    if cfg.post {
      pkt, trail, es, t := PassIntercept(cfg, d, w.post, session, pkt.value, s, es, t, trail);
      if pkt.None? {
        return;
      }
    }
    trail, es, t := PassWrite(cfg, d, w, session, pkt.value, s, es, t, trail);
    if trail.err.None? && d == Up {
      trail, es, t := PassNotify(cfg, w, session, pkt.value, s, es, t, trail);
    }
  }

  /** How the loop stands: at a read, returned, or waiting for room in the error channel. */
  datatype Status = Running | Ended | Blocked

  /** The packets read in these passes. */
  function Reads(ws: seq<World>): seq<Packet> {
    if ws == [] then []
    else
      var r := ws[|ws| - 1].read;
      Reads(ws[..|ws| - 1]) + if r.Ok? then [r.value] else []
  }

  /** What the loop has done so far; `chan` is the content of the error channel. */
  datatype Account = Account(sent: seq<Packet>, hooks: seq<HookCall>, chan: seq<Error>)

  /** From s, pump d alone can get to t, and has then done what the account says. */
  predicate Accounts(
    cfg: Config, d: Direction, s: State, es: seq<Event>, t: State, session: Session, recv: seq<Packet>, a: Account)
  {
    && Exec(cfg, s, es) == Some(t)
    && Alone(d, s, t.(chan := s.chan, errors := s.errors))
    && s.chan <= a.chan && t.chan == a.chan && t.errors == s.errors + a.chan[|s.chan|..]
    && t.session == session && t.hooks == s.hooks + a.hooks
    && t.Of(d).recv == s.Of(d).recv + recv
    && t.Of(d).sent == s.Of(d).sent + a.sent
  }

  lemma AddPass(
    cfg: Config, d: Direction, s: State, es: seq<Event>, t: State, session: Session, recv: seq<Packet>, a: Account,
    fs: seq<Event>, u: State, session': Session, trail: Trail)
    requires Accounts(cfg, d, s, es, t, session, recv, a) && Follows(cfg, d, t, fs, u, session', trail)
    ensures Accounts(cfg, d, s, es + fs, u, session', recv + trail.recv,
                     a.(sent := a.sent + trail.sent, hooks := a.hooks + trail.hooks))
  {
    ExecConcat(cfg, s, es, fs);
    AddSeq(s.hooks, a.hooks, trail.hooks);
    AddSeq(s.Of(d).recv, recv, trail.recv);
    AddSeq(s.Of(d).sent, a.sent, trail.sent);
  }

  lemma AddSeq<T>(a: seq<T>, b: seq<T>, c: seq<T>)
    ensures a + b + c == a + (b + c)
  {
  }

  lemma SendRun(cfg: Config, d: Direction, s: State, es: seq<Event>, t: State) returns (u: State)
    requires Exec(cfg, s, es) == Some(t) && t.Of(d).pc.Sending? && |t.chan| < CHAN_SIZE
    ensures Exec(cfg, s, es + [Send(d)]) == Some(u)
    ensures var p := t.Of(d).(pc := if t.Of(d).pc.last then Done else Reading);
            u == t.(up := if d == Up then p else t.up, down := if d == Up then t.down else p,
                    chan := t.chan + [t.Of(d).pc.err], errors := t.errors + [t.Of(d).pc.err])
  {
    ExecExtend(cfg, s, es, Send(d));
    u := Apply(cfg, t, Send(d));
    assert t.hooks + [] == t.hooks;
  }

  lemma AddError(
    cfg: Config, d: Direction, s: State, es: seq<Event>, t: State, session: Session, recv: seq<Packet>, a: Account,
    err: Error, last: bool)
    returns (u: State)
    requires Accounts(cfg, d, s, es, t, session, recv, a)
    requires t.Of(d).pc == Sending(err, last) && |a.chan| < CHAN_SIZE
    ensures Accounts(cfg, d, s, es + [Send(d)], u, session, recv, a.(chan := a.chan + [err]))
    ensures u.Of(d).pc == if last then Done else Reading
  {
    u := SendRun(cfg, d, s, es, t);
    assert (a.chan + [err])[|s.chan|..] == a.chan[|s.chan|..] + [err];
    AddSeq(s.errors, a.chan[|s.chan|..], [err]);
  }

  predicate Stands(status: Status, pc: Pc, chan: seq<Error>) {
    match status
    case Running => pc.Reading?
    case Ended => pc.Done?
    case Blocked => pc.Sending? && |chan| >= CHAN_SIZE
  }

  /** One pass, and the error it leads to, if the channel has room for it. */
  method PassAndSend(
    cfg: Config, d: Direction, w: World, session: SessionRecord, a0: Account,
    ghost s: State, ghost es0: seq<Event>, ghost t0: State, ghost recv: seq<Packet>)
    returns (a: Account, status: Status, ghost es: seq<Event>, ghost t: State)
    requires Accounts(cfg, d, s, es0, t0, session.Value(), recv, a0) && t0.Of(d).pc.Reading?
    requires s.SinkClosed(d) ==> forall p :: w.write(p).Some?
    modifies session
    ensures Accounts(cfg, d, s, es, t, session.Value(), recv + (if w.read.Ok? then [w.read.value] else []), a)
    ensures Stands(status, t.Of(d).pc, a.chan)
  {
    ghost var fs, before := [], session.Value();
    var trail;
    trail, fs, t := Pass(cfg, d, w, session, t0);
    AddPass(cfg, d, s, es0, t0, before, recv, a0, fs, t, session.Value(), trail);
    es := es0 + fs;
    a := a0.(sent := a0.sent + trail.sent, hooks := a0.hooks + trail.hooks);
    if trail.err.None? {
      return a, Running, es, t;
    }
    if |a.chan| >= CHAN_SIZE {
      return a, Blocked, es, t;
    }
    var (err, last) := trail.err.value;
    t := AddError(cfg, d, s, es, t, session.Value(), recv + trail.recv, a, err, last);
    return a.(chan := a.chan + [err]), if last then Ended else Running, es + [Send(d)], t;
  }

  /** The whole loop, for as many passes as the outside world has answers for. */
  method StreamLoop(cfg: Config, d: Direction, ws: seq<World>, session: SessionRecord, chan: seq<Error>, ghost s: State)
    returns (a: Account, status: Status, passes: nat, ghost es: seq<Event>, ghost t: State)
    requires s.Of(d).pc.Reading? && session.Value() == s.session && s.chan == chan
    requires s.SinkClosed(d) ==> forall w, p :: w in ws ==> w.write(p).Some?
    modifies session
    ensures passes <= |ws| && Accounts(cfg, d, s, es, t, session.Value(), Reads(ws[..passes]), a)
    ensures Stands(status, t.Of(d).pc, a.chan) && (status.Running? ==> passes == |ws|)
  {
    a, passes, es, t := Account([], [], chan), 0, [], s;
    status := Running;
    while passes < |ws| && status.Running?
      invariant passes <= |ws| && Accounts(cfg, d, s, es, t, session.Value(), Reads(ws[..passes]), a)
      invariant Stands(status, t.Of(d).pc, a.chan)
    {
      assert ws[passes] in ws && ws[..passes + 1][..passes] == ws[..passes];
      a, status, es, t := PassAndSend(cfg, d, ws[passes], session, a, s, es, t, Reads(ws[..passes]));
      passes := passes + 1;
    }
    assert passes == |ws| ==> ws[..passes] == ws;
  }
}
