/**
 What the two pumps forward, whom they ask and whom they tell: theorems about
 every reachable state of the session engine.
*/
module SessionForwarding {
  import opened Results
  import opened SessionStream
  import opened SessionInvariants

  /** What pump p has written, without the DISCONNECT it may have made up at the end. */
  function Forwarded(cfg: Config, p: Pump): seq<Packet> {
    if |p.sent| > |p.PostResults(cfg)| then p.sent[..|p.PostResults(cfg)|] else p.sent
  }

  /** Packet number i went through all the stages of the pass in which it was read. */
  predicate Passed(cfg: Config, d: Direction, p: Pump, i: nat) {
    && i < |p.recv| && i < |p.gateIn| && i < |p.asked| && i < |p.gateOut| && i < |p.sent|
    && (if cfg.pre then i < |p.preIn| && i < |p.preOut| && p.preIn[i] == p.recv[i] && p.gateIn[i] == p.preOut[i]
        else p.gateIn[i] == p.recv[i])
    && Cleared(d, p.gateIn[i], p.asked[i], p.gateOut[i])
    && (if cfg.post then i < |p.postIn| && i < |p.postOut| && p.postIn[i] == p.gateOut[i] && p.sent[i] == p.postOut[i]
        else p.sent[i] == p.gateOut[i])
  }

  /** The packets a pump forwards are the packets it read, in the order in which it read
      them, each changed only by the interceptors and hooks of its own pass. Only the last
      one read can be missing, and only a Down pump that refused a message and has stopped
      can have written something else: one DISCONNECT. */
  lemma ForwardingIsAnImage(cfg: Config, s: State, d: Direction)
    requires Reachable(cfg, s)
    ensures var p := s.Of(d); var fwd := Forwarded(cfg, p);
            && |fwd| <= |p.recv| <= |fwd| + 1
            && (forall i :: 0 <= i < |fwd| ==> Passed(cfg, d, p, i))
            && (p.sent == fwd
                || (d == Down && p.sent == fwd + [NEW_DISCONNECT] && (p.pc.Done? || (p.pc.Sending? && p.pc.last))
                    && |p.gateIn| == |fwd| + 1 && p.gateIn[|fwd|].PublishPacket?))
  {
    InvReachable(cfg, s);
    var p := s.Of(d);
    assert PumpInv(cfg, d, p) && GateInv(d, p);
    if p.pc.Done? || (p.pc.Sending? && p.pc.last) {
      StoppedImage(cfg, d, p);
    } else {
      RunningImage(cfg, d, p);
    }
    ImagePasses(cfg, d, p, Forwarded(cfg, p));
  }

  lemma RunningImage(cfg: Config, d: Direction, p: Pump)
    requires PumpInv(cfg, d, p) && !p.pc.Done? && !(p.pc.Sending? && p.pc.last)
    ensures Image(cfg, p, p.sent) && Forwarded(cfg, p) == p.sent
  {
  }

  lemma StoppedImage(cfg: Config, d: Direction, p: Pump)
    requires Image(cfg, p, p.sent) || Refused(cfg, d, p)
    ensures Image(cfg, p, Forwarded(cfg, p))
    ensures p.sent == Forwarded(cfg, p) || (Refused(cfg, d, p) && p.sent == Forwarded(cfg, p) + [NEW_DISCONNECT]
                                           && |p.gateIn| == |Forwarded(cfg, p)| + 1)
  {
    if !Image(cfg, p, p.sent) {
      assert p.sent == p.sent[..|p.sent| - 1] + [NEW_DISCONNECT];
    }
  }

  lemma ImagePasses(cfg: Config, d: Direction, p: Pump, fwd: seq<Packet>)
    requires Image(cfg, p, fwd) && GateInv(d, p) && fwd <= p.sent
    ensures |fwd| <= |p.recv| && forall i :: 0 <= i < |fwd| ==> Passed(cfg, d, p, i)
  {
  }

  /** Without interceptors the client receives exactly the packets the broker sent, unchanged
      and in order; only when the last one was a PUBLISH that the hook refused, and the pump
      has stopped, may it receive one DISCONNECT in its place. */
  lemma DownIsTransparent(cfg: Config, s: State)
    requires Reachable(cfg, s) && !cfg.pre && !cfg.post
    ensures var p := s.down; var n := |p.sent| - 1;
            p.sent <= p.recv
            || (n >= 0 && |p.recv| == |p.sent| && p.sent[..n] == p.recv[..n]
                && p.sent[n] == NEW_DISCONNECT && p.recv[n].PublishPacket? && HasStopped(p))
  {
    ForwardingIsAnImage(cfg, s, Down);
    InvReachable(cfg, s);
    var p, fwd := s.down, Forwarded(cfg, s.down);
    PassedUnchanged(cfg, p, fwd);
    if p.sent != fwd {
      GateReadsInOrder(cfg, p);
      assert p.sent[..|p.sent| - 1] == fwd;
    }
  }

  lemma PassedUnchanged(cfg: Config, p: Pump, fwd: seq<Packet>)
    requires !cfg.pre && !cfg.post && fwd <= p.sent && |fwd| <= |p.recv|
    requires forall i :: 0 <= i < |fwd| ==> Passed(cfg, Down, p, i)
    ensures fwd <= p.recv
  {
    assert forall i :: 0 <= i < |fwd| ==> Passed(cfg, Down, p, i) ==> fwd[i] == p.recv[i];
  }

  lemma GateReadsInOrder(cfg: Config, p: Pump)
    requires PumpInv(cfg, Down, p) && HasStopped(p) && !cfg.pre
    ensures p.gateIn <= p.recv
  {
  }

  /** Whatever the interceptors: a packet that a hook guards and that was forwarded, up or
      down, was accepted by its own hook in that pass. */
  lemma ForwardedWasAccepted(cfg: Config, s: State, d: Direction, i: nat)
    requires Reachable(cfg, s) && i < |Forwarded(cfg, s.Of(d))|
    ensures var p := s.Of(d);
            && i < |p.gateIn| && i < |p.asked|
            && (Guarded(d, p.gateIn[i]) <==> p.asked[i].Some?)
            && (Guarded(d, p.gateIn[i]) ==> p.asked[i].value in AcceptedAuths(d, s.hooks))
    ensures AcceptedAuths(d, s.hooks) == Flat(s.Of(d).asked)
  {
    InvReachable(cfg, s);
    ForwardingIsAnImage(cfg, s, d);
    var p := s.Of(d);
    assert Passed(cfg, d, p, i);
    if p.asked[i].Some? {
      AskedIsInFlat(p.asked, i);
    }
  }

  lemma {:induction false} AskedIsInFlat(asked: seq<Option<AuthCall>>, i: nat)
    requires i < |asked| && asked[i].Some?
    ensures asked[i].value in Flat(asked)
  {
    if i < |asked| - 1 {
      AskedIsInFlat(asked[..|asked| - 1], i);
    }
  }

  /** Without a post-interceptor every CONNECT, PUBLISH and SUBSCRIBE the broker gets carries
      exactly what its own hook left in it. */
  lemma UplinkIsAuthorized(cfg: Config, s: State, i: nat)
    requires Reachable(cfg, s) && !cfg.post && i < |s.up.sent|
    ensures i < |s.up.asked|
    ensures match s.up.sent[i]
            case ConnectPacket(_, _, _, _) => s.up.asked[i].Some? && s.up.asked[i].value.AuthConnect?
            case PublishPacket(topic, payload, _) =>
              exists t, b :: s.up.asked[i] == Some(AuthPublish(t, b, topic, payload))
            case SubscribePacket(topics, _) => exists t :: s.up.asked[i] == Some(AuthSubscribe(t, topics))
            case _ => s.up.asked[i].None?
    ensures s.up.asked[i].Some? ==> s.up.asked[i].value in AcceptedAuths(Up, s.hooks)
  {
    ForwardingIsAnImage(cfg, s, Up);
    ForwardedWasAccepted(cfg, s, Up, i);
    assert Passed(cfg, Up, s.up, i);
  }

  // ---------- Which hook comes first ----------

  /** The first packet that a hook guards, if any. */
  function FirstGuarded(ps: seq<Packet>): Option<Packet> {
    if ps == [] then None
    else
      var first := FirstGuarded(ps[..|ps| - 1]);
      if first.Some? then first
      else if Guarded(Up, ps[|ps| - 1]) then Some(ps[|ps| - 1])
      else None
  }

  lemma {:induction false} FirstGuardedStays(a: seq<Packet>, b: seq<Packet>)
    requires a <= b && FirstGuarded(a).Some?
    ensures FirstGuarded(b) == FirstGuarded(a)
  {
    if |b| > |a| {
      FirstGuardedStays(a, b[..|b| - 1]);
    } else {
      assert a == b;
    }
  }

  /** The calls asked belong to the packets at the same places. */
  predicate Aligned(ps: seq<Packet>, asked: seq<Option<AuthCall>>) {
    |ps| == |asked|
    && forall i :: 0 <= i < |ps| ==>
         (asked[i].Some? <==> Guarded(Up, ps[i]))
         && (asked[i].Some? ==> (asked[i].value.AuthConnect? <==> ps[i].ConnectPacket?))
  }

  lemma {:induction false} FirstAsked(ps: seq<Packet>, asked: seq<Option<AuthCall>>)
    requires Aligned(ps, asked)
    ensures Flat(asked) != [] <==> FirstGuarded(ps).Some?
    ensures Flat(asked) != [] ==> (Flat(asked)[0].AuthConnect? <==> FirstGuarded(ps).value.ConnectPacket?)
  {
    if ps != [] {
      FirstAsked(ps[..|ps| - 1], asked[..|asked| - 1]);
    }
  }

  lemma AskedIsAligned(cfg: Config, p: Pump)
    requires PumpInv(cfg, Up, p) && GateInv(Up, p)
    ensures |p.asked| <= |p.gateIn| && Aligned(p.gateIn[..|p.asked|], p.asked)
  {
    AskedLength(cfg, p);
  }

  lemma AskedLength(cfg: Config, p: Pump)
    requires PumpInv(cfg, Up, p)
    ensures |p.gateOut| <= |p.asked| <= |p.gateIn|
    ensures |p.asked| > |p.gateOut| ==>
              |p.asked| == |p.gateOut| + 1 && p.gateIn[|p.gateOut|].ConnectPacket?
              && p.asked[|p.gateOut|].Some? && p.asked[|p.gateOut|].value.AuthConnect?
  {
  }

  /** The first authorization a client gets is that of a CONNECT exactly when the first packet
      it sent that needs one, after the pre-interceptor, was a CONNECT: the proxy does not see
      to it. */
  lemma ConnectFirstExactlyWhen(cfg: Config, s: State)
    requires Reachable(cfg, s) && AcceptedAuths(Up, s.hooks) != []
    ensures FirstGuarded(s.up.gateIn).Some?
    ensures AcceptedAuths(Up, s.hooks)[0].AuthConnect? <==> FirstGuarded(s.up.gateIn).value.ConnectPacket?
  {
    InvReachable(cfg, s);
    AskedIsAligned(cfg, s.up);
    FirstAsked(s.up.gateIn[..|s.up.asked|], s.up.asked);
    FirstGuardedStays(s.up.gateIn[..|s.up.asked|], s.up.gateIn);
  }

  /** A client that begins with a PUBLISH is authorized to publish. */
  lemma PublishMayComeFirst() returns (s: State)
    ensures Reachable(PLAIN, s) && AcceptedAuths(Up, s.hooks) != [] && AcceptedAuths(Up, s.hooks)[0].AuthPublish?
  {
    assert Exec(PLAIN, INIT, []) == Some(INIT);
    s := Extend(PLAIN, INIT, ReadOk(Up, PublishPacket("", [], [])));
    AuthsGrow(PLAIN, s, PublishAnswer(Accept, "", [], INIT.session), Up);
    assert s.hooks == [];
    s := Extend(PLAIN, s, PublishAnswer(Accept, "", [], INIT.session));
  }

  /** The packets of the four kinds that have a notification hook. */
  function NotifiedKinds(sent: seq<Packet>): seq<Packet> {
    if sent == [] then []
    else
      var p := sent[|sent| - 1];
      NotifiedKinds(sent[..|sent| - 1]) +
      if p.ConnectPacket? || p.PublishPacket? || p.SubscribePacket? || p.UnsubscribePacket? then [p] else []
  }

  /** The call is to the hook for packets of this kind, with the fields of p. */
  predicate Tells(note: NoteCall, p: Packet) {
    match note
    case Connect => p.ConnectPacket?
    case Publish(topic, payload) => p.PublishPacket? && p.topic == topic && p.payload == payload
    case Subscribe(topics) => p.SubscribePacket? && p.topics == topics
    case Unsubscribe(topics) => p.UnsubscribePacket? && p.topics == topics
  }

  /** The notification hooks are called for exactly the packets written to the broker, in
      order, by kind and with the fields written; the log is at most the packet in flight behind. */
  lemma NotificationsFollowWrites(cfg: Config, s: State)
    requires Reachable(cfg, s)
    ensures var notes, told := Notes(s.hooks), NotifiedKinds(s.up.sent);
            && |notes| <= |told| <= |notes| + 1
            && (!s.up.pc.Notifying? ==> |notes| == |told|)
            && forall k :: 0 <= k < |notes| ==> Tells(notes[k], told[k])
  {
    NotesAreDue(cfg, s);
    DueTells(s.up.sent);
  }

  lemma NotesAreDue(cfg: Config, s: State)
    requires Reachable(cfg, s)
    ensures Notes(s.hooks) <= NotesDue(s.up.sent)
    ensures |NotesDue(s.up.sent)| <= |Notes(s.hooks)| + 1
    ensures !s.up.pc.Notifying? ==> Notes(s.hooks) == NotesDue(s.up.sent)
  {
    InvReachable(cfg, s);
    if s.up.pc.Notifying? {
      OneMoreSent(s.up.sent[..|s.up.sent| - 1], s.up.pc.p);
      assert s.up.sent == s.up.sent[..|s.up.sent| - 1] + [s.up.pc.p];
    }
  }

  lemma {:induction false} DueTells(sent: seq<Packet>)
    ensures |NotesDue(sent)| == |NotifiedKinds(sent)|
    ensures forall k :: 0 <= k < |NotesDue(sent)| ==> Tells(NotesDue(sent)[k], NotifiedKinds(sent)[k])
  {
    if sent != [] {
      DueTells(sent[..|sent| - 1]);
    }
  }

  /** Disconnect is called once by every `Stream` that returns and never before an error
      has come out of the channel; `Stream` reports the first error ever sent, and what
      Disconnect answered. */
  lemma DisconnectOnceAfterFirstError(cfg: Config, s: State)
    requires Reachable(cfg, s)
    ensures DisconnectCalls(s.hooks) == if s.stream.Returned? then 1 else 0
    ensures s.stream.Returned? ==> Disconnect(s.stream.disconnect) in s.hooks
    ensures !s.stream.Receiving? ==> |s.errors| > 0 && s.stream.err == s.errors[0]
    ensures s.outClosed || s.inClosed ==> s.stream.Returned?
  {
    InvReachable(cfg, s);
    var es :| Exec(cfg, INIT, es) == Some(s);
    DisconnectLogged(cfg, es);
  }

  lemma {:induction false} DisconnectLogged(cfg: Config, es: seq<Event>)
    requires Exec(cfg, INIT, es).Some?
    ensures var s := Exec(cfg, INIT, es).value; s.stream.Returned? ==> Disconnect(s.stream.disconnect) in s.hooks
  {
    if es != [] {
      var s, e := Exec(cfg, INIT, es[..|es| - 1]).value, es[|es| - 1];
      DisconnectLogged(cfg, es[..|es| - 1]);
      HooksAfter(cfg, s, e);
      if e.DisconnectAnswer? {
        assert NewCalls(s, e)[0] in Apply(cfg, s, e).hooks;
      }
    }
  }

  /** A pump that has met an error, or has refused a message, never reads or writes again. */
  lemma {:induction false} StoppedPumpIsSilent(cfg: Config, s: State, es: seq<Event>, d: Direction)
    requires HasStopped(s.Of(d)) && Exec(cfg, s, es).Some?
    ensures var t := Exec(cfg, s, es).value;
            HasStopped(t.Of(d)) && t.Of(d).recv == s.Of(d).recv && t.Of(d).sent == s.Of(d).sent
  {
    if es != [] {
      StoppedPumpIsSilent(cfg, s, es[..|es| - 1], d);
      var t := Exec(cfg, s, es[..|es| - 1]).value;
      var e := es[|es| - 1];
      assert Actor(e) == Some(d) ==> e.Send?;
    }
  }
}
