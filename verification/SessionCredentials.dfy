/**
 The credentials of a CONNECT.

 `authorize` fills the session in from the packet, calls AuthConnect, and copies
 the session back into the packet. The two pumps share the session, and the
 hooks and interceptors that the Down pump calls, and Disconnect, may write it in
 between. The packet is meant to leave with what AuthConnect left; the theorem
 says for which hooks it always does.
*/
module SessionCredentials {
  import opened Results
  import opened SessionStream
  import opened SessionInvariants

  /** A relation between the session before and after a call. */
  type SessionRule = (Session, Session) -> bool

  /** Does step e return from a hook or interceptor that the Up pump did not call? */
  predicate ForeignCall(e: Event) {
    e.DisconnectAnswer? || (Actor(e) == Some(Down) && (e.Intercepted? || e.InterceptFail? || e.SubscribeAnswer?))
  }

  /** In the run es, whatever is called on behalf of the Down pump or by `Stream` changes
      the session by `rule` only. */
  ghost predicate Obeys(rule: SessionRule, cfg: Config, es: seq<Event>)
    requires Exec(cfg, INIT, es).Some?
  {
    es == [] ||
    (var s := Exec(cfg, INIT, es[..|es| - 1]).value; var e := es[|es| - 1];
     Obeys(rule, cfg, es[..|es| - 1]) && (ForeignCall(e) ==> rule(s.session, NextSession(s, e))))
  }

  /** AuthConnect was shown the credentials of the packet, and the packet left with the
      credentials AuthConnect left. */
  predicate Carried(x: Packet, asked: Option<AuthCall>, y: Packet) {
    x.ConnectPacket? ==>
      && asked.Some? && asked.value.AuthConnect? && asked.value.before == Credentials(x)
      && y.ConnectPacket? && Credentials(y) == asked.value.after
  }

  predicate AllCarried(p: Pump) {
    && |p.gateOut| <= |p.asked|
    && |p.gateOut| <= |p.gateIn|
    && forall i :: 0 <= i < |p.gateOut| ==> Carried(p.gateIn[i], p.asked[i], p.gateOut[i])
  }

  predicate ConnectPcInv(s: State) {
    && (s.up.pc.AskConnect? ==> s.up.pc.p.ConnectPacket? && s.session == Credentials(s.up.pc.p))
    && (s.up.pc.CopyBack? ==>
          && |s.up.asked| == |s.up.gateIn| == |s.up.gateOut| + 1
          && s.up.gateIn[|s.up.gateOut|].ConnectPacket?
          && s.up.asked[|s.up.gateOut|] == Some(AuthConnect(Credentials(s.up.gateIn[|s.up.gateOut|]), s.session)))
  }

  predicate CredentialInv(s: State) {
    AllCarried(s.up) && ConnectPcInv(s)
  }

  lemma UpCredentialStep(cfg: Config, s: State, e: Event)
    requires PumpInv(cfg, Up, s.up) && CredentialInv(s) && Enabled(s, e) && Actor(e) == Some(Up)
    ensures CredentialInv(Apply(cfg, s, e))
  {
    var q := NextPump(cfg, Up, s.up, e, s.session, NextSession(s, e));
    StagesGrow(cfg, Up, s.up, e, s.session, NextSession(s, e));
    if |q.gateOut| > |s.up.gateOut| {
      ClearedStep(cfg, Up, s.up, e, s.session, NextSession(s, e));
      CarriedStep(cfg, s, e);
    }
    CarriedExtend(s.up, q);
    ConnectPcStep(cfg, s, e);
  }

  lemma CarriedExtend(p: Pump, q: Pump)
    requires AllCarried(p)
    requires p.gateIn <= q.gateIn && p.asked <= q.asked && p.gateOut <= q.gateOut && |q.gateOut| <= |p.gateOut| + 1
    requires |q.gateOut| > |p.gateOut| ==>
               |q.gateOut| <= |q.asked| && |q.gateOut| <= |q.gateIn|
               && Carried(q.gateIn[|p.gateOut|], q.asked[|p.gateOut|], q.gateOut[|p.gateOut|])
    ensures AllCarried(q)
  {
  }

  lemma CarriedStep(cfg: Config, s: State, e: Event)
    requires CredentialInv(s) && Enabled(s, e) && Actor(e) == Some(Up)
    requires var q := NextPump(cfg, Up, s.up, e, s.session, NextSession(s, e));
             |q.gateOut| > |s.up.gateOut| && JustCleared(Up, s.up, q)
    ensures var q := NextPump(cfg, Up, s.up, e, s.session, NextSession(s, e)); var n := |s.up.gateOut|;
            Carried(q.gateIn[n], q.asked[n], q.gateOut[n])
  {
    if e.CopySession? {
      assert NextSession(s, e) == s.session;
    } else {
      NotAConnect(cfg, s.up, e, s.session, NextSession(s, e));
    }
  }

  lemma NotAConnect(cfg: Config, p: Pump, e: Event, before: Session, after: Session)
    requires Actor(e) == Some(Up) && Ready(Up, p.pc, e) && !e.CopySession?
    requires var q := NextPump(cfg, Up, p, e, before, after); |q.gateOut| > |p.gateOut| && JustCleared(Up, p, q)
    ensures !NextPump(cfg, Up, p, e, before, after).gateIn[|p.gateOut|].ConnectPacket?
  {
  }

  /** Only these two steps lead into the middle of a CONNECT. */
  lemma IntoConnect(cfg: Config, p: Pump, e: Event, before: Session, after: Session)
    requires Actor(e) == Some(Up) && Ready(Up, p.pc, e)
    ensures var q := NextPump(cfg, Up, p, e, before, after);
            && (q.pc.AskConnect? ==> e.StoreSession? && q.pc.p == p.pc.p)
            && (q.pc.CopyBack? ==>
                  e.ConnectAnswer? && q.gateIn == p.gateIn && q.gateOut == p.gateOut
                  && q.asked == p.asked + [Some(AuthConnect(before, e.session))])
  {
  }

  lemma ConnectPcStep(cfg: Config, s: State, e: Event)
    requires PumpInv(cfg, Up, s.up) && CredentialInv(s) && Enabled(s, e) && Actor(e) == Some(Up)
    ensures ConnectPcInv(Apply(cfg, s, e))
  {
    IntoConnect(cfg, s.up, e, s.session, NextSession(s, e));
    PumpAfter(cfg, s, e, Up);
    assert Apply(cfg, s, e).session == NextSession(s, e);
  }

  lemma QuietStep(cfg: Config, s: State, e: Event)
    requires Enabled(s, e) && Actor(e) != Some(Up)
    requires ForeignCall(e) ==> NextSession(s, e) == s.session
    ensures Apply(cfg, s, e).up == s.up && Apply(cfg, s, e).session == s.session
  {
  }

  /** Calls that leave the session alone let every CONNECT leave with AuthConnect's credentials. */
  lemma {:induction false} QuietHooksCarry(rule: SessionRule, cfg: Config, es: seq<Event>)
    requires forall a, b :: rule(a, b) ==> a == b
    requires Exec(cfg, INIT, es).Some? && Obeys(rule, cfg, es)
    ensures CredentialInv(Exec(cfg, INIT, es).value)
  {
    if es != [] {
      var s := Exec(cfg, INIT, es[..|es| - 1]).value;
      QuietHooksCarry(rule, cfg, es[..|es| - 1]);
      InvAlong(cfg, INIT, es[..|es| - 1]);
      if Actor(es[|es| - 1]) == Some(Up) {
        UpCredentialStep(cfg, s, es[|es| - 1]);
      } else {
        QuietStep(cfg, s, es[|es| - 1]);
      }
    }
  }

  // ---------- The other direction: a run that goes wrong ----------

  lemma ObeyExtend(rule: SessionRule, es: seq<Event>, s: State, e: Event) returns (es': seq<Event>, t: State)
    requires Exec(PLAIN, INIT, es) == Some(s) && Enabled(s, e) && Obeys(rule, PLAIN, es)
    requires ForeignCall(e) ==> rule(s.session, NextSession(s, e))
    ensures t == Apply(PLAIN, s, e)
    ensures Exec(PLAIN, INIT, es') == Some(t) && Obeys(rule, PLAIN, es')
  {
    ExecExtend(PLAIN, INIT, es, e);
    es', t := es + [e], Apply(PLAIN, s, e);
    assert es'[..|es|] == es;
  }

  const CONNECT := ConnectPacket("", "", [], [])
  const MESSAGE := PublishPacket("", [], [])

  /** The Up pump holds a CONNECT and the Down pump a message for the client. */
  lemma BothRead(rule: SessionRule) returns (es: seq<Event>, t: State)
    ensures Exec(PLAIN, INIT, es) == Some(t) && Obeys(rule, PLAIN, es)
    ensures t.up == IDLE_PUMP.(recv := [CONNECT], pc := Gate(CONNECT)) && t.down.pc == Gate(MESSAGE)
  {
    es, t := ObeyExtend(rule, [], INIT, ReadOk(Down, MESSAGE));
    es, t := ObeyExtend(rule, es, t, ReadOk(Up, CONNECT));
  }

  /** AuthConnect has left session a, and the Down pump is about to ask about its message. */
  lemma ConnectAccepted(rule: SessionRule, a: Session) returns (es: seq<Event>, t: State)
    ensures Exec(PLAIN, INIT, es) == Some(t) && Obeys(rule, PLAIN, es)
    ensures t.session == a && t.up.pc == CopyBack(CONNECT) && t.down.pc == Gate(MESSAGE)
    ensures t.up.gateIn == [CONNECT] && t.up.gateOut == []
    ensures t.up.asked == [Some(AuthConnect(Credentials(CONNECT), a))]
  {
    es, t := BothRead(rule);
    es, t := ObeyExtend(rule, es, t, StoreSession);
    es, t := ObeyExtend(rule, es, t, ConnectAnswer(Accept, a));
  }

  /** A Down hook that turns session a into b between AuthConnect and the copy makes the
      broker get b. */
  lemma NoisyHookLeaks(rule: SessionRule, a: Session, b: Session) returns (es: seq<Event>, t: State)
    requires rule(a, b) && a != b
    ensures Exec(PLAIN, INIT, es) == Some(t) && Obeys(rule, PLAIN, es)
    ensures !AllCarried(t.up)
  {
    es, t := ConnectAccepted(rule, a);
    es, t := ObeyExtend(rule, es, t, SubscribeAnswer(Down, Accept, [], b));
    es, t := ObeyExtend(rule, es, t, CopySession);
    assert !Carried(t.up.gateIn[0], t.up.asked[0], t.up.gateOut[0]);
  }

  ghost predicate Run(rule: SessionRule, cfg: Config, es: seq<Event>) {
    Exec(cfg, INIT, es).Some? && Obeys(rule, cfg, es)
  }

  /** Every CONNECT of every run is forwarded with the credentials AuthConnect left exactly
      when no hook or interceptor called by another thread may change the session. */
  lemma CredentialsCarriedExactlyWhen(rule: SessionRule)
    ensures (forall cfg, es :: Run(rule, cfg, es) ==> AllCarried(Exec(cfg, INIT, es).value.up))
       <==> (forall a, b :: rule(a, b) ==> a == b)
  {
    if forall a, b :: rule(a, b) ==> a == b {
      forall cfg, es | Run(rule, cfg, es)
        ensures AllCarried(Exec(cfg, INIT, es).value.up)
      {
        QuietHooksCarry(rule, cfg, es);
      }
    } else {
      var a, b :| rule(a, b) && a != b;
      var es, t := NoisyHookLeaks(rule, a, b);
      assert Run(rule, PLAIN, es);
    }
  }
}
