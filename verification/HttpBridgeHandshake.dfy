/**
 The handshake of the bridge: the hooks `handleWebSocket` asks before it dials, as
 theorems about every run and as the method itself.
*/
module HttpBridgeHandshake {
  import opened Results
  import opened HttpBridge

  /** The three calls, all accepted. */
  function Welcome(topic: string): seq<Hello> {
    [AuthConnect(true), AuthSubscribe(topic, true), Subscribe(topic, true)]
  }

  /** The calls up to a refusal by number i. */
  function RefusedAt(topic: string, i: nat): seq<Hello>
    requires i < 3
  {
    Welcome(topic)[..i] + [Welcome(topic)[i].(ok := false)]
  }

  predicate Unopened(s: State) {
    !s.targetOpen && !s.inOpen && s.up.pc.Idle? && s.down.pc.Idle?
  }

  predicate WasRefused(topic: string, s: State) {
    Unopened(s)
    && (s.hellos == RefusedAt(topic, 0) || s.hellos == RefusedAt(topic, 1) || s.hellos == RefusedAt(topic, 2))
  }

  /** What the three hooks have answered, by where the handshake is. */
  predicate HelloInv(topic: string, s: State) {
    s.topic == topic &&
    match s.main
    case Connecting => Unopened(s) && s.hellos == []
    case CheckingSubscribe => Unopened(s) && s.hellos == Welcome(topic)[..1]
    case Subscribing => Unopened(s) && s.hellos == Welcome(topic)[..2]
    case Finished => s.hellos == Welcome(topic) || WasRefused(topic, s)
    case _ => s.hellos == Welcome(topic)
  }

  lemma HelloStep(topic: string, s: State, e: Event)
    requires HelloInv(topic, s) && LifeInv(s) && Enabled(s, e)
    ensures HelloInv(topic, Apply(s, e))
  {
  }

  lemma {:induction false} HelloAlong(topic: string, es: seq<Event>)
    requires Exec(Init(topic), es).Some?
    ensures HelloInv(topic, Exec(Init(topic), es).value)
  {
    if es != [] {
      HelloAlong(topic, es[..|es| - 1]);
      InvAlong(topic, Init(topic), es[..|es| - 1]);
      HelloStep(topic, Exec(Init(topic), es[..|es| - 1]).value, es[|es| - 1]);
    }
  }

  /** Every point of a run is reached, and the calls are only added to. */
  lemma {:induction false} HellosGrow(topic: string, es: seq<Event>, k: nat)
    requires Exec(Init(topic), es).Some? && k <= |es|
    ensures Exec(Init(topic), es[..k]).Some?
    ensures Exec(Init(topic), es[..k]).value.hellos <= Exec(Init(topic), es).value.hellos
  {
    if k < |es| {
      HellosGrow(topic, es[..|es| - 1], k);
      assert es[..|es| - 1][..k] == es[..k];
    } else {
      assert es[..k] == es;
    }
  }

  /** No connection is opened and no pump starts before AuthConnect, AuthSubscribe and Subscribe
      have been called, once each and in this order, and have accepted. */
  lemma HooksBeforeDial(topic: string, s: State)
    requires Reachable(topic, s) && !Unopened(s)
    ensures s.hellos == [AuthConnect(true), AuthSubscribe(topic, true), Subscribe(topic, true)]
  {
    var es :| Exec(Init(topic), es) == Some(s);
    HelloAlong(topic, es);
  }

  /** A session that one of the three refuses is over, after the accepted calls before it, and
      at no point of its run was a connection open or a pump started. */
  lemma RefusedNeverOpens(topic: string, es: seq<Event>, i: nat, k: nat)
    requires Exec(Init(topic), es).Some? && i < |Exec(Init(topic), es).value.hellos| && k <= |es|
    requires !Exec(Init(topic), es).value.hellos[i].ok
    ensures var s := Exec(Init(topic), es).value;
            s.main.Finished? && i < 3 && s.hellos == RefusedAt(topic, i) && s.unsubscribes == 0
    ensures Exec(Init(topic), es[..k]).Some? && Unopened(Exec(Init(topic), es[..k]).value)
  {
    HelloAlong(topic, es);
    InvAlong(topic, Init(topic), es);
    HellosGrow(topic, es, k);
    HelloAlong(topic, es[..k]);
  }

  // ---------- The start of `handleWebSocket` ----------

  /** What the hooks, the dial and the upgrade answer. */
  datatype World = World(
    authConnect: bool, authSubscribe: string -> bool, subscribe: string -> bool, dial: bool, upgrade: bool)

  lemma Extend(topic: string, es: seq<Event>, s: State, ok: bool) returns (es': seq<Event>, t: State)
    requires Exec(Init(topic), es) == Some(s) && Enabled(s, Handshake(ok))
    ensures Exec(Init(topic), es') == Some(t) && t == Apply(s, Handshake(ok))
  {
    es', t := es + [Handshake(ok)], Apply(s, Handshake(ok));
    assert es'[..|es|] == es;
  }

  /** The calls it makes are those of a run of the bridge, which has started the pumps exactly
      when the method goes on to do so and is over otherwise. */
  method HandleWebSocket(topic: string, w: World)
    returns (calls: seq<Hello>, started: bool, ghost es: seq<Event>, ghost t: State)
    ensures Exec(Init(topic), es) == Some(t) && t.hellos == calls
    ensures if started then t.main.Pumping? && t.up.pc.Reading? && t.down.pc.Reading? && t.targetOpen && t.inOpen
            else t.main.Finished? && Unopened(t)
    ensures started <==> w.authConnect && w.authSubscribe(topic) && w.subscribe(topic) && w.dial && w.upgrade
  {
    calls, started, es, t := [], false, [], Init(topic);
    calls := calls + [AuthConnect(w.authConnect)];
    es, t := Extend(topic, es, t, w.authConnect);
    if !w.authConnect {
      return;
    }
    var ok := w.authSubscribe(topic);
    calls := calls + [AuthSubscribe(topic, ok)];
    es, t := Extend(topic, es, t, ok);
    if !ok {
      return;
    }
    ok := w.subscribe(topic);
    calls := calls + [Subscribe(topic, ok)];
    es, t := Extend(topic, es, t, ok);
    if !ok {
      return;
    }
    es, t := Extend(topic, es, t, w.dial);
    if !w.dial {
      return;
    }
    es, t := Extend(topic, es, t, w.upgrade);
    started := w.upgrade;
  }
}
