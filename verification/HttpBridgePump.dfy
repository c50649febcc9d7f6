/**
 The loop `stream` of pkg/http/ws.go and the goroutine around it in their own form.
 Whatever the hooks and the connections answer, what they do is a run of the bridge in
 which the other pump takes no step.
*/
module HttpBridgePump {
  import opened Results
  import opened HttpBridge

  /** What the outside world does during one pass; a hook leaves a topic and a payload. */
  datatype World = World(
    read: Result<Frame, Cause>,
    authPublish: (string, Payload) -> (bool, string, Payload),
    publish: (string, Payload) -> (bool, string, Payload),
    authSubscribe: string -> bool,
    write: Frame -> bool)

  /** Between s and t only pump d has moved, no connection has been closed, and if its source
      was closed before, n buffered frames have been read. */
  predicate Alone(d: Direction, s: State, t: State, n: nat) {
    && t.upLeft == s.upLeft - (if d == Up && !s.inOpen then n else 0)
    && t.downLeft == s.downLeft - (if d == Down && !s.targetOpen then n else 0)
    && t == if d == Up then s.(up := t.up, upLeft := t.upLeft) else s.(down := t.down, downLeft := t.downLeft)
  }

  /** Can pump d read n more frames? */
  predicate CanRead(d: Direction, s: State, n: nat) {
    if d == Up then s.inOpen || n <= s.upLeft else s.targetOpen || n <= s.downLeft
  }

  lemma Move(d: Direction, s: State, es: seq<Event>, t: State, n: nat, e: Event)
    returns (es': seq<Event>, u: State)
    requires Exec(s, es) == Some(t) && Alone(d, s, t, n) && Enabled(t, e)
    requires match e
             case ReadOk(x, _) => x == d
             case ReadFail(x, _) => x == d
             case AuthPublished(_, _, _) => d == Up
             case Published(_, _, _) => d == Up
             case AuthSubscribed(_) => d == Down
             case Write(x, _) => x == d
             case _ => false
    ensures Exec(s, es') == Some(u) && Alone(d, s, u, n + if e.ReadOk? then 1 else 0)
    ensures u.up == NextUp(t, e) && u.down == NextDown(t, e)
  {
    es', u := es + [e], Apply(t, e);
    assert es'[..|es|] == es;
    assert t.hellos + [] == t.hellos;
  }

  /** `handleStreamErr` */
  method HandleStreamErr(cause: Cause, upstream: bool) returns (err: Option<Cause>)
    ensures err == StreamErr(cause, if upstream then Up else Down)
  {
    if upstream && cause == NormalClose {
      return None;
    }
    if cause == NetClosed {
      return None;
    }
    return Some(cause);
  }

  /** What a pump has done: what it read, the calls it made, what it forwarded, and its end. */
  datatype Trail = Trail(
    got: seq<Frame>, auths: seq<PubCall>, pubs: seq<PubCall>, checks: seq<(string, bool)>, forwarded: seq<Frame>,
    end: Option<Option<Cause>>)

  const NOTHING := Trail([], [], [], [], [], None)

  /** From s, the Up pump alone can get to t, with this topic, and has then done what the trail says. */
  predicate Upstream(s: State, es: seq<Event>, t: State, topic: string, trail: Trail) {
    && Exec(s, es) == Some(t) && Alone(Up, s, t, |trail.got|)
    && t.up == UpPump(if trail.end.Some? then SayingClose(trail.end.value) else t.up.pc, topic,
                      s.up.got + trail.got, s.up.auths + trail.auths, s.up.pubs + trail.pubs,
                      s.up.forwarded + trail.forwarded)
  }

  predicate Downstream(s: State, es: seq<Event>, t: State, trail: Trail) {
    && Exec(s, es) == Some(t) && Alone(Down, s, t, |trail.got|)
    && t.down == DownPump(if trail.end.Some? then SayingClose(trail.end.value) else t.down.pc,
                          s.down.got + trail.got, s.down.checks + trail.checks, s.down.forwarded + trail.forwarded)
  }

  /** One pass upstream. */
  method UpPass(w: World, topic: string, ghost s: State)
    returns (left: string, trail: Trail, ghost es: seq<Event>, ghost t: State)
    requires s.up.pc.Reading? && s.up.topic == topic
    requires (w.read.Ok? ==> CanRead(Up, s, 1)) && (!s.targetOpen ==> forall f :: !w.write(f))
    ensures Upstream(s, es, t, left, trail)
    ensures trail.end.None? ==> t.up.pc.Reading?
    ensures trail.got == if w.read.Ok? then [w.read.value] else []
    ensures w.read.Err? ==> trail.end.Some?
  {
    left, trail, es, t := topic, NOTHING, [], s;
    if w.read.Err? {
      var err := HandleStreamErr(w.read.error, true);
      es, t := Move(Up, s, es, t, 0, ReadFail(Up, w.read.error));
      return left, trail.(end := Some(err)), es, t;
    }
    var f := w.read.value;
    es, t := Move(Up, s, es, t, 0, ReadOk(Up, f));
    trail := trail.(got := [f]);
    var (authOk, topic1, payload1) := w.authPublish(left, f.payload);
    trail := trail.(auths := [PubCall(left, f.payload, topic1, payload1, authOk)]);
    es, t := Move(Up, s, es, t, 1, AuthPublished(authOk, topic1, payload1));
    left := topic1;
    if !authOk {
      return left, trail.(end := Some(Some(REFUSED))), es, t;
    }
    var (pubOk, topic2, payload2) := w.publish(left, payload1);
    trail := trail.(pubs := [PubCall(left, payload1, topic2, payload2, pubOk)]);
    es, t := Move(Up, s, es, t, 1, Published(pubOk, topic2, payload2));
    left := topic2;
    if !pubOk {
      return left, trail.(end := Some(Some(REFUSED))), es, t;
    }
    var message := Frame(f.kind, payload2);
    var ok := w.write(message);
    es, t := Move(Up, s, es, t, 1, Write(Up, ok));
    if !ok {
      return left, trail.(end := Some(Some(Other("write")))), es, t;
    }
    trail := trail.(forwarded := [message]);
  }

  /** One pass downstream. */
  method DownPass(w: World, topic: string, ghost s: State)
    returns (trail: Trail, ghost es: seq<Event>, ghost t: State)
    requires s.down.pc.Reading? && s.topic == topic
    requires (w.read.Ok? ==> CanRead(Down, s, 1)) && (!s.inOpen ==> forall f :: !w.write(f))
    ensures Downstream(s, es, t, trail)
    ensures trail.end.None? ==> t.down.pc.Reading?
    ensures trail.got == if w.read.Ok? then [w.read.value] else []
    ensures w.read.Err? ==> trail.end.Some?
  {
    trail, es, t := NOTHING, [], s;
    if w.read.Err? {
      var err := HandleStreamErr(w.read.error, false);
      es, t := Move(Down, s, es, t, 0, ReadFail(Down, w.read.error));
      return trail.(end := Some(err)), es, t;
    }
    var f := w.read.value;
    es, t := Move(Down, s, es, t, 0, ReadOk(Down, f));
    var ok := w.authSubscribe(topic);
    trail := trail.(got := [f], checks := [(topic, ok)]);
    es, t := Move(Down, s, es, t, 1, AuthSubscribed(ok));
    if !ok {
      return trail.(end := Some(Some(REFUSED))), es, t;
    }
    ok := w.write(f);
    es, t := Move(Down, s, es, t, 1, Write(Down, ok));
    if !ok {
      return trail.(end := Some(Some(Other("write")))), es, t;
    }
    trail := trail.(forwarded := [f]);
  }

  function Add(a: Trail, b: Trail): Trail {
    Trail(a.got + b.got, a.auths + b.auths, a.pubs + b.pubs, a.checks + b.checks, a.forwarded + b.forwarded, b.end)
  }

  lemma AddUp(
    s: State, es: seq<Event>, t: State, topic: string, a: Trail, fs: seq<Event>, u: State, left: string, b: Trail)
    requires Upstream(s, es, t, topic, a) && Upstream(t, fs, u, left, b)
    ensures Upstream(s, es + fs, u, left, Add(a, b))
  {
    ExecConcat(s, es, fs);
    AddSeq(s.up.got, a.got, b.got);
    AddSeq(s.up.auths, a.auths, b.auths);
    AddSeq(s.up.pubs, a.pubs, b.pubs);
    AddSeq(s.up.forwarded, a.forwarded, b.forwarded);
  }

  lemma AddDown(s: State, es: seq<Event>, t: State, a: Trail, fs: seq<Event>, u: State, b: Trail)
    requires Downstream(s, es, t, a) && Downstream(t, fs, u, b)
    ensures Downstream(s, es + fs, u, Add(a, b))
  {
    ExecConcat(s, es, fs);
    AddSeq(s.down.got, a.got, b.got);
    AddSeq(s.down.checks, a.checks, b.checks);
    AddSeq(s.down.forwarded, a.forwarded, b.forwarded);
  }

  lemma AddSeq<T>(a: seq<T>, b: seq<T>, c: seq<T>)
    ensures a + b + c == a + (b + c)
  {
  }

  /** `stream` upstream, for as many passes as the outside world has answers for. */
  method StreamUp(ws: seq<World>, topic: string, ghost s: State)
    returns (left: string, trail: Trail, ghost es: seq<Event>, ghost t: State)
    requires s.up.pc.Reading? && s.up.topic == topic
    requires CanRead(Up, s, |ws|) && (!s.targetOpen ==> forall w, f :: w in ws ==> !w.write(f))
    ensures Upstream(s, es, t, left, trail)
    ensures trail.end.None? ==> t.up.pc.Reading? && |trail.got| == |ws|
  {
    left, trail, es, t := topic, NOTHING, [], s;
    for i := 0 to |ws|
      invariant Upstream(s, es, t, left, trail) && t.up.pc.Reading? && trail.end.None? && |trail.got| == i
    {
      ghost var u, before := t, left;
      assert ws[i] in ws;
      var more;
      ghost var fs;
      left, more, fs, t := UpPass(ws[i], left, u);
      AddUp(s, es, u, before, trail, fs, t, left, more);
      es, trail := es + fs, Add(trail, more);
      if trail.end.Some? {
        return;
      }
    }
  }

  /** `stream` downstream; the topic it checks never changes. */
  method StreamDown(ws: seq<World>, topic: string, ghost s: State)
    returns (trail: Trail, ghost es: seq<Event>, ghost t: State)
    requires s.down.pc.Reading? && s.topic == topic
    requires CanRead(Down, s, |ws|) && (!s.inOpen ==> forall w, f :: w in ws ==> !w.write(f))
    ensures Downstream(s, es, t, trail)
    ensures trail.end.None? ==> t.down.pc.Reading? && |trail.got| == |ws|
  {
    trail, es, t := NOTHING, [], s;
    for i := 0 to |ws|
      invariant Downstream(s, es, t, trail) && t.down.pc.Reading? && trail.end.None? && |trail.got| == i
    {
      ghost var u := t;
      assert ws[i] in ws;
      var more;
      ghost var fs;
      more, fs, t := DownPass(ws[i], topic, u);
      AddDown(s, es, u, trail, fs, t, more);
      es, trail := es + fs, Add(trail, more);
      if trail.end.Some? {
        return;
      }
    }
  }

  /** The end of the goroutine around `stream`: it says goodbye to the destination, closes it and
      returns the error, which cancels the group's context if it is the first. */
  lemma Goodbye(d: Direction, s: State, err: Option<Cause>, left: nat)
    returns (es: seq<Event>, t: State)
    requires s.Pc(d) == SayingClose(err)
    ensures Exec(s, es) == Some(t) && t.Pc(d).Returned?
    ensures if d == Up then !t.targetOpen && t.inOpen == s.inOpen && t.downLeft == left && t.down == s.down
            else !t.inOpen && t.targetOpen == s.targetOpen && t.upLeft == left && t.up == s.up
    ensures t.firstErr == (if s.firstErr.Some? then s.firstErr else err)
    ensures t.cancelled == (s.cancelled || err.Some?)
  {
    var e1, e2 := SayClose(d), Close(d, left);
    var u := Apply(s, e1);
    assert Exec(s, [e1]) == Some(u);
    es, t := [e1, e2], Apply(u, e2);
    assert es[..1] == [e1];
  }
}
