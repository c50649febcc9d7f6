/**
 The message gate of pkg/coap/coap.go: which datagrams `handleCoAPMessage` accepts,
 which hooks it calls, and what the DTLS and the UDP proxy forward.

 Decoding is an oracle: a datagram comes with the message it decodes to, if any,
 and with what the handler would answer.
*/
module CoapGate {
  import opened Results

  type Bytes = seq<bv8>

  datatype Code = GET | POST | OtherCode

  /** `query` is the first Uri-Query option. A body is absent, unreadable or a payload. */
  datatype Message = Message(
    code: Code, query: Option<string>, path: Option<string>, body: Option<Option<Bytes>>, observe: Option<nat>)

  const START_OBSERVE := 0

  /** AuthPublish may rewrite the path and payload it is given. */
  datatype Answers = Answers(
    connect: bool,
    authPublish: bool, pathLeft: string, payloadLeft: Bytes, publish: bool,
    authSubscribe: bool, subscribe: bool)

  datatype Hook =
    | AuthConnect(key: string)
    | AuthPublish(path: string, payload: Bytes)
    | Publish(path: string, payload: Bytes)
    | AuthSubscribe(path: string)
    | Subscribe(path: string)

  // ---------- The key ----------

  function Split(s: string): (parts: seq<string>)
    ensures |parts| > 0
  {
    if s == [] then [[]]
    else
      var rest := Split(s[1..]);
      if s[0] == '=' then [[]] + rest else [[s[0]] + rest[0]] + rest[1..]
  }

  function Join(parts: seq<string>): string
    requires |parts| > 0
  {
    if |parts| == 1 then parts[0] else parts[0] + "=" + Join(parts[1..])
  }

  lemma {:induction false} SplitJoins(s: string)
    ensures Join(Split(s)) == s
    ensures forall i :: 0 <= i < |Split(s)| ==> '=' !in Split(s)[i]
  {
    if s != [] {
      SplitJoins(s[1..]);
      var rest := Split(s[1..]);
      assert s == [s[0]] + s[1..];
      if s[0] == '=' {
        assert Split(s)[1..] == rest;
      } else if |rest| > 1 {
        assert Split(s)[1..] == rest[1..];
      }
    }
  }

  lemma {:induction false} SplitKeyless(s: string)
    requires '=' !in s
    ensures Split(s) == [s]
  {
    if s != [] {
      SplitKeyless(s[1..]);
      assert s == [s[0]] + s[1..];
    }
  }

  lemma {:induction false} SplitAt(a: string, b: string)
    requires '=' !in a && '=' !in b
    ensures Split(a + "=" + b) == [a, b]
  {
    var s := a + "=" + b;
    if a == [] {
      assert s[1..] == b;
      SplitKeyless(b);
    } else {
      assert s[1..] == a[1..] + "=" + b;
      SplitAt(a[1..], b);
      assert a == [a[0]] + a[1..];
    }
  }

  function ParseKey(query: string): string {
    var vars := Split(query);
    if |vars| != 2 || vars[0] != "auth" then "" else vars[1]
  }

  /** A query gives a key exactly when it is "auth=" followed by the key and nothing more;
      any other query gives the empty key, not an error. */
  lemma KeyExactlyWhen(query: string, key: string)
    requires key != ""
    ensures ParseKey(query) == key <==> query == "auth" + "=" + key && '=' !in key
  {
    SplitJoins(query);
    var vars := Split(query);
    if |vars| == 2 {
      assert Join(vars[1..]) == vars[1];
    }
    if query == "auth" + "=" + key && '=' !in key {
      SplitAt("auth", key);
    }
  }

  // ---------- The hooks ----------

  /** The hook calls a well-formed message needs, in order, and the answer to each. */
  function Needed(m: Message, h: Answers): seq<(Hook, bool)>
    requires WellFormed(m)
  {
    var path := if m.path.Some? then m.path.value else "";
    var payload := if m.body.Some? && m.body.value.Some? then m.body.value.value else [];
    match m.code
    case OtherCode => []
    case POST =>
      [(AuthConnect(ParseKey(m.query.value)), h.connect),
       (AuthPublish(path, payload), h.authPublish),
       (Publish(h.pathLeft, h.payloadLeft), h.publish)]
    case GET =>
      [(AuthConnect(ParseKey(m.query.value)), h.connect)] +
      if m.observe == Some(START_OBSERVE) then [(AuthSubscribe(path), h.authSubscribe), (Subscribe(path), h.subscribe)]
      else []
  }

  /** GET and POST need a query, a path, and a body that can be read if there is one. */
  predicate WellFormed(m: Message) {
    m.code.OtherCode? || (m.query.Some? && m.path.Some? && (m.body.Some? ==> m.body.value.Some?))
  }

  predicate Accepted(decoded: Option<Message>, h: Answers) {
    decoded.Some? && WellFormed(decoded.value)
    && forall i :: 0 <= i < |Needed(decoded.value, h)| ==> Needed(decoded.value, h)[i].1
  }

  /** `calls` asks for what is needed, in order, and stops after the first refusal. */
  predicate AskedInOrder(needed: seq<(Hook, bool)>, calls: seq<Hook>) {
    && |calls| <= |needed|
    && (forall i :: 0 <= i < |calls| ==> calls[i] == needed[i].0)
    && (forall i :: 0 <= i < |calls| - 1 ==> needed[i].1)
    && (|calls| < |needed| ==> |calls| > 0 && !needed[|calls| - 1].1)
  }

  method HandleCoAPMessage(decoded: Option<Message>, h: Answers) returns (ok: bool, calls: seq<Hook>)
    ensures ok <==> Accepted(decoded, h)
    ensures decoded.Some? && WellFormed(decoded.value) ==> AskedInOrder(Needed(decoded.value, h), calls)
    ensures !(decoded.Some? && WellFormed(decoded.value)) ==> calls == []
  {
    calls := [];
    if decoded.None? {
      return false, calls;
    }
    var msg := decoded.value;
    if msg.code != POST && msg.code != GET {
      return true, calls;
    }
    if msg.query.None? {
      return false, calls;
    }
    var authKey := ParseKey(msg.query.value);
    if msg.path.None? {
      return false, calls;
    }
    var path := msg.path.value;
    var payload := [];
    if msg.body.Some? {
      if msg.body.value.None? {
        return false, calls;
      }
      payload := msg.body.value.value;
    }
    ghost var needed := Needed(msg, h);
    calls := calls + [AuthConnect(authKey)];
    assert calls[0] == needed[0].0;
    if !h.connect {
      assert !needed[0].1;
      return false, calls;
    }
    match msg.code {
      case POST =>
        calls := calls + [AuthPublish(path, payload)];
        path, payload := h.pathLeft, h.payloadLeft;
        if !h.authPublish {
          assert !needed[1].1;
          return false, calls;
        }
        calls := calls + [Publish(path, payload)];
        if !h.publish {
          assert !needed[2].1;
          return false, calls;
        }
      case GET =>
        if msg.observe.Some? {
          if msg.observe.value == START_OBSERVE {
            calls := calls + [AuthSubscribe(path)];
            if !h.authSubscribe {
              assert !needed[1].1;
              return false, calls;
            }
            calls := calls + [Subscribe(path)];
            if !h.subscribe {
              assert !needed[2].1;
              return false, calls;
            }
          }
        }
    }
    return true, calls;
  }

  /** What is accepted, code by code: anything that is neither GET nor POST; a POST or GET that
      has a query and a path, and a body that can be read or none, if its hooks accept. */
  lemma AcceptedExactlyWhen(m: Message, h: Answers)
    ensures m.code.OtherCode? ==> Accepted(Some(m), h)
    ensures var readable := m.query != None && m.path != None && m.body != Some(None);
            && (m.code.POST? ==>
                  (Accepted(Some(m), h) <==> readable && h.connect && h.authPublish && h.publish))
            && (m.code.GET? ==>
                  (Accepted(Some(m), h) <==>
                     readable && h.connect && (m.observe == Some(0) ==> h.authSubscribe && h.subscribe)))
  {
    if !m.code.OtherCode? && WellFormed(m) {
      var needed := Needed(m, h);
      assert needed[0].1 == h.connect;
      assert m.code.POST? ==> needed[1].1 == h.authPublish && needed[2].1 == h.publish;
      assert m.code.GET? && |needed| > 1 ==> needed[1].1 == h.authSubscribe && needed[2].1 == h.subscribe;
    }
  }

  /** An accepted POST was asked about three times, in this order; an accepted request to
      observe as well; any other accepted GET once; each with the key of its query. */
  lemma AcceptedIsAuthorized(m: Message, h: Answers, calls: seq<Hook>)
    requires Accepted(Some(m), h) && AskedInOrder(Needed(m, h), calls)
    ensures !m.code.OtherCode? ==> h.connect
    ensures m.code.POST? ==>
              h.authPublish && h.publish
              && calls == [AuthConnect(ParseKey(m.query.value)),
                           AuthPublish(m.path.value, if m.body.Some? then m.body.value.value else []),
                           Publish(h.pathLeft, h.payloadLeft)]
    ensures m.code.GET? && m.observe == Some(START_OBSERVE) ==>
              h.authSubscribe && h.subscribe
              && calls == [AuthConnect(ParseKey(m.query.value)), AuthSubscribe(m.path.value), Subscribe(m.path.value)]
    ensures m.code.GET? && m.observe != Some(START_OBSERVE) ==> calls == [AuthConnect(ParseKey(m.query.value))]
    ensures m.code.OtherCode? ==> calls == []
  {
    var needed := Needed(m, h);
    assert |calls| == |needed|;
    assert needed != [] ==> needed[0].1;
    assert |needed| == 3 ==> needed[1].1 && needed[2].1;
  }

  // ---------- DTLS and UDP ----------

  /** A datagram of a client, and whether the server socket takes it. */
  datatype Arrival = Arrival(data: Bytes, decoded: Option<Message>, answers: Answers, written: bool)

  predicate Passes(a: Arrival) {
    Accepted(a.decoded, a.answers) && a.written
  }

  /** How many of the first datagrams pass without a gap. */
  function Streak(arrivals: seq<Arrival>): (n: nat)
    ensures n <= |arrivals|
    ensures forall i :: 0 <= i < n ==> Passes(arrivals[i])
    ensures n < |arrivals| ==> !Passes(arrivals[n])
  {
    if arrivals == [] || !Passes(arrivals[0]) then 0 else 1 + Streak(arrivals[1..])
  }

  /** The data of the datagrams that pass, in order. */
  function Passing(arrivals: seq<Arrival>): seq<Bytes> {
    if arrivals == [] then []
    else
      var a := arrivals[|arrivals| - 1];
      Passing(arrivals[..|arrivals| - 1]) + if Passes(a) then [a.data] else []
  }

  /** `dtlsUp`: the first datagram that is refused or cannot be written ends the session. */
  method DtlsUp(arrivals: seq<Arrival>) returns (forwarded: seq<Bytes>)
    ensures |forwarded| == Streak(arrivals)
    ensures forall i :: 0 <= i < |forwarded| ==> forwarded[i] == arrivals[i].data
  {
    forwarded := [];
    for i := 0 to |arrivals|
      invariant |forwarded| == i <= Streak(arrivals)
      invariant forall k :: 0 <= k < i ==> forwarded[k] == arrivals[k].data
    {
      var ok, _ := HandleCoAPMessage(arrivals[i].decoded, arrivals[i].answers);
      if !ok {
        return;
      }
      if !arrivals[i].written {
        return;
      }
      forwarded := forwarded + [arrivals[i].data];
    }
  }

  /** `proxyUDP` and `upUDP`: a refused datagram is answered and the loop goes on. */
  method ProxyUdp(arrivals: seq<Arrival>) returns (forwarded: seq<Bytes>)
    ensures forwarded == Passing(arrivals)
  {
    forwarded := [];
    for i := 0 to |arrivals|
      invariant forwarded == Passing(arrivals[..i])
    {
      assert arrivals[..i + 1][..i] == arrivals[..i];
      var ok, _ := HandleCoAPMessage(arrivals[i].decoded, arrivals[i].answers);
      if ok && arrivals[i].written {
        forwarded := forwarded + [arrivals[i].data];
      }
    }
    assert arrivals[..|arrivals|] == arrivals;
  }

  function Data(arrivals: seq<Arrival>): (ds: seq<Bytes>)
    ensures |ds| == |arrivals| && forall i :: 0 <= i < |ds| ==> ds[i] == arrivals[i].data
  {
    seq(|arrivals|, i requires 0 <= i < |arrivals| => arrivals[i].data)
  }

  lemma {:induction false} PassingConcat(a: seq<Arrival>, b: seq<Arrival>)
    ensures Passing(a + b) == Passing(a) + Passing(b)
  {
    if b == [] {
      assert a + b == a;
    } else {
      assert (a + b)[..|a + b| - 1] == a + b[..|b| - 1];
      PassingConcat(a, b[..|b| - 1]);
    }
  }

  lemma {:induction false} AllPass(a: seq<Arrival>)
    requires forall i :: 0 <= i < |a| ==> Passes(a[i])
    ensures Passing(a) == Data(a)
  {
    if a != [] {
      AllPass(a[..|a| - 1]);
    }
  }

  lemma {:induction false} NonePass(a: seq<Arrival>)
    ensures Passing(a) == [] <==> forall i :: 0 <= i < |a| ==> !Passes(a[i])
  {
    if a != [] {
      var pre := a[..|a| - 1];
      NonePass(pre);
      assert forall i :: 0 <= i < |pre| ==> pre[i] == a[i];
      if Passing(a) == [] {
        forall i | 0 <= i < |a| ensures !Passes(a[i]) {
          assert i < |pre| ==> !Passes(pre[i]);
        }
      }
    }
  }

  lemma NonePassAfter(a: seq<Arrival>, n: nat)
    requires n <= |a|
    ensures Passing(a[n..]) == [] <==> forall i :: n <= i < |a| ==> !Passes(a[i])
  {
    NonePass(a[n..]);
    if Passing(a[n..]) == [] {
      forall i | n <= i < |a| ensures !Passes(a[i]) {
        assert a[i] == a[n..][i - n];
      }
    }
  }

  /** For the same datagrams and answers, DTLS forwards a prefix of what UDP forwards, and
      as much as UDP exactly when nothing passes after the first datagram that does not. */
  lemma DtlsAgainstUdp(arrivals: seq<Arrival>)
    ensures var n := Streak(arrivals);
            && Data(arrivals[..n]) <= Passing(arrivals)
            && (Data(arrivals[..n]) == Passing(arrivals) <==> forall i :: n <= i < |arrivals| ==> !Passes(arrivals[i]))
  {
    var n := Streak(arrivals);
    assert arrivals == arrivals[..n] + arrivals[n..];
    PassingConcat(arrivals[..n], arrivals[n..]);
    AllPass(arrivals[..n]);
    NonePassAfter(arrivals, n);
  }
}
