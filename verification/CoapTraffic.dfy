/**
 What the sockets of the CoAP proxy carry, read off the run alone: which datagrams
 were judged acceptable and written, what each server sent, who was refused. The
 logs in the state hold exactly that, over every run.
*/
module CoapTraffic {
  import opened Results
  import opened CoapTable

  /** The datagrams read from clients. */
  function Arrivals(es: seq<Event>): seq<(Addr, Datagram)> {
    if es == [] then []
    else
      var e := es[|es| - 1];
      Arrivals(es[..|es| - 1]) + if e.Receive? then [(e.from, e.data)] else []
  }

  /** Has the last datagram to arrive been judged acceptable? */
  predicate JudgedGood(es: seq<Event>) {
    es != [] && (es[|es| - 1] == Judge(true) || (JudgedGood(es[..|es| - 1]) && !es[|es| - 1].Receive?))
  }

  /** The datagrams that were judged acceptable and then written to a server, numbered in
      order of arrival, with their clients. */
  function Forwards(es: seq<Event>): seq<(Addr, Uplink)> {
    if es == [] then []
    else
      var pre, e := es[..|es| - 1], es[|es| - 1];
      var n := |Arrivals(pre)|;
      Forwards(pre) +
      if e == WriteServer(true) && JudgedGood(pre) && n > 0 then
        [(Arrivals(pre)[n - 1].0, Uplink(n - 1, Arrivals(pre)[n - 1].1))]
      else []
  }

  function Of(a: Addr, forwards: seq<(Addr, Uplink)>): seq<Uplink> {
    if forwards == [] then []
    else
      var f := forwards[|forwards| - 1];
      Of(a, forwards[..|forwards| - 1]) + if f.0 == a then [f.1] else []
  }

  /** The clients whose datagrams were refused. */
  function Refusals(es: seq<Event>): seq<Addr> {
    if es == [] then []
    else
      var pre, e := es[..|es| - 1], es[|es| - 1];
      Refusals(pre) + if e == Judge(false) && Arrivals(pre) != [] then [Arrivals(pre)[|Arrivals(pre)| - 1].0] else []
  }

  /** What the server sent to connection id, and how much of it was written to the client. */
  function Replies(es: seq<Event>, id: nat): seq<Datagram> {
    if es == [] then []
    else
      var e := es[|es| - 1];
      Replies(es[..|es| - 1], id) + if e.ReadOk? && e.id == id then [e.data] else []
  }

  function Deliveries(es: seq<Event>, id: nat): nat {
    if es == [] then 0
    else Deliveries(es[..|es| - 1], id) + if es[|es| - 1] == Deliver(id, true) then 1 else 0
  }

  /** All that was written to server sockets opened for address a, older sockets first. */
  function ToServers(conns: seq<Conn>, a: Addr): seq<Uplink> {
    if conns == [] then []
    else
      var c := conns[|conns| - 1];
      ToServers(conns[..|conns| - 1], a) + if c.addr == a then c.toServer else []
  }

  // ---------- Invariants ----------

  /** No connection for the address of connection id is newer. */
  predicate Latest(conns: seq<Conn>, id: nat) {
    id < |conns| && forall i :: id < i < |conns| ==> conns[i].addr != conns[id].addr
  }

  predicate LatestInv(s: State) {
    && (forall a :: a in s.table ==> Latest(s.conns, s.table[a]))
    && (s.main.Judging? || s.main.Forwarding? ==> Latest(s.conns, s.main.id))
  }

  /** The server has been written to exactly when the reader has been started, or is about to be. */
  predicate StartInv(s: State, id: nat)
    requires id < |s.conns|
  {
    && (s.conns[id].started ==> |s.conns[id].toServer| > 0)
    && (|s.conns[id].toServer| > 0 ==> s.conns[id].started || s.main == Starting(id))
    && (s.main == Starting(id) ==> |s.conns[id].toServer| > 0)
  }

  /** The trace of the main goroutine's part of the run. */
  predicate MainTrace(es: seq<Event>, s: State) {
    && s.received == Arrivals(es)
    && (s.main.Forwarding? ==> JudgedGood(es))
    && |s.refusals| == |Refusals(es)|
    && (forall i :: 0 <= i < |s.refusals| ==> s.refusals[i].0 == Refusals(es)[i])
  }

  ghost predicate UplinkTrace(es: seq<Event>, s: State) {
    forall a :: ToServers(s.conns, a) == Of(a, Forwards(es))
  }

  // ---------- Every step keeps them ----------

  lemma LatestStep(s: State, e: Event)
    requires Inv(s) && LatestInv(s) && Enabled(s, e)
    ensures LatestInv(Apply(s, e))
  {
    ConnsStep(s, e);
    var t := Apply(s, e);
    forall a | a in t.table
      ensures Latest(t.conns, t.table[a])
    {
      if e == Dial(true) && a == s.main.from {
        assert t.table[a] == |s.conns| && |t.conns| == |s.conns| + 1;
      } else {
        assert a in s.table && t.table[a] == s.table[a];
        LatestStays(s, e, s.table[a]);
      }
    }
    if t.main.Judging? || t.main.Forwarding? {
      if e.Dial? || e.Find? {
        assert t.main.from in t.table && t.table[t.main.from] == t.main.id;
      } else {
        LatestStays(s, e, s.main.id);
      }
    }
  }

  /** A new connection is made only for an address without an open one. */
  lemma LatestStays(s: State, e: Event, id: nat)
    requires Inv(s) && Enabled(s, e) && Latest(s.conns, id)
    requires e == Dial(true) ==> s.main.from != s.conns[id].addr
    ensures Latest(Apply(s, e).conns, id)
  {
    ConnsStep(s, e);
    var cs := NextConns(s, e);
    assert |cs| == |s.conns| + if e == Dial(true) then 1 else 0;
  }

  lemma StartStep(s: State, e: Event, id: nat)
    requires Enabled(s, e) && id < |NextConns(s, e)| && (id < |s.conns| ==> StartInv(s, id))
    requires s.main.Starting? ==> s.main.id < |s.conns|
    ensures StartInv(Apply(s, e), id)
  {
  }

  lemma MainTraceStep(es: seq<Event>, s: State, e: Event)
    requires MainInv(s) && MainTrace(es, s) && Enabled(s, e)
    ensures MainTrace(es + [e], Apply(s, e))
  {
    assert (es + [e])[..|es|] == es;
  }

  lemma {:induction false} ToServersWritten(conns: seq<Conn>, id: nat, u: Uplink, a: Addr)
    requires Latest(conns, id)
    ensures ToServers(conns[id := conns[id].(toServer := conns[id].toServer + [u])], a)
         == ToServers(conns, a) + if conns[id].addr == a then [u] else []
  {
    var n, c := |conns| - 1, conns[id];
    var written := conns[id := c.(toServer := c.toServer + [u])];
    if id == n {
      assert written[..n] == conns[..n];
    } else {
      assert conns[..n][id] == c && written[..n] == conns[..n][id := written[id]];
      ToServersWritten(conns[..n], id, u, a);
    }
  }

  lemma {:induction false} ToServersKept(conns: seq<Conn>, conns': seq<Conn>, a: Addr)
    requires |conns'| == |conns|
    requires forall i :: 0 <= i < |conns| ==>
               conns'[i].addr == conns[i].addr && conns'[i].toServer == conns[i].toServer
    ensures ToServers(conns', a) == ToServers(conns, a)
  {
    if conns != [] {
      ToServersKept(conns[..|conns| - 1], conns'[..|conns| - 1], a);
    }
  }

  lemma ToServersDialled(conns: seq<Conn>, b: Addr, a: Addr)
    ensures ToServers(conns + [NewConn(b)], a) == ToServers(conns, a)
  {
    assert (conns + [NewConn(b)])[..|conns|] == conns;
  }

  lemma ForwardsMore(es: seq<Event>, e: Event, a: Addr)
    ensures var n := |Arrivals(es)|;
            Of(a, Forwards(es + [e])) == Of(a, Forwards(es)) +
              if e == WriteServer(true) && JudgedGood(es) && n > 0 && Arrivals(es)[n - 1].0 == a then
                [Uplink(n - 1, Arrivals(es)[n - 1].1)]
              else []
  {
    assert (es + [e])[..|es|] == es;
    var fs, more := Forwards(es), Forwards(es + [e]);
    if more != fs {
      assert more == fs + [more[|fs|]];
      assert more[..|fs|] == fs;
    }
  }

  lemma UplinkTraceStep(es: seq<Event>, s: State, e: Event)
    requires Inv(s) && LatestInv(s) && MainTrace(es, s) && UplinkTrace(es, s) && Enabled(s, e)
    ensures UplinkTrace(es + [e], Apply(s, e))
  {
    forall a
      ensures ToServers(Apply(s, e).conns, a) == Of(a, Forwards(es + [e]))
    {
      assert Apply(s, e).conns == NextConns(s, e);
      UplinkTraceFor(es, s, e, a);
    }
  }

  lemma UplinkTraceFor(es: seq<Event>, s: State, e: Event, a: Addr)
    requires MainInv(s) && LatestInv(s) && MainTrace(es, s) && Enabled(s, e)
    requires ToServers(s.conns, a) == Of(a, Forwards(es))
    ensures ToServers(NextConns(s, e), a) == Of(a, Forwards(es + [e]))
  {
    ForwardsMore(es, e, a);
    if e == WriteServer(true) {
      ToServersWritten(s.conns, s.main.id, Uplink(Current(s), s.main.data), a);
    } else if e == Dial(true) {
      ToServersDialled(s.conns, s.main.from, a);
    } else {
      NothingWritten(s, e);
      ToServersKept(s.conns, NextConns(s, e), a);
    }
  }

  lemma NothingWritten(s: State, e: Event)
    requires Enabled(s, e) && e != WriteServer(true) && e != Dial(true)
    ensures var cs := NextConns(s, e);
            |cs| == |s.conns|
            && forall i :: 0 <= i < |cs| ==> cs[i].addr == s.conns[i].addr && cs[i].toServer == s.conns[i].toServer
  {
  }

  ghost predicate TraceInv(es: seq<Event>, s: State) {
    && Inv(s) && LatestInv(s) && MainTrace(es, s) && UplinkTrace(es, s)
    && forall id :: 0 <= id < |s.conns| ==> StartInv(s, id)
  }

  lemma TraceStep(es: seq<Event>, s: State)
    requires es != [] && TraceInv(es[..|es| - 1], s) && Enabled(s, es[|es| - 1])
    ensures TraceInv(es, Apply(s, es[|es| - 1]))
  {
    var pre, e := es[..|es| - 1], es[|es| - 1];
    assert pre + [e] == es;
    InvStep(s, e);
    LatestStep(s, e);
    MainTraceStep(pre, s, e);
    UplinkTraceStep(pre, s, e);
    forall id | 0 <= id < |Apply(s, e).conns|
      ensures StartInv(Apply(s, e), id)
    {
      StartStep(s, e, id);
    }
  }

  lemma {:induction false} TraceAlong(es: seq<Event>)
    requires Exec(INIT, es).Some?
    ensures TraceInv(es, Exec(INIT, es).value)
  {
    if es == [] {
      assert TraceInv(es, INIT);
    } else {
      TraceAlong(es[..|es| - 1]);
      TraceStep(es, Exec(INIT, es[..|es| - 1]).value);
    }
  }

  // ---------- Theorems ----------

  /** What was written to the sockets opened for a client is exactly what the run judged
      acceptable and managed to write of that client's datagrams, in order, once each. */
  lemma UplinkIsExact(es: seq<Event>, a: Addr)
    requires Exec(INIT, es).Some?
    ensures ToServers(Exec(INIT, es).value.conns, a) == Of(a, Forwards(es))
  {
    TraceAlong(es);
  }

  /** A connection that has carried a datagram to the server has a reader, or the main goroutine
      is about to start it; without one it gets none. */
  lemma ReaderFollowsWrite(es: seq<Event>, id: nat)
    requires Exec(INIT, es).Some? && id < |Exec(INIT, es).value.conns|
    ensures var s := Exec(INIT, es).value;
            && (|s.conns[id].toServer| > 0 ==> s.conns[id].started || s.main == Starting(id))
            && (s.conns[id].started ==> |s.conns[id].toServer| > 0)
  {
    TraceAlong(es);
    assert StartInv(Exec(INIT, es).value, id);
  }

  /** Exactly the clients whose datagrams were refused are told so, each for its own. */
  lemma RefusalsAreExact(es: seq<Event>)
    requires Exec(INIT, es).Some?
    ensures var s := Exec(INIT, es).value;
            |s.refusals| == |Refusals(es)|
            && forall i :: 0 <= i < |s.refusals| ==> s.refusals[i] == (Refusals(es)[i], Refusals(es)[i])
  {
    TraceAlong(es);
  }

  /** A reader gets exactly what its server sent, and its client exactly as many of these as
      there were successful writes: with at most the last one missing. */
  lemma {:induction false} DownlinkIsExact(es: seq<Event>, id: nat)
    requires Exec(INIT, es).Some? && id < |Exec(INIT, es).value.conns|
    ensures var c := Exec(INIT, es).value.conns[id];
            && c.got == Replies(es, id) && |c.delivered| == Deliveries(es, id)
            && forall i :: 0 <= i < |c.delivered| ==> i < |c.got| && c.delivered[i] == (c.addr, c.got[i])
  {
    LogsAlong(es, id);
    InvAlong(INIT, es);
    var c := Exec(INIT, es).value.conns[id];
    assert ConnInv(c);
    assert forall i :: 0 <= i < |c.delivered| ==> Payloads(c.delivered)[i] == c.got[i];
  }

  lemma {:induction false} LogsAlong(es: seq<Event>, id: nat)
    requires Exec(INIT, es).Some?
    ensures var cs := Exec(INIT, es).value.conns;
            if id < |cs| then cs[id].got == Replies(es, id) && |cs[id].delivered| == Deliveries(es, id)
            else Replies(es, id) == [] && Deliveries(es, id) == 0
  {
    if es != [] {
      LogsAlong(es[..|es| - 1], id);
      LogsStep(Exec(INIT, es[..|es| - 1]).value, es[|es| - 1], id);
    }
  }

  lemma LogsStep(s: State, e: Event, id: nat)
    requires Enabled(s, e)
    ensures var cs := NextConns(s, e);
            && |s.conns| <= |cs|
            && (id < |s.conns| ==>
                  && cs[id].got == s.conns[id].got + (if e.ReadOk? && e.id == id then [e.data] else [])
                  && |cs[id].delivered| == |s.conns[id].delivered| + (if e == Deliver(id, true) then 1 else 0))
            && (|s.conns| <= id ==> !(e.ReadOk? && e.id == id) && e != Deliver(id, true))
            && (|s.conns| <= id < |cs| ==> cs[id].got == [] && cs[id].delivered == [])
  {
  }

  /** After a failed read from the clients no datagram is taken any more, whatever the readers
      still do: nothing is dialled, written to a server or refused. */
  lemma {:induction false} StoppedIsSilent(s: State, es: seq<Event>, id: nat)
    requires s.main.Stopped? && Exec(s, es).Some?
    ensures var t := Exec(s, es).value;
            && t.main.Stopped? && t.received == s.received && t.refusals == s.refusals && |t.conns| == |s.conns|
            && (id < |s.conns| ==> t.conns[id].toServer == s.conns[id].toServer
                                   && t.conns[id].readers == s.conns[id].readers)
  {
    if es != [] {
      StoppedIsSilent(s, es[..|es| - 1], id);
    }
  }
}
