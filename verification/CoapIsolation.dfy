/** Theorems about every run of the CoAP connection table. */
module CoapIsolation {
  import opened Results
  import opened CoapTable

  /** The table is the set of open server sockets, each under its own client's address:
      sockets opened minus sockets closed is the number of entries. */
  lemma TableIsTheOpenSockets(s: State, a: Addr, id: nat)
    requires Reachable(s)
    ensures a in s.table && s.table[a] == id <==> id < |s.conns| && s.conns[id].open && s.conns[id].addr == a
    ensures s.dials - s.closes == |s.table| && s.dials == |s.conns|
  {
    InvReachable(s);
  }

  /** closeConn knows only an address, but what it removes is its own connection's entry,
      and it leaves every other entry alone. */
  lemma CloseRemovesItsOwnEntry(s: State, id: nat)
    requires Reachable(s) && Enabled(s, Close(id))
    ensures var a := s.conns[id].addr; var t := Apply(s, Close(id));
            && a in s.table && s.table[a] == id && s.conns[id].open
            && a !in t.table && !t.conns[id].open
            && (forall b :: b in s.table && b != a ==> b in t.table && t.table[b] == s.table[b])
            && (forall b :: b in t.table ==> b in s.table)
  {
    InvReachable(s);
  }

  /** A connection number keeps its address, its starts are never undone, and its number of
      readers and its server socket only move forward. */
  lemma {:induction false} ConnHistory(s: State, es: seq<Event>, id: nat)
    requires Exec(s, es).Some? && id < |s.conns|
    ensures var t := Exec(s, es).value;
            && id < |t.conns| && t.conns[id].addr == s.conns[id].addr
            && (s.conns[id].started ==> t.conns[id].started && t.conns[id].readers == s.conns[id].readers)
            && (s.conns[id].reader.Gone? && s.conns[id].started ==> t.conns[id].reader.Gone?)
            && (!s.conns[id].open ==> !t.conns[id].open)
  {
    if es != [] {
      ConnHistory(s, es[..|es| - 1], id);
    }
  }

  /** A connection gets at most one reader in its life, and a closed connection never gets
      one: it has had it. */
  lemma OneReader(s: State, id: nat)
    requires Reachable(s) && id < |s.conns|
    ensures s.conns[id].readers <= 1
    ensures !s.conns[id].open ==> s.conns[id].started && s.conns[id].readers == 1
    ensures Enabled(s, Start) && s.main.id == id && !s.conns[id].started ==> s.conns[id].open
  {
    InvReachable(s);
    assert ConnInv(s.conns[id]);
  }

  /** closeConn runs at most once for a connection, however the run goes on. */
  lemma ClosedOnce(s: State, id: nat, es: seq<Event>)
    requires Reachable(s) && Enabled(s, Close(id)) && Exec(Apply(s, Close(id)), es).Some?
    ensures var t := Exec(Apply(s, Close(id)), es).value;
            id < |t.conns| && !t.conns[id].open && !Enabled(t, Close(id))
  {
    InvReachable(s);
    assert ConnInv(s.conns[id]);
    ConnHistory(Apply(s, Close(id)), es, id);
  }

  // ---------- Connections that lose their reader but not their entry ----------

  /** Is there a goroutine reading from the server socket of c? */
  predicate Live(c: Conn) {
    c.reader.Arming? || c.reader.Reading? || c.reader.Delivering? || c.reader.Closing?
  }

  /** In this run the reader of id has returned because SetReadDeadline or the write to the
      client failed. */
  predicate AbandonedIn(es: seq<Event>, id: nat) {
    exists i :: 0 <= i < |es| && (es[i] == Arm(id, false) || es[i] == Deliver(id, false))
  }

  lemma AbandonedMore(es: seq<Event>, e: Event, id: nat)
    ensures AbandonedIn(es + [e], id) <==> AbandonedIn(es, id) || e == Arm(id, false) || e == Deliver(id, false)
  {
    if AbandonedIn(es, id) {
      var i :| 0 <= i < |es| && (es[i] == Arm(id, false) || es[i] == Deliver(id, false));
      assert (es + [e])[i] == es[i];
    }
    assert (es + [e])[|es|] == e;
  }

  lemma {:induction false} LeftExactlyWhen(es: seq<Event>, id: nat)
    requires Exec(INIT, es).Some? && id < |Exec(INIT, es).value.conns|
    ensures Exec(INIT, es).value.conns[id].reader.Left? <==> AbandonedIn(es, id)
  {
    if es != [] {
      var pre, e := es[..|es| - 1], es[|es| - 1];
      InvAlong(INIT, pre);
      assert es == pre + [e];
      AbandonedMore(pre, e, id);
      if id < |Exec(INIT, pre).value.conns| {
        LeftExactlyWhen(pre, id);
        assert ConnInv(Exec(INIT, pre).value.conns[id]);
        LeftStep(Exec(INIT, pre).value, e, id);
      } else {
        NothingBeforeDial(pre, id);
      }
    }
  }

  lemma LeftStep(s: State, e: Event, id: nat)
    requires Enabled(s, e) && id < |s.conns| && ConnInv(s.conns[id])
    ensures NextConns(s, e)[id].reader.Left?
       <==> s.conns[id].reader.Left? || e == Arm(id, false) || e == Deliver(id, false)
  {
  }

  lemma {:induction false} NothingBeforeDial(es: seq<Event>, id: nat)
    requires Exec(INIT, es).Some? && id >= |Exec(INIT, es).value.conns|
    ensures !AbandonedIn(es, id)
  {
    if es != [] {
      var pre, e := es[..|es| - 1], es[|es| - 1];
      NothingBeforeDial(pre, id);
      assert es == pre + [e];
    }
  }

  /** An entry of the table that has been started has no live reader exactly when that
      reader left by one of the two returns of downUDP that do not call closeConn. */
  lemma StrandedExactlyWhen(es: seq<Event>, a: Addr)
    requires Exec(INIT, es).Some? && a in Exec(INIT, es).value.table
    ensures var s := Exec(INIT, es).value; var id := s.table[a];
            && id < |s.conns|
            && (s.conns[id].started && !Live(s.conns[id]) <==> AbandonedIn(es, id))
  {
    InvAlong(INIT, es);
    var s := Exec(INIT, es).value;
    assert ConnInv(s.conns[s.table[a]]);
    LeftExactlyWhen(es, s.table[a]);
  }

  /** Between s and t no connection for address a was dialled, and nothing was written to the
      client there by a reader, whichever connection it read from. */
  ghost predicate Silent(s: State, t: State, a: Addr) {
    forall id :: 0 <= id < |t.conns| && t.conns[id].addr == a ==>
      id < |s.conns| && s.conns[id].addr == a && t.conns[id].delivered == s.conns[id].delivered
  }

  /** Such an entry stays for ever: its socket stays open, no reader comes back, no other
      connection for this address is ever made, and nothing that a server sends, to this
      connection or an older one, is delivered to that client any more. */
  lemma {:induction false} StrandedForever(s: State, es: seq<Event>, a: Addr)
    requires Inv(s) && a in s.table && s.conns[s.table[a]].reader.Left?
    requires Exec(s, es).Some?
    ensures var t := Exec(s, es).value; var id := s.table[a];
            && Inv(t) && Silent(s, t, a)
            && a in t.table && t.table[a] == id && t.conns[id].open
            && t.conns[id].reader.Left? && t.conns[id].readers == s.conns[id].readers
  {
    if es != [] {
      StrandedForever(s, es[..|es| - 1], a);
      var t, e := Exec(s, es[..|es| - 1]).value, es[|es| - 1];
      assert ConnInv(t.conns[s.table[a]]);
      assert e.Close? ==> ConnInv(t.conns[e.id]);
      InvStep(t, e);
      StrandedStep(t, e, a);
      SilentStep(t, e, a);
    }
  }

  /** The older connections for the address are closed and their readers gone. */
  lemma SilentStep(s: State, e: Event, a: Addr)
    requires Inv(s) && Enabled(s, e) && a in s.table && s.conns[s.table[a]].reader.Left?
    ensures Silent(s, Apply(s, e), a)
  {
    var cs := NextConns(s, e);
    assert Apply(s, e).conns == cs;
    forall id | 0 <= id < |cs| && cs[id].addr == a
      ensures id < |s.conns| && s.conns[id].addr == a && cs[id].delivered == s.conns[id].delivered
    {
      ConnHere(s, e, id);
      if id < |s.conns| {
        assert ConnInv(s.conns[id]);
      }
    }
  }

  /** What a step does to connection id: only a reader at Delivering delivers, and a new
      connection is one for an address without an entry. */
  lemma ConnHere(s: State, e: Event, id: nat)
    requires Enabled(s, e) && id < |NextConns(s, e)|
    ensures var c := NextConns(s, e)[id];
            if id < |s.conns| then
              c.addr == s.conns[id].addr && (c.delivered == s.conns[id].delivered || s.conns[id].reader.Delivering?)
            else c.addr !in s.table
  {
  }

  lemma StrandedStep(s: State, e: Event, a: Addr)
    requires TableInv(s.conns, s.table) && a in s.table && s.conns[s.table[a]].reader.Left? && Enabled(s, e)
    requires ConnInv(s.conns[s.table[a]]) && (e.Close? ==> s.conns[e.id].open)
    ensures var cs, table := NextConns(s, e), NextTable(s, e); var id := s.table[a];
            && a in table && table[a] == id && id < |cs| && cs[id].open
            && cs[id].reader.Left? && cs[id].readers == s.conns[id].readers
  {
    if e.Close? {
      assert s.conns[e.id].addr != a;
    }
  }

  // ---------- Isolation ----------

  /** Over whole runs, across closes and new connections for the same address: a client's
      datagrams reach only a server socket opened for it, and only the accepted ones, once
      and in order; the client is sent exactly what was read from that socket, in order and
      with at most the last datagram missing, and only the client that is refused is told so. */
  lemma ClientsAreIsolated(s: State, id: nat)
    requires Reachable(s) && id < |s.conns|
    ensures var c := s.conns[id];
            && UplinkInv(s.received, s.accepted, c, |s.received|)
            && (forall i :: 0 <= i < |c.delivered| ==> c.delivered[i].0 == c.addr)
            && Payloads(c.delivered) <= c.got && |c.got| <= |c.delivered| + 1
    ensures forall i :: 0 <= i < |s.refusals| ==> s.refusals[i].0 == s.refusals[i].1
  {
    InvReachable(s);
    assert ConnInv(s.conns[id]);
  }
}
