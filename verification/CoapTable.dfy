/**
 The UDP side of the CoAP proxy, pkg/coap/coap.go, as a transition system: one
 goroutine takes datagrams from clients, one reader goroutine for each started
 connection takes datagrams from its server socket, and both use the table of
 connections under the proxy's mutex.

 A step is one blocking call or one critical section. Connections are numbered in
 the order in which their server sockets were dialled; the number stands for the
 identity of the `Conn` object, the table knows only the address.
*/
module CoapTable {
  import opened Results

  type Addr = string
  type Datagram = seq<bv8>

  /** A reader goroutine; `Left` has returned without closeConn, `Gone` after it. */
  datatype Reader = NotStarted | Arming | Reading | Delivering(data: Datagram) | Closing | Left | Gone

  /** A datagram written to a server socket, and which of the datagrams received it is. */
  datatype Uplink = Uplink(n: nat, data: Datagram)

  datatype Conn = Conn(
    addr: Addr,
    open: bool,                          // is the server socket open?
    started: bool,
    reader: Reader,
    readers: nat,                        // goroutines ever started for this connection
    toServer: seq<Uplink>,               // written to the server socket
    got: seq<Datagram>,                  // read from the server socket
    delivered: seq<(Addr, Datagram)>)    // written to clients by the reader

  datatype Main =
    | Listening
    | Admitting(from: Addr, data: Datagram)
    | Judging(from: Addr, data: Datagram, id: nat)
    | Forwarding(from: Addr, data: Datagram, id: nat)
    | Starting(id: nat)
    | Stopped

  datatype State = State(
    main: Main,
    conns: seq<Conn>,
    table: map<Addr, nat>,
    received: seq<(Addr, Datagram)>,     // every datagram read from clients
    accepted: set<nat>,                  // those handleCoAPMessage let through
    dials: nat, closes: nat,            // server sockets opened and closed so far
    refusals: seq<(Addr, Addr)>)         // client refused, client told so

  const INIT := State(Listening, [], map[], [], {}, 0, 0, [])

  datatype Event =
    | Receive(from: Addr, data: Datagram)
    | ReceiveFail                        // or the listener's context has ended
    | Find                               // newConn finds an entry
    | Dial(ok: bool)                     // newConn finds none
    | Judge(ok: bool)                    // handleCoAPMessage
    | WriteServer(ok: bool)
    | Start                              // the compare-and-swap
    | Arm(id: nat, ok: bool)             // SetReadDeadline
    | ReadOk(id: nat, data: Datagram)
    | ReadFail(id: nat)
    | Deliver(id: nat, ok: bool)
    | Close(id: nat)                     // closeConn

  predicate Enabled(s: State, e: Event) {
    match e
    case Receive(_, _) => s.main.Listening?
    case ReceiveFail => s.main.Listening?
    case Find => s.main.Admitting? && s.main.from in s.table
    case Dial(_) => s.main.Admitting? && s.main.from !in s.table
    case Judge(_) => s.main.Judging? && s.main.id < |s.conns|
    case WriteServer(ok) => s.main.Forwarding? && s.main.id < |s.conns| && (ok ==> s.conns[s.main.id].open)
    case Start => s.main.Starting? && s.main.id < |s.conns|
    case Arm(id, _) => id < |s.conns| && s.conns[id].reader.Arming?
    case ReadOk(id, _) => id < |s.conns| && s.conns[id].reader.Reading? && s.conns[id].open
    case ReadFail(id) => id < |s.conns| && s.conns[id].reader.Reading?
    case Deliver(id, _) => id < |s.conns| && s.conns[id].reader.Delivering?
    case Close(id) => id < |s.conns| && s.conns[id].reader.Closing?
  }

  /** Connection c after a step of its reader, or a write or start by the main goroutine while
      it handles datagram number n. */
  function NextConn(c: Conn, main: Main, n: nat, e: Event): Conn {
    match e
    case WriteServer(true) => if main.Forwarding? then c.(toServer := c.toServer + [Uplink(n, main.data)]) else c
    case Start => if c.started then c else c.(started := true, reader := Arming, readers := c.readers + 1)
    case Arm(_, ok) => c.(reader := if ok then Reading else Left)
    case ReadOk(_, data) => c.(got := c.got + [data], reader := Delivering(data))
    case ReadFail(_) => c.(reader := Closing)
    case Deliver(_, ok) =>
      if ok && c.reader.Delivering? then
        c.(delivered := c.delivered + [(c.addr, c.reader.data)], reader := Arming)
      else c.(reader := Left)
    case Close(_) => c.(open := false, reader := Gone)
    case _ => c
  }

  /** The connection step e is about. */
  function Subject(s: State, e: Event): Option<nat> {
    match e
    case WriteServer(_) => if s.main.Forwarding? then Some(s.main.id) else None
    case Start => if s.main.Starting? then Some(s.main.id) else None
    case Arm(id, _) => Some(id)
    case ReadOk(id, _) => Some(id)
    case ReadFail(id) => Some(id)
    case Deliver(id, _) => Some(id)
    case Close(id) => Some(id)
    case _ => None
  }

  /** The number of the datagram in hand. */
  function Current(s: State): nat {
    if s.received == [] then 0 else |s.received| - 1
  }

  function NextMain(s: State, e: Event): Main
    requires Enabled(s, e)
  {
    match e
    case Receive(from, data) => Admitting(from, data)
    case ReceiveFail => Stopped
    case Find => Judging(s.main.from, s.main.data, s.table[s.main.from])
    case Dial(ok) => if ok then Judging(s.main.from, s.main.data, |s.conns|) else Listening
    case Judge(ok) => if ok then Forwarding(s.main.from, s.main.data, s.main.id) else Listening
    case WriteServer(ok) => if ok then Starting(s.main.id) else Listening
    case Start => Listening
    case _ => s.main
  }

  function NewConn(addr: Addr): Conn {
    Conn(addr, true, false, NotStarted, 0, [], [], [])
  }

  function NextConns(s: State, e: Event): seq<Conn>
    requires Enabled(s, e)
  {
    match Subject(s, e)
    case Some(id) => s.conns[id := NextConn(s.conns[id], s.main, Current(s), e)]
    case None => if e == Dial(true) then s.conns + [NewConn(s.main.from)] else s.conns
  }

  function NextTable(s: State, e: Event): map<Addr, nat>
    requires Enabled(s, e)
  {
    if e == Dial(true) then s.table[s.main.from := |s.conns|]
    else if e.Close? then s.table - {s.conns[e.id].addr}
    else s.table
  }

  function Apply(s: State, e: Event): State
    requires Enabled(s, e)
  {
    State(NextMain(s, e), NextConns(s, e), NextTable(s, e),
          s.received + (if e.Receive? then [(e.from, e.data)] else []),
          s.accepted + (if e == Judge(true) then {Current(s)} else {}),
          s.dials + (if e == Dial(true) then 1 else 0),
          s.closes + (if e.Close? then 1 else 0),
          s.refusals + (if e == Judge(false) then [(s.main.from, s.conns[s.main.id].addr)] else []))
  }

  /** The state after the steps es from s, or None if es is not a possible run from s. */
  function Exec(s: State, es: seq<Event>): Option<State> {
    if es == [] then Some(s)
    else
      var r := Exec(s, es[..|es| - 1]);
      if r.Some? && Enabled(r.value, es[|es| - 1]) then Some(Apply(r.value, es[|es| - 1])) else None
  }

  ghost predicate Reachable(s: State) {
    exists es :: Exec(INIT, es) == Some(s)
  }

  lemma Extend(s: State, es: seq<Event>, t: State, e: Event) returns (es': seq<Event>, u: State)
    requires Exec(s, es) == Some(t) && Enabled(t, e)
    ensures u == Apply(t, e) && Exec(s, es') == Some(u) && es' == es + [e]
  {
    es', u := es + [e], Apply(t, e);
    assert es'[..|es|] == es;
  }

  /** A run followed by a run. */
  lemma {:induction false} ExecConcat(s: State, es: seq<Event>, fs: seq<Event>)
    requires Exec(s, es).Some?
    ensures Exec(s, es + fs) == Exec(Exec(s, es).value, fs)
  {
    if fs == [] {
      assert es + fs == es;
    } else {
      ExecConcat(s, es, fs[..|fs| - 1]);
      assert (es + fs)[..|es + fs| - 1] == es + fs[..|fs| - 1];
    }
  }

  // ---------- Invariants ----------

  function Payloads(ds: seq<(Addr, Datagram)>): (r: seq<Datagram>)
    ensures |r| == |ds| && forall i :: 0 <= i < |ds| ==> r[i] == ds[i].1
  {
    seq(|ds|, i requires 0 <= i < |ds| => ds[i].1)
  }

  predicate ConnInv(c: Conn) {
    && (c.open <==> !c.reader.Gone?)
    && (c.started <==> !c.reader.NotStarted?)
    && c.readers == (if c.started then 1 else 0)
    && (forall i :: 0 <= i < |c.delivered| ==> c.delivered[i].0 == c.addr)
    && (match c.reader
        case Delivering(data) => c.got == Payloads(c.delivered) + [data]
        case Left => Payloads(c.delivered) <= c.got && |c.got| <= |c.delivered| + 1
        case _ => c.got == Payloads(c.delivered))
  }

  /** The table holds exactly the open connections, each under its own address. */
  predicate TableInv(conns: seq<Conn>, table: map<Addr, nat>) {
    && (forall a :: a in table ==> table[a] < |conns| && conns[table[a]].addr == a && conns[table[a]].open)
    && (forall id :: 0 <= id < |conns| && conns[id].open ==>
          conns[id].addr in table && table[conns[id].addr] == id)
  }

  /** The datagram in hand is the last one received. */
  predicate InHand(s: State, from: Addr, data: Datagram) {
    |s.received| > 0 && s.received[|s.received| - 1] == (from, data)
  }

  predicate MainInv(s: State) {
    match s.main
    case Admitting(from, data) => InHand(s, from, data)
    case Judging(from, data, id) => InHand(s, from, data) && id < |s.conns| && s.conns[id].addr == from
    case Forwarding(from, data, id) =>
      InHand(s, from, data) && id < |s.conns| && s.conns[id].addr == from && Current(s) in s.accepted
    case Starting(id) => id < |s.conns|
    case _ => true
  }

  /** Everything written to the server socket of c came from c's client, was accepted, and was
      written once and in the order in which it arrived; all of it arrived before number n. */
  predicate UplinkInv(received: seq<(Addr, Datagram)>, accepted: set<nat>, c: Conn, n: nat) {
    && (forall i :: 0 <= i < |c.toServer| ==>
          var u := c.toServer[i];
          u.n < n && u.n < |received| && received[u.n] == (c.addr, u.data) && u.n in accepted)
    && (forall i, j :: 0 <= i < j < |c.toServer| ==> c.toServer[i].n < c.toServer[j].n)
  }

  /** How many datagrams may have been written to servers so far. */
  function Handled(s: State): nat {
    if s.main.Admitting? || s.main.Judging? || s.main.Forwarding? then Current(s) else |s.received|
  }

  predicate UplinksInv(s: State) {
    forall id :: 0 <= id < |s.conns| ==> UplinkInv(s.received, s.accepted, s.conns[id], Handled(s))
  }

  predicate Counted(s: State) {
    s.dials == |s.conns| && s.dials == s.closes + |s.table|
  }

  predicate Inv(s: State) {
    && (forall id :: 0 <= id < |s.conns| ==> ConnInv(s.conns[id]))
    && TableInv(s.conns, s.table)
    && Counted(s)
    && MainInv(s)
    && UplinksInv(s)
    && (forall i :: 0 <= i < |s.refusals| ==> s.refusals[i].0 == s.refusals[i].1)
  }

  lemma ConnStep(c: Conn, main: Main, n: nat, e: Event)
    requires ConnInv(c)
    requires e.Arm? ==> c.reader.Arming?
    requires e.ReadOk? || e.ReadFail? ==> c.reader.Reading?
    requires e.Deliver? ==> c.reader.Delivering?
    requires e.Close? ==> c.reader.Closing?
    ensures ConnInv(NextConn(c, main, n, e))
    ensures NextConn(c, main, n, e).addr == c.addr
    ensures !e.Close? ==> NextConn(c, main, n, e).open == c.open
  {
    var d := NextConn(c, main, n, e);
    if e.Deliver? && e.ok {
      assert Payloads(d.delivered) == Payloads(c.delivered) + [c.reader.data];
    }
  }

  lemma SubjectStep(s: State, e: Event)
    requires Inv(s) && Enabled(s, e) && Subject(s, e).Some?
    ensures var id := Subject(s, e).value; var d := NextConn(s.conns[id], s.main, Current(s), e);
            ConnInv(d) && d.addr == s.conns[id].addr && (e != Close(id) ==> d.open == s.conns[id].open)
  {
    var id := Subject(s, e).value;
    assert ConnInv(s.conns[id]);
    ConnStep(s.conns[id], s.main, Current(s), e);
  }

  lemma ConnsStep(s: State, e: Event)
    requires Inv(s) && Enabled(s, e)
    ensures var cs := NextConns(s, e);
            && (forall id :: 0 <= id < |cs| ==> ConnInv(cs[id]))
            && |s.conns| <= |cs|
            && forall id :: 0 <= id < |s.conns| ==>
                 cs[id].addr == s.conns[id].addr && (e != Close(id) ==> cs[id].open == s.conns[id].open)
  {
    match Subject(s, e)
    case Some(id) =>
      SubjectStep(s, e);
      assert NextConns(s, e) == s.conns[id := NextConn(s.conns[id], s.main, Current(s), e)];
    case None =>
      assert s.conns <= NextConns(s, e);
  }

  lemma UplinkStep(s: State, e: Event, c: Conn)
    requires MainInv(s) && Enabled(s, e) && UplinkInv(s.received, s.accepted, c, Handled(s))
    requires e.WriteServer? ==> s.main.from == c.addr
    ensures var t := Apply(s, e); UplinkInv(t.received, t.accepted, NextConn(c, s.main, Current(s), e), Handled(t))
  {
  }

  lemma UplinkFrame(s: State, e: Event, c: Conn)
    requires MainInv(s) && Enabled(s, e) && UplinkInv(s.received, s.accepted, c, Handled(s))
    ensures var t := Apply(s, e); UplinkInv(t.received, t.accepted, c, Handled(t))
  {
  }

  lemma UplinksStep(s: State, e: Event)
    requires MainInv(s) && UplinksInv(s) && Enabled(s, e)
    ensures UplinksInv(Apply(s, e))
  {
    var t := Apply(s, e);
    forall id | 0 <= id < |t.conns|
      ensures UplinkInv(t.received, t.accepted, t.conns[id], Handled(t))
    {
      if id < |s.conns| {
        assert UplinkInv(s.received, s.accepted, s.conns[id], Handled(s));
        if Subject(s, e) == Some(id) {
          UplinkStep(s, e, s.conns[id]);
        } else {
          UplinkFrame(s, e, s.conns[id]);
        }
      }
    }
  }

  lemma TableSizes(table: map<Addr, nat>, a: Addr, id: nat)
    ensures a in table ==> |table - {a}| == |table| - 1
    ensures a !in table ==> |table[a := id]| == |table| + 1
  {
    assert (table - {a}).Keys == table.Keys - {a};
    assert table[a := id].Keys == table.Keys + {a};
  }

  lemma CloseTable(conns: seq<Conn>, table: map<Addr, nat>, id: nat, c: Conn)
    requires TableInv(conns, table) && id < |conns| && conns[id].open && !c.open
    ensures TableInv(conns[id := c], table - {conns[id].addr})
  {
  }

  lemma DialTable(conns: seq<Conn>, table: map<Addr, nat>, a: Addr)
    requires TableInv(conns, table) && a !in table
    ensures TableInv(conns + [NewConn(a)], table[a := |conns|])
  {
    var conns', table' := conns + [NewConn(a)], table[a := |conns|];
    forall id | 0 <= id < |conns'| && conns'[id].open
      ensures conns'[id].addr in table' && table'[conns'[id].addr] == id
    {
      if id < |conns| {
        assert conns'[id] == conns[id] && conns[id].addr in table;
      }
    }
  }

  lemma SameTable(conns: seq<Conn>, conns': seq<Conn>, table: map<Addr, nat>)
    requires TableInv(conns, table) && |conns'| == |conns|
    requires forall id :: 0 <= id < |conns| ==> conns'[id].addr == conns[id].addr && conns'[id].open == conns[id].open
    ensures TableInv(conns', table)
  {
  }

  lemma TableStep(s: State, e: Event)
    requires Inv(s) && Enabled(s, e)
    ensures TableInv(NextConns(s, e), NextTable(s, e))
  {
    if e.Close? {
      assert ConnInv(s.conns[e.id]);
      CloseTable(s.conns, s.table, e.id, NextConn(s.conns[e.id], s.main, Current(s), e));
    } else if e == Dial(true) {
      DialTable(s.conns, s.table, s.main.from);
    } else {
      ConnsStep(s, e);
      SameTable(s.conns, NextConns(s, e), s.table);
    }
  }

  lemma CountStep(s: State, e: Event)
    requires Counted(s) && Enabled(s, e)
    requires e.Close? ==> s.conns[e.id].addr in s.table
    ensures Counted(Apply(s, e))
  {
    if e.Close? {
      TableSizes(s.table, s.conns[e.id].addr, 0);
      assert |NextConns(s, e)| == |s.conns|;
    } else if e == Dial(true) {
      TableSizes(s.table, s.main.from, |s.conns|);
      assert |NextConns(s, e)| == |s.conns| + 1;
    } else {
      assert |NextConns(s, e)| == |s.conns|;
    }
  }

  lemma MainStep(s: State, e: Event)
    requires TableInv(s.conns, s.table) && MainInv(s) && Enabled(s, e)
    requires var cs := NextConns(s, e);
             |s.conns| <= |cs| && forall id :: 0 <= id < |s.conns| ==> cs[id].addr == s.conns[id].addr
    ensures MainInv(Apply(s, e))
  {
    assert e == Dial(true) ==> NextConns(s, e)[|s.conns|] == NewConn(s.main.from);
  }

  lemma InvStep(s: State, e: Event)
    requires Inv(s) && Enabled(s, e)
    ensures Inv(Apply(s, e))
  {
    ConnsStep(s, e);
    UplinksStep(s, e);
    TableStep(s, e);
    assert e.Close? ==> ConnInv(s.conns[e.id]);
    CountStep(s, e);
    MainStep(s, e);
  }

  lemma {:induction false} InvAlong(s: State, es: seq<Event>)
    requires Inv(s) && Exec(s, es).Some?
    ensures Inv(Exec(s, es).value)
  {
    if es != [] {
      InvAlong(s, es[..|es| - 1]);
      InvStep(Exec(s, es[..|es| - 1]).value, es[|es| - 1]);
    }
  }

  lemma InvReachable(s: State)
    requires Reachable(s)
    ensures Inv(s)
  {
    var es :| Exec(INIT, es) == Some(s);
    InvAlong(INIT, es);
  }
}
