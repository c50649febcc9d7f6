/**
 The UDP proxy of pkg/coap/coap.go on the objects it works on. `newConn`, `closeConn`
 and the compare-and-swap are proved to do to the proxy's table and to the `Conn`
 objects what the corresponding steps do in the module CoapTable; a pass of `proxyUDP`
 with `upUDP`, and the loop `downUDP`, to be runs of it in which no other goroutine
 takes a step, whatever the outside world answers.
*/
module CoapProxy {
  import opened Results
  import opened CoapTable

  class ConnObject {
    const clientAddr: Addr
    var serverOpen: bool
    var started: bool

    constructor (addr: Addr)
      ensures clientAddr == addr && serverOpen && !started
    {
      clientAddr := addr;
      serverOpen, started := true, false;
    }
  }

  /** What the outside world does to one datagram of a client. */
  datatype UpWorld = UpWorld(dial: bool, judge: bool, write: bool)

  /** What becomes of it; `Refused` names who is told, `Forwarded` says whether a reader starts. */
  datatype Outcome = DialFailed | Refused(to: Addr) | NotWritten | Forwarded(starts: bool)

  /** The connection for address a, or the one that would be dialled for it. */
  function ConnFor(s: State, a: Addr): Conn {
    if a in s.table && s.table[a] < |s.conns| then s.conns[s.table[a]] else NewConn(a)
  }

  predicate OthersKept(s: State, t: State, id: nat) {
    |s.conns| <= |t.conns| && forall i :: 0 <= i < |s.conns| && i != id ==> t.conns[i] == s.conns[i]
  }

  /** Between s and t the datagram `data` from address a has had this outcome, and nothing
      else has happened to any connection. */
  predicate Happened(a: Addr, data: Datagram, outcome: Outcome, s: State, t: State) {
    var c := ConnFor(s, a);
    && t.refusals == s.refusals + (if outcome.Refused? then [(a, outcome.to)] else [])
    && if outcome.DialFailed? then t.conns == s.conns && t.table == s.table
       else
         && a in t.table && t.table[a] < |t.conns|
         && OthersKept(s, t, t.table[a])
         && t.conns[t.table[a]] == (
              match outcome
              case Forwarded(_) =>
                c.(toServer := c.toServer + [Uplink(Current(t), data)],
                   started := true,
                   reader := if c.started then c.reader else Arming,
                   readers := c.readers + if c.started then 0 else 1)
              case _ => c)
         && (outcome.Forwarded? ==> (outcome.starts <==> !c.started))
         && (outcome.Refused? ==> outcome.to == a)
  }

  // ---------- The steps of the main goroutine ----------

  lemma ReceivedRun(s: State, from: Addr, data: Datagram) returns (es: seq<Event>, t: State)
    requires s.main.Listening?
    ensures Exec(s, es) == Some(t)
    ensures t == s.(main := Admitting(from, data), received := s.received + [(from, data)])
  {
    es, t := Extend(s, [], s, Receive(from, data));
    assert s.refusals + [] == s.refusals;
  }

  lemma StoppedRun(s: State) returns (es: seq<Event>, t: State)
    requires s.main.Listening?
    ensures Exec(s, es) == Some(t) && t == s.(main := Stopped)
  {
    es, t := Extend(s, [], s, ReceiveFail);
    assert s.received + [] == s.received && s.refusals + [] == s.refusals;
  }

  /** The lookup: after it the table maps the client to the connection in hand, or the dial has
      failed and nothing has changed. */
  lemma LookupRun(s: State, dial: bool) returns (es: seq<Event>, t: State)
    requires s.main.Admitting? && TableInv(s.conns, s.table)
    ensures Exec(s, es) == Some(t) && t == Apply(s, if s.main.from in s.table then Find else Dial(dial))
    ensures t.received == s.received && t.refusals == s.refusals && TableInv(t.conns, t.table)
    ensures var a := s.main.from;
            if a in s.table || dial then
              && a in t.table && t.main == Judging(a, s.main.data, t.table[a])
              && ConnFor(t, a) == ConnFor(s, a) && |s.conns| <= |t.conns|
              && forall i :: 0 <= i < |s.conns| ==> t.conns[i] == s.conns[i]
            else t.main.Listening? && t.conns == s.conns && t.table == s.table
  {
    var e := if s.main.from in s.table then Find else Dial(dial);
    es, t := Extend(s, [], s, e);
    assert s.received + [] == s.received && s.refusals + [] == s.refusals;
    if e == Dial(true) {
      DialTable(s.conns, s.table, s.main.from);
    }
  }

  lemma RefusedRun(s: State) returns (es: seq<Event>, t: State)
    requires s.main.Judging? && s.main.id < |s.conns|
    ensures Exec(s, es) == Some(t)
    ensures t == s.(main := Listening, refusals := s.refusals + [(s.main.from, s.conns[s.main.id].addr)])
  {
    es, t := Extend(s, [], s, Judge(false));
  }

  lemma NotWrittenRun(s: State) returns (es: seq<Event>, t: State)
    requires s.main.Judging? && s.main.id < |s.conns|
    ensures Exec(s, es) == Some(t)
    ensures t == s.(main := Listening, accepted := s.accepted + {Current(s)})
  {
    es, t := Extend(s, [], s, Judge(true));
    assert s.received + [] == s.received && s.refusals + [] == s.refusals;
    assert t == s.(main := Forwarding(s.main.from, s.main.data, s.main.id), accepted := s.accepted + {Current(s)});
    assert s.conns[s.main.id := s.conns[s.main.id]] == s.conns;
    es, t := Extend(s, es, t, WriteServer(false));
  }

  lemma WrittenRun(s: State) returns (es: seq<Event>, t: State)
    requires s.main.Judging? && s.main.id < |s.conns| && s.conns[s.main.id].open
    ensures Exec(s, es) == Some(t)
    ensures var c := s.conns[s.main.id];
            t == s.(main := Starting(s.main.id), accepted := s.accepted + {Current(s)},
                    conns := s.conns[s.main.id := c.(toServer := c.toServer + [Uplink(Current(s), s.main.data)])])
  {
    es, t := Extend(s, [], s, Judge(true));
    assert s.received + [] == s.received && s.refusals + [] == s.refusals;
    assert t == s.(main := Forwarding(s.main.from, s.main.data, s.main.id), accepted := s.accepted + {Current(s)});
    es, t := Extend(s, es, t, WriteServer(true));
  }

  lemma StartedRun(s: State, fs: seq<Event>, u: State, data: Datagram) returns (es: seq<Event>, t: State)
    requires s.main.Judging? && s.main.id < |s.conns| && s.main.data == data
    requires s.main.from in s.table && s.table[s.main.from] == s.main.id
    requires Exec(s, fs) == Some(u)
    requires var c := s.conns[s.main.id];
             u == s.(main := Starting(s.main.id), accepted := s.accepted + {Current(s)},
                     conns := s.conns[s.main.id := c.(toServer := c.toServer + [Uplink(Current(s), s.main.data)])])
    ensures Exec(s, es) == Some(t) && t == Apply(u, Start)
    ensures t.main.Listening? && t.received == s.received
    ensures Happened(s.main.from, data, Forwarded(!s.conns[s.main.id].started), s, t)
  {
    es, t := Extend(s, fs, u, Start);
    assert t.refusals == s.refusals;
  }

  /** The lookup does not count among what happens to the connections. */
  lemma HappenedLater(s: State, u: State, v: State, t: State, from: Addr, data: Datagram, outcome: Outcome)
    requires TableInv(s.conns, s.table)
    requires u == s.(main := Admitting(from, data), received := s.received + [(from, data)])
    requires ConnFor(v, from) == ConnFor(u, from) && v.refusals == u.refusals && v.received == u.received
    requires |u.conns| <= |v.conns| && forall i :: 0 <= i < |u.conns| ==> v.conns[i] == u.conns[i]
    requires t.received == v.received && !outcome.DialFailed? && Happened(from, data, outcome, v, t)
    ensures Happened(from, data, outcome, s, t)
  {
    assert u.conns == s.conns;
    assert OthersKept(s, t, t.table[from]);
  }

  // ---------- The steps of a reader ----------

  lemma ReaderStep(s: State, es: seq<Event>, u: State, id: nat, e: Event) returns (es': seq<Event>, t: State)
    requires Exec(s, es) == Some(u) && id < |u.conns| && Enabled(u, e)
    requires e.Arm? || e.ReadOk? || e.ReadFail? || e.Deliver?
    requires Subject(u, e) == Some(id)
    ensures Exec(s, es') == Some(t)
    ensures t == u.(conns := u.conns[id := NextConn(u.conns[id], u.main, Current(u), e)])
  {
    es', t := Extend(s, es, u, e);
    assert u.received + [] == u.received && u.refusals + [] == u.refusals;
  }

  lemma ClosedRun(s: State, es: seq<Event>, u: State, id: nat) returns (es': seq<Event>, t: State)
    requires Exec(s, es) == Some(u) && id < |u.conns| && Enabled(u, Close(id))
    ensures Exec(s, es') == Some(t)
    ensures t == u.(conns := NextConns(u, Close(id)), table := NextTable(u, Close(id)), closes := u.closes + 1)
    ensures NextConns(u, Close(id)) == u.conns[id := u.conns[id].(open := false, reader := Gone)]
    ensures NextTable(u, Close(id)) == u.table - {u.conns[id].addr}
  {
    es', t := Extend(s, es, u, Close(id));
    assert u.received + [] == u.received && u.refusals + [] == u.refusals;
  }

  /** What the outside world does during one pass of a reader. */
  datatype DownWorld = DownWorld(deadline: bool, read: Option<Datagram>, write: bool)

  /** How a reader stands: it may have returned with or without `closeConn`. */
  datatype ReaderEnd = StillReading | LeftOpen | Closed

  /** Between s and t the reader of connection id has delivered this and ended like this. */
  predicate Served(s: State, t: State, id: nat, delivered: seq<(Addr, Datagram)>, end: ReaderEnd) {
    && id < |s.conns| && |t.conns| == |s.conns|
    && t.conns[id] == s.conns[id].(
         delivered := s.conns[id].delivered + delivered,
         got := t.conns[id].got,
         open := s.conns[id].open && !end.Closed?,
         reader := match end case StillReading => Arming case LeftOpen => Left case Closed => Gone)
    && t.main == s.main && t.received == s.received && t.refusals == s.refusals && t.accepted == s.accepted
    && t.table == if end.Closed? then s.table - {s.conns[id].addr} else s.table
  }

  /** The steps of one pass of a reader, up to `closeConn`. */
  lemma ReaderPass(s: State, id: nat, w: DownWorld) returns (es: seq<Event>, t: State)
    requires id < |s.conns| && s.conns[id].open && s.conns[id].reader.Arming?
    ensures Exec(s, es) == Some(t)
    ensures var c := s.conns[id];
            t == s.(conns := s.conns[id :=
              if !w.deadline then c.(reader := Left)
              else if w.read.None? then c.(reader := Closing)
              else if !w.write then c.(got := c.got + [w.read.value], reader := Left)
              else c.(got := c.got + [w.read.value], delivered := c.delivered + [(c.addr, w.read.value)])])
  {
    es, t := ReaderStep(s, [], s, id, Arm(id, w.deadline));
    if w.deadline {
      if w.read.None? {
        es, t := ReaderStep(s, es, t, id, ReadFail(id));
      } else {
        es, t := ReaderStep(s, es, t, id, ReadOk(id, w.read.value));
        es, t := ReaderStep(s, es, t, id, Deliver(id, w.write));
      }
    }
  }

  lemma ServedMore(
    s: State, t: State, u: State, id: nat, a: seq<(Addr, Datagram)>, b: seq<(Addr, Datagram)>, end: ReaderEnd)
    requires OthersKept(s, t, id) && OthersKept(t, u, id)
    requires Served(s, t, id, a, StillReading) && Served(t, u, id, b, end)
    ensures OthersKept(s, u, id) && Served(s, u, id, a + b, end)
  {
  }

  /** A datagram that has been read, and what the outside world does to it. */
  datatype Arrival = Arrival(from: Addr, data: Datagram, world: UpWorld)

  class Proxy {
    var connMap: map<Addr, ConnObject>
    ghost var all: seq<ConnObject>   // every connection ever made, in order

    constructor ()
      ensures Matches(INIT.conns, INIT.table)
    {
      connMap, all := map[], [];
    }

    /** The objects are the given connections: same addresses, same flags, same table. */
    ghost predicate Matches(conns: seq<Conn>, table: map<Addr, nat>)
      reads this, all
    {
      && |all| == |conns|
      && (forall i, j :: 0 <= i < j < |all| ==> all[i] != all[j])
      && (forall i :: 0 <= i < |all| ==> Same(all[i], conns[i]))
      && connMap.Keys == table.Keys
      && (forall a :: a in connMap ==> table[a] < |all| && connMap[a] == all[table[a]])
    }

    ghost predicate Same(o: ConnObject, c: Conn)
      reads o
    {
      o.clientAddr == c.addr && o.serverOpen == c.open && o.started == c.started
    }

    method NewConn(addr: Addr, dialOk: bool, ghost s: State) returns (r: Result<ConnObject, ()>)
      requires Matches(s.conns, s.table) && s.main.Admitting? && s.main.from == addr
      modifies this
      ensures var e := if addr in old(connMap) then Find else Dial(dialOk);
              && Enabled(s, e)
              && Matches(NextConns(s, e), NextTable(s, e))
              && (r.Ok? <==> NextMain(s, e).Judging?)
              && (r.Ok? ==> NextMain(s, e).id < |all| && r.value == all[NextMain(s, e).id])
      ensures addr in old(connMap) ==> r == Ok(old(connMap)[addr])
      ensures addr !in old(connMap) && r.Ok? ==> fresh(r.value)
      ensures old(all) <= all && forall i :: old(|all|) <= i < |all| ==> fresh(all[i])
    {
      if addr in connMap {
        return Ok(connMap[addr]);
      }
      if !dialOk {
        return Err(());
      }
      var conn := new ConnObject(addr);
      connMap := connMap[addr := conn];
      all := all + [conn];
      assert NextConns(s, Dial(true)) == s.conns + [CoapTable.NewConn(addr)];
      assert NextTable(s, Dial(true)) == s.table[addr := |s.conns|];
      return Ok(conn);
    }

    method CloseConn(conn: ConnObject, ghost s: State, ghost id: nat)
      requires Matches(s.conns, s.table) && id < |all| && conn == all[id] && Enabled(s, Close(id))
      modifies this`connMap, conn`serverOpen
      ensures Matches(NextConns(s, Close(id)), NextTable(s, Close(id)))
      ensures connMap == old(connMap) - {conn.clientAddr} && !conn.serverOpen
    {
      connMap := connMap - {conn.clientAddr};
      conn.serverOpen := false;
      assert NextConns(s, Close(id)) == s.conns[id := s.conns[id].(open := false, reader := Gone)];
      assert NextTable(s, Close(id)) == s.table - {conn.clientAddr};
    }

    /** True if the caller is the one to start the reader. */
    method CompareAndSwapStarted(conn: ConnObject, ghost s: State) returns (swapped: bool)
      requires Matches(s.conns, s.table) && Enabled(s, Start) && conn == all[s.main.id]
      modifies conn`started
      ensures Matches(NextConns(s, Start), NextTable(s, Start))
      ensures swapped <==> NextConns(s, Start)[s.main.id].readers == s.conns[s.main.id].readers + 1
    {
      swapped := !conn.started;
      if swapped {
        conn.started := true;
      }
    }

    /** Steps that touch logs and program counters only leave the objects as they are. */
    lemma Unchanged(s: State, e: Event)
      requires Matches(s.conns, s.table) && Enabled(s, e) && !e.Dial? && !e.Start? && !e.Close?
      ensures Matches(NextConns(s, e), NextTable(s, e))
    {
    }

    /** `upUDP` */
    method UpUdp(conn: ConnObject, data: Datagram, world: UpWorld, ghost s: State)
      returns (outcome: Outcome, ghost es: seq<Event>, ghost t: State)
      requires Matches(s.conns, s.table) && TableInv(s.conns, s.table) && conn.clientAddr in s.table
      requires var id := s.table[conn.clientAddr]; conn == all[id] && s.main == Judging(conn.clientAddr, data, id)
      modifies conn`started
      ensures Exec(s, es) == Some(t) && Matches(t.conns, t.table)
      ensures t.main.Listening? && t.received == s.received && Happened(conn.clientAddr, data, outcome, s, t)
      ensures outcome == if !world.judge then Refused(conn.clientAddr)
                         else if !world.write then NotWritten
                         else Forwarded(!old(conn.started))
    {
      ghost var id := s.table[conn.clientAddr];
      if !world.judge {
        es, t := RefusedRun(s);
        return Refused(conn.clientAddr), es, t;
      }
      if !world.write {
        es, t := NotWrittenRun(s);
        return NotWritten, es, t;
      }
      ghost var fs, u := WrittenRun(s);
      // Start the downstream reader once the first upstream write succeeds.
      var swapped := CompareAndSwapStarted(conn, u);
      es, t := StartedRun(s, fs, u, data);
      return Forwarded(swapped), es, t;
    }

    /** A datagram of a client is a run of the main goroutine. */
    method HandleDatagram(from: Addr, data: Datagram, world: UpWorld, ghost s: State)
      returns (outcome: Outcome, ghost es: seq<Event>, ghost t: State)
      requires TableInv(s.conns, s.table) && Matches(s.conns, s.table) && s.main.Listening?
      modifies this, connMap.Values
      ensures Exec(s, es) == Some(t) && Matches(t.conns, t.table)
      ensures t.main.Listening? && t.received == s.received + [(from, data)] && Happened(from, data, outcome, s, t)
      ensures outcome.DialFailed? <==> from !in old(connMap) && !world.dial
      ensures outcome.Refused? <==> !outcome.DialFailed? && !world.judge
      ensures outcome.Forwarded? <==> !outcome.DialFailed? && world.judge && world.write
    {
      ghost var u;
      es, u := ReceivedRun(s, from, data);
      var r := NewConn(from, world.dial, u);
      ghost var fs;
      fs, t := LookupRun(u, world.dial);
      ExecConcat(s, es, fs);
      es := es + fs;
      if r.Err? {
        return DialFailed, es, t;
      }
      ghost var v := t;
      outcome, fs, t := UpUdp(r.value, data, world, v);
      ExecConcat(s, es, fs);
      es := es + fs;
      HappenedLater(s, u, v, t, from, data, outcome);
    }

    /** One pass of the loop in `proxyUDP`, which a failed read ends. */
    method ProxyPass(packet: Option<Arrival>, ghost s: State)
      returns (outcome: Option<Outcome>, ghost es: seq<Event>, ghost t: State)
      requires TableInv(s.conns, s.table) && Matches(s.conns, s.table) && s.main.Listening?
      modifies this, connMap.Values
      ensures Exec(s, es) == Some(t) && Matches(t.conns, t.table)
      ensures match packet
              case None => outcome == None && t == s.(main := Stopped)
              case Some(p) =>
                outcome.Some? && t.main.Listening? && t.received == s.received + [(p.from, p.data)]
                && Happened(p.from, p.data, outcome.value, s, t)
    {
      if packet.None? {
        es, t := StoppedRun(s);
        return None, es, t;
      }
      var o;
      o, es, t := HandleDatagram(packet.value.from, packet.value.data, packet.value.world, s);
      outcome := Some(o);
    }

    lemma StillMatches(s: State, t: State, id: nat)
      requires Matches(s.conns, s.table) && OthersKept(s, t, id) && id < |s.conns| == |t.conns| && t.table == s.table
      requires t.conns[id].addr == s.conns[id].addr && t.conns[id].open == s.conns[id].open
      requires t.conns[id].started == s.conns[id].started
      ensures Matches(t.conns, t.table)
    {
    }

    /** One pass of the loop in `downUDP`. */
    method DownPass(conn: ConnObject, world: DownWorld, ghost s: State, ghost id: nat)
      returns (delivered: seq<(Addr, Datagram)>, end: ReaderEnd, ghost es: seq<Event>, ghost t: State)
      requires Matches(s.conns, s.table) && id < |all| && conn == all[id]
      requires s.conns[id].open && s.conns[id].reader.Arming?
      modifies this`connMap, conn`serverOpen
      ensures Exec(s, es) == Some(t) && Matches(t.conns, t.table)
      ensures OthersKept(s, t, id) && Served(s, t, id, delivered, end)
      ensures connMap == if end.Closed? then old(connMap) - {conn.clientAddr} else old(connMap)
    {
      ghost var u;
      es, u := ReaderPass(s, id, world);
      StillMatches(s, u, id);
      delivered, t := [], u;
      if !world.deadline {
        return delivered, LeftOpen, es, t;
      }
      if world.read.None? {
        CloseConn(conn, u, id);
        es, t := ClosedRun(s, es, u, id);
        return delivered, Closed, es, t;
      }
      if !world.write {
        return delivered, LeftOpen, es, t;
      }
      delivered := [(conn.clientAddr, world.read.value)];
      end := StillReading;
    }

    /** `downUDP`, for as many datagrams as the server sends: a run of one reader goroutine. */
    method DownUdp(conn: ConnObject, world: seq<DownWorld>, ghost s: State, ghost id: nat)
      returns (delivered: seq<(Addr, Datagram)>, end: ReaderEnd, ghost es: seq<Event>, ghost t: State)
      requires Matches(s.conns, s.table) && id < |all| && conn == all[id]
      requires s.conns[id].open && s.conns[id].reader.Arming?
      modifies this`connMap, conn`serverOpen
      ensures Exec(s, es) == Some(t) && Matches(t.conns, t.table)
      ensures OthersKept(s, t, id) && Served(s, t, id, delivered, end)
      ensures connMap == if end.Closed? then old(connMap) - {conn.clientAddr} else old(connMap)
    {
      delivered, end, es, t := [], StillReading, [], s;
      for i := 0 to |world|
        invariant Exec(s, es) == Some(t) && Matches(t.conns, t.table)
        invariant OthersKept(s, t, id) && Served(s, t, id, delivered, StillReading)
        invariant connMap == old(connMap) && end.StillReading?
      {
        ghost var u, fs := t, [];
        var more;
        more, end, fs, t := DownPass(conn, world[i], u, id);
        ExecConcat(s, es, fs);
        ServedMore(s, u, t, id, delivered, more, end);
        es := es + fs;
        delivered := delivered + more;
        if !end.StillReading? {
          return;
        }
      }
    }
  }
}
