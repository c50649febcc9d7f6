/**
 The net.Conn adapter of pkg/mqtt/websocket/conn.go: `Read` presents the messages
 of a websocket as one byte stream, `Write` sends each buffer as one message.

 The websocket below the adapter is a queue of messages. How a message reader cuts
 a message into pieces, whether it reports the end of a message together with its
 last bytes or on a later call, and when it fails, is left open: the class
 `Transport` resolves each of these choices arbitrarily, within the io.Reader
 contract. A reliable transport is one that fails only when no message is left and
 hands out at least a byte to every reader with room for it.
*/
module WebsocketConn {

  type Byte = bv8
  type Message = seq<Byte>

  /** The error result of a read. */
  datatype Outcome = Fine | Eof | Broken

  /** The bytes of the messages, in order. */
  function Flatten(ms: seq<Message>): seq<Byte> {
    if ms == [] then [] else ms[0] + Flatten(ms[1..])
  }

  lemma {:induction false} FlattenConcat(a: seq<Message>, b: seq<Message>)
    ensures Flatten(a + b) == Flatten(a) + Flatten(b)
  {
    if a == [] {
      assert a + b == b;
    } else {
      assert (a + b)[1..] == a[1..] + b;
      FlattenConcat(a[1..], b);
    }
  }

  /** A byte stream may be cut into messages anywhere, and empty messages do not matter. */
  lemma FramingIsInvisible(before: seq<Message>, m: Message, after: seq<Message>, cut: nat)
    requires cut <= |m|
    ensures Flatten(before + [m] + after) == Flatten(before + [m[..cut], [], m[cut..]] + after)
  {
    var parts := [m[..cut], [], m[cut..]];
    FlattenConcat(before + [m], after);
    FlattenConcat(before, [m]);
    FlattenConcat(before + parts, after);
    FlattenConcat(before, parts);
    assert Flatten(parts[2..]) == m[cut..] + Flatten([]);
    assert Flatten(parts[1..]) == [] + Flatten(parts[2..]);
    assert Flatten(parts) == m[..cut] + Flatten(parts[1..]);
    assert m == m[..cut] + m[cut..];
    assert Flatten([m]) == m + Flatten([]);
  }

  /** One direction of a websocket connection: a message reader open on a message, and the
      messages behind it. */
  class Transport {
    const reliable: bool
    var current: Message     // what the open reader has not handed out yet
    var pending: seq<Message>
    ghost var failures: nat  // of NextReader and of the message reader

    constructor (reliable: bool)
      ensures current == [] && pending == [] && this.reliable == reliable
    {
      current, pending, failures := [], [], 0;
      this.reliable := reliable;
    }

    method WriteMessage(m: Message, works: bool)
      modifies this
      ensures current == old(current) && pending == old(pending) + if works then [m] else []
      ensures failures == old(failures)
    {
      if works {
        pending := pending + [m];
      }
    }

    /** `NextReader`: opens the next message; fails on an empty queue, and if unreliable at any time. */
    method NextReader() returns (ok: bool)
      requires current == []
      modifies this
      ensures ok ==> old(pending) != [] && current == old(pending)[0] && pending == old(pending)[1..]
      ensures !ok ==> current == [] && pending == old(pending) && (reliable ==> pending == [])
      ensures failures == old(failures) + if ok then 0 else 1
    {
      ok :| (ok ==> pending != []) && (!ok && reliable ==> pending == []);
      if ok {
        current, pending := pending[0], pending[1..];
      } else {
        failures := failures + 1;
      }
    }

    /** The message reader's `Read`: some bytes of the message go into p. The end of the
        message is reported only when all of it has been handed out. */
    method ReadMessage(p: array<Byte>) returns (n: nat, err: Outcome)
      modifies this, p
      ensures n <= p.Length && n <= old(|current|)
      ensures p[..n] == old(current[..n]) && current == old(current[n..])
      ensures pending == old(pending)
      ensures err == Eof ==> current == []
      ensures reliable ==> err != Broken && (n == 0 && p.Length > 0 ==> err == Eof)
      ensures failures == old(failures) + if err == Broken then 1 else 0
    {
      n :| 0 <= n <= p.Length && n <= |current| && (reliable && p.Length > 0 && current != [] ==> n > 0);
      forall i | 0 <= i < n {
        p[i] := current[i];
      }
      current := current[n..];
      err :| (err == Eof ==> current == []) && (reliable ==> err != Broken && (n == 0 && p.Length > 0 ==> err == Eof));
      if err == Broken {
        failures := failures + 1;
      }
    }
  }

  class Wrapper {
    const conn: Transport
    var open: bool    // c.r != nil

    ghost predicate Valid()
      reads this, conn
    {
      !open ==> conn.current == []
    }

    /** The bytes the peer has sent that no `Read` has returned yet. */
    ghost function Rest(): seq<Byte>
      reads this, conn
    {
      conn.current + Flatten(conn.pending)
    }

    constructor (conn: Transport)
      requires conn.current == []
      ensures Valid() && this.conn == conn
    {
      this.conn := conn;
      open := false;
    }

    /** Returns the next n bytes of the stream; the end of a message is never reported, and an
        error exactly when the websocket has failed during this call, which is then over. On a
        reliable transport there is a byte for every buffer with room, until none is left. */
    method Read(p: array<Byte>) returns (n: nat, err: Outcome)
      requires Valid()
      modifies this, conn, p
      ensures Valid()
      ensures n <= p.Length
      ensures old(Rest()) == p[..n] + Rest()
      ensures err != Eof
      ensures conn.failures == old(conn.failures) + if err == Broken then 1 else 0
      ensures conn.reliable && err == Broken ==> n == 0 && Rest() == []
      ensures conn.reliable && err == Fine && p.Length > 0 ==> n > 0
    {
      while true
        invariant Valid() && Rest() == old(Rest())
        invariant |conn.pending| <= old(|conn.pending|) && conn.failures == old(conn.failures)
        decreases |conn.pending|, open
      {
        if !open {
          ghost var pending := conn.pending;
          var ok := conn.NextReader();
          if !ok {
            return 0, Broken;
          }
          open := true;
          assert Flatten(pending) == conn.current + Flatten(conn.pending);
        }
        ghost var current := conn.current;
        n, err := conn.ReadMessage(p);
        assert current == p[..n] + conn.current;
        assert current + Flatten(conn.pending) == p[..n] + Rest();
        if err == Eof {
          open := false;
          if n > 0 {
            return n, Fine;
          }
          continue;
        }
        return;
      }
    }
  }

  /** The sending end. */
  class Sender {
    const conn: Transport

    constructor (conn: Transport)
      ensures this.conn == conn
    {
      this.conn := conn;
    }

    /** One binary message for each buffer; nothing is sent when it fails. */
    method Write(p: seq<Byte>, works: bool) returns (n: nat, err: Outcome)
      modifies conn
      ensures conn.current == old(conn.current)
      ensures works ==> n == |p| && err == Fine && conn.pending == old(conn.pending) + [p]
      ensures !works ==> n == 0 && err == Broken && conn.pending == old(conn.pending)
    {
      conn.WriteMessage(p, works);
      if !works {
        return 0, Broken;
      }
      return |p|, Fine;
    }
  }

  /** A call at one of the two ends of a connection. */
  datatype Call = Write(buffer: seq<Byte>, works: bool) | Read(size: nat)

  /** The message a call sends, if it sends one. */
  function Sent(c: Call): seq<Message> { if c.Write? && c.works then [c.buffer] else [] }

  function Written(calls: seq<Call>): seq<Message> {
    if calls == [] then [] else Written(calls[..|calls| - 1]) + Sent(calls[|calls| - 1])
  }

  /** After every call, what the reads have returned is a prefix of what had been written. */
  predicate Causal(calls: seq<Call>, got: seq<seq<Byte>>) {
    && |got| == |calls|
    && Flatten(got) <= Flatten(Written(calls))
    && (calls != [] ==> Causal(calls[..|calls| - 1], got[..|got| - 1]))
  }

  /** The bytes left unread complete what has been read to what has been written. */
  predicate Accounted(calls: seq<Call>, got: seq<seq<Byte>>, rest: seq<Byte>) {
    Causal(calls, got) && Flatten(got) + rest == Flatten(Written(calls))
  }

  lemma TransferStep(
    calls: seq<Call>, c: Call, got: seq<seq<Byte>>, bytes: seq<Byte>, before: seq<Byte>, after: seq<Byte>)
    requires Accounted(calls, got, before) && bytes + after == before + Flatten(Sent(c))
    ensures Accounted(calls + [c], got + [bytes], after)
  {
    assert (calls + [c])[..|calls|] == calls && (got + [bytes])[..|got|] == got;
    assert Flatten(got + [bytes]) == Flatten(got) + bytes by {
      FlattenConcat(got, [bytes]);
      assert Flatten([bytes]) == bytes + Flatten([]);
    }
    FlattenConcat(Written(calls), Sent(c));
    Regroup(Flatten(got), bytes, after, before, Flatten(Sent(c)));
  }

  lemma Regroup(got: seq<Byte>, bytes: seq<Byte>, after: seq<Byte>, before: seq<Byte>, sent: seq<Byte>)
    requires bytes + after == before + sent
    ensures got + bytes + after == got + before + sent
  {
    assert got + bytes + after == got + (bytes + after);
    assert got + before + sent == got + (before + sent);
  }

  lemma SentIsLast(current: Message, pending: seq<Message>, c: Call)
    ensures current + Flatten(pending + Sent(c)) == current + Flatten(pending) + Flatten(Sent(c))
    ensures !(c.Write? && c.works) ==> pending + Sent(c) == pending
  {
    FlattenConcat(pending, Sent(c));
  }

  /** Makes the call at its end of the connection. */
  method Make(sender: Sender, c: Wrapper, call: Call) returns (bytes: seq<Byte>)
    requires c.Valid() && c.conn == sender.conn
    modifies c, c.conn
    ensures c.Valid() && bytes + c.Rest() == old(c.Rest()) + Flatten(Sent(call))
  {
    match call {
      case Write(buffer, works) =>
        SentIsLast(c.conn.current, c.conn.pending, call);
        var _, _ := sender.Write(buffer, works);
        bytes := [];
      case Read(size) =>
        var p := new Byte[size];
        var n, _ := c.Read(p);
        bytes := p[..n];
    }
  }

  /** Reads with the given buffer sizes until a read fails. On a reliable transport as many
      reads as there are bytes left get all of them. */
  method Drain(c: Wrapper, sizes: seq<nat>) returns (got: seq<Byte>)
    requires c.Valid()
    modifies c, c.conn
    ensures c.Valid() && got + c.Rest() == old(c.Rest())
    ensures c.conn.reliable && (forall i :: 0 <= i < |sizes| ==> sizes[i] > 0) && |sizes| >= |old(c.Rest())| ==>
              c.Rest() == []
  {
    got := [];
    for i := 0 to |sizes|
      invariant c.Valid() && got + c.Rest() == old(c.Rest())
      invariant c.conn.reliable && (forall k :: 0 <= k < |sizes| ==> sizes[k] > 0) ==> |got| >= i
    {
      var p := new Byte[sizes[i]];
      ghost var rest := c.Rest();
      var n, err := c.Read(p);
      assert got + rest == (got + p[..n]) + c.Rest();
      got := got + p[..n];
      if err == Broken {
        return;
      }
    }
  }

  /** Calls at the two ends in any order. */
  method Converse(sender: Sender, c: Wrapper, calls: seq<Call>) returns (got: seq<seq<Byte>>)
    requires c.Valid() && c.conn == sender.conn && c.Rest() == []
    modifies c, c.conn
    ensures c.Valid() && Accounted(calls, got, c.Rest())
  {
    got := [];
    for i := 0 to |calls|
      invariant c.Valid() && Accounted(calls[..i], got, c.Rest())
    {
      ghost var before := c.Rest();
      var bytes := Make(sender, c, calls[i]);
      TransferStep(calls[..i], calls[i], got, bytes, before, c.Rest());
      assert calls[..i + 1] == calls[..i] + [calls[i]];
      got := got + [bytes];
    }
    assert calls[..|calls|] == calls;
  }

  /** Calls at the two ends in any order, and then reads only. At every point what has been
      read and what is still in the websocket are together what has been written; a read that
      fails loses nothing, and enough reads at the end get all of it. */
  method Transfer(calls: seq<Call>, sizes: seq<nat>, reliable: bool)
    returns (got: seq<seq<Byte>>, rest: seq<Byte>)
    ensures Causal(calls, got)
    ensures Flatten(got) + rest <= Flatten(Written(calls))
    ensures reliable && (forall i :: 0 <= i < |sizes| ==> sizes[i] > 0) && |sizes| >= |Flatten(Written(calls))| ==>
              Flatten(got) + rest == Flatten(Written(calls))
  {
    var conn := new Transport(reliable);
    var sender := new Sender(conn);
    var c := new Wrapper(conn);
    got := Converse(sender, c, calls);
    ghost var left := c.Rest();
    rest := Drain(c, sizes);
    Regroup(Flatten(got), rest, c.Rest(), left, []);
  }
}
