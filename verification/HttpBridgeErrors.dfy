/**
 The error a bridge session ends with. How each pump ended is read off the run itself,
 without looking at the state of the bridge.
*/
module HttpBridgeErrors {
  import opened Results
  import opened HttpBridge

  /** What ends pump d in step e, if anything does. */
  function FailureIn(d: Direction, e: Event): Option<Cause> {
    match e
    case ReadFail(x, cause) => if x == d then Some(cause) else None
    case AuthPublished(ok, _, _) => if d == Up && !ok then Some(REFUSED) else None
    case Published(ok, _, _) => if d == Up && !ok then Some(REFUSED) else None
    case AuthSubscribed(ok) => if d == Down && !ok then Some(REFUSED) else None
    case Write(x, ok) => if x == d && !ok then Some(Other("write")) else None
    case _ => None
  }

  /** What ended pump d in this run. */
  function EndOf(d: Direction, es: seq<Event>): Option<Cause> {
    if es == [] then None
    else
      var before := EndOf(d, es[..|es| - 1]);
      if before.Some? then before else FailureIn(d, es[|es| - 1])
  }

  /** An end counts as an error unless the connection was closed by this side, or by the
      client in the normal way. */
  predicate IsError(d: Direction, end: Option<Cause>) {
    match end
    case None => false
    case Some(NetClosed) => false
    case Some(NormalClose) => d == Down
    case Some(Other(_)) => true
  }

  /** The end of the first pump to close its destination after an end that is an error. */
  function FirstReported(es: seq<Event>): Option<Cause> {
    if es == [] then None
    else
      var pre, e := es[..|es| - 1], es[|es| - 1];
      var before := FirstReported(pre);
      if before.Some? then before
      else if e.Close? && IsError(e.d, EndOf(e.d, pre)) then EndOf(e.d, pre)
      else None
  }

  predicate PumpTrace(d: Direction, pc: Pc, end: Option<Cause>) {
    && (end.Some? <==> pc.SayingClose? || pc.Closing? || pc.Returned?)
    && (pc.SayingClose? || pc.Closing? ==> pc.err == if IsError(d, end) then end else None)
  }

  predicate Trace(es: seq<Event>, s: State) {
    && PumpTrace(Up, s.up.pc, EndOf(Up, es)) && PumpTrace(Down, s.down.pc, EndOf(Down, es))
    && s.firstErr == FirstReported(es)
    && (s.firstErr.Some? ==> s.cancelled)
    && (s.firstErr.Some? <==> Reports(Up, s.up.pc, EndOf(Up, es)) || Reports(Down, s.down.pc, EndOf(Down, es)))
    && (s.firstErr.Some? ==> exists d :: s.firstErr == EndOf(d, es) && IsError(d, s.firstErr))
  }

  /** Has a pump with this program counter returned an error? */
  predicate Reports(d: Direction, pc: Pc, end: Option<Cause>) { pc.Returned? && IsError(d, end) }

  lemma PumpTraceStep(topic: string, s: State, e: Event, d: Direction, end: Option<Cause>)
    requires Inv(topic, s) && Enabled(s, e) && PumpTrace(d, s.Pc(d), end)
    ensures PumpTrace(d, Apply(s, e).Pc(d), if end.Some? then end else FailureIn(d, e))
  {
  }

  lemma TraceStep(topic: string, es: seq<Event>, s: State, e: Event)
    requires Inv(topic, s) && Enabled(s, e) && Trace(es, s)
    ensures Trace(es + [e], Apply(s, e))
  {
    assert (es + [e])[..|es|] == es;
    PumpTraceStep(topic, s, e, Up, EndOf(Up, es));
    PumpTraceStep(topic, s, e, Down, EndOf(Down, es));
  }

  lemma {:induction false} TraceAlong(topic: string, es: seq<Event>)
    requires Exec(Init(topic), es).Some?
    ensures Trace(es, Exec(Init(topic), es).value)
  {
    if es != [] {
      var pre, e := es[..|es| - 1], es[|es| - 1];
      TraceAlong(topic, pre);
      InvAlong(topic, Init(topic), pre);
      TraceStep(topic, pre, Exec(Init(topic), pre).value, e);
      assert pre + [e] == es;
    }
  }

  /** The session's error is that of the first pump to close its destination after an end that
      is one; it cancels the context of the later hooks. A connection this proxy has closed is
      never reported: no pump writes to one, and a read from one is not an error. A normal
      close is reported only if it was the server's. */
  lemma NormalEndIsNoError(topic: string, es: seq<Event>)
    requires Exec(Init(topic), es).Some?
    ensures var s := Exec(Init(topic), es).value;
            && s.firstErr == FirstReported(es)
            && (s.firstErr.Some? ==> s.cancelled)
            && s.firstErr != Some(NetClosed)
            && (s.firstErr == Some(NormalClose) ==> EndOf(Down, es) == Some(NormalClose))
            && (forall d :: s.Pc(d).Writing? ==> s.DestOpen(d))
  {
    TraceAlong(topic, es);
    InvAlong(topic, Init(topic), es);
  }

  /** A session whose pumps have both returned has no error exactly when the client's side ended
      with a normal close or a closed connection and the server's with a closed connection. */
  lemma NoErrorExactlyWhen(topic: string, es: seq<Event>)
    requires Exec(Init(topic), es).Some?
    requires var s := Exec(Init(topic), es).value; s.up.pc.Returned? && s.down.pc.Returned?
    ensures Exec(Init(topic), es).value.firstErr == None
       <==> EndOf(Down, es) == Some(NetClosed) && EndOf(Up, es) in [Some(NormalClose), Some(NetClosed)]
  {
    TraceAlong(topic, es);
  }
}
