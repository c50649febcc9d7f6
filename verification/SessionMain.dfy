/**
 `Stream` of pkg/session/stream.go and the closes of its callers in their own form: once
 an error is in the channel, what they do is a run of the transition system in which
 neither pump takes a step.
*/
module SessionMain {
  import opened Results
  import opened SessionStream
  import opened SessionAuthorize

  /** What Disconnect answers and leaves in the session. */
  type DisconnectHook = Session -> (Verdict, Session)

  class Connection {
    var closed: bool

    constructor ()
      ensures !closed
    {
      closed := false;
    }

    method Close()
      modifies this
      ensures closed
    {
      closed := true;
    }
  }

  lemma ReceiveRun(cfg: Config, s: State) returns (es: seq<Event>, t: State)
    requires s.stream.Receiving? && |s.chan| > 0
    ensures Exec(cfg, s, es) == Some(t) && t == s.(chan := s.chan[1..], stream := Disconnecting(s.chan[0]))
  {
    ExecExtend(cfg, s, [], Receive);
    es, t := [] + [Receive], Apply(cfg, s, Receive);
  }

  lemma DisconnectRun(cfg: Config, s: State, es: seq<Event>, t: State, verdict: Verdict, left: Session)
    returns (es': seq<Event>, u: State)
    requires Exec(cfg, s, es) == Some(t) && t.stream.Disconnecting?
    ensures Exec(cfg, s, es') == Some(u)
    ensures u == t.(stream := Returned(t.stream.err, verdict), session := left,
                    hooks := t.hooks + [Disconnect(verdict)])
  {
    ExecExtend(cfg, s, es, DisconnectAnswer(verdict, left));
    es', u := es + [DisconnectAnswer(verdict, left)], Apply(cfg, t, DisconnectAnswer(verdict, left));
  }

  lemma CloseRun(cfg: Config, s: State, es: seq<Event>, t: State, e: Event) returns (es': seq<Event>, u: State)
    requires Exec(cfg, s, es) == Some(t) && Enabled(t, e) && (e.CloseOut? || e.CloseIn?)
    ensures Exec(cfg, s, es') == Some(u)
    ensures u == if e.CloseOut? then t.(outClosed := true) else t.(inClosed := true)
  {
    ExecExtend(cfg, s, es, e);
    es', u := es + [e], Apply(cfg, t, e);
  }

  /** Takes the first error from the channel, calls Disconnect and returns both results; the
      caller then closes the connection to the broker and that to the client. */
  method StreamAndClose(
    cfg: Config, chan: seq<Error>, disconnect: DisconnectHook, session: SessionRecord,
    out: Connection, inn: Connection, ghost s: State)
    returns (err: Error, disconnectErr: Verdict, ghost es: seq<Event>, ghost t: State)
    requires s.stream.Receiving? && s.chan == chan && |chan| > 0 && session.Value() == s.session
    requires !s.outClosed && !s.inClosed && out != inn
    modifies session, out, inn
    ensures Exec(cfg, s, es) == Some(t) && err == chan[0]
    ensures t == s.(chan := chan[1..], session := session.Value(), hooks := s.hooks + [Disconnect(disconnectErr)],
                    stream := Returned(err, disconnectErr), outClosed := out.closed, inClosed := inn.closed)
    ensures out.closed && inn.closed
    ensures (disconnectErr, session.Value()) == disconnect(old(session.Value()))
  {
    err := chan[0];
    es, t := ReceiveRun(cfg, s);
    var (verdict, left) := disconnect(session.Value());
    session.Set(left);
    disconnectErr := verdict;
    es, t := DisconnectRun(cfg, s, es, t, verdict, left);
    out.Close();
    es, t := CloseRun(cfg, s, es, t, CloseOut);
    inn.Close();
    es, t := CloseRun(cfg, s, es, t, CloseIn);
  }
}
