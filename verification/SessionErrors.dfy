/**
 Which errors reach the channel, and where they come from. The failures a pump met
 are read off the run itself, without looking at the state of the engine.
*/
module SessionErrors {
  import opened Results
  import opened SessionStream
  import opened SessionInvariants

  /** The cause the outside world gives in step e, if that step fails. */
  function FailureIn(e: Event): Option<Cause> {
    match e
    case ReadFail(_, cause) => Some(cause)
    case InterceptFail(_, cause, _) => Some(cause)
    case ConnectAnswer(Refuse(cause), _) => Some(cause)
    case PublishAnswer(Refuse(cause), _, _, _) => Some(cause)
    case SubscribeAnswer(_, Refuse(cause), _, _) => Some(cause)
    case WriteFail(_, cause) => Some(cause)
    case NoteAnswer(Refuse(cause), _) => Some(cause)
    case _ => None
  }

  /** The failures pump d met in a run, in order. Only a message refused by the hook can be
      followed by another failure of the Down pump, that of writing the DISCONNECT; the two
      count as one. */
  function Failures(d: Direction, es: seq<Event>): seq<Cause> {
    if es == [] then [] else MoreFailures(d, Failures(d, es[..|es| - 1]), es[|es| - 1])
  }

  function MoreFailures(d: Direction, pre: seq<Cause>, e: Event): seq<Cause> {
    if Actor(e) != Some(d) || FailureIn(e).None? then pre
    else if d == Down && e.WriteFail? && pre != [] then
      pre[..|pre| - 1] + [Joined(pre[|pre| - 1], FailureIn(e).value)]
    else pre + [FailureIn(e).value]
  }

  /** The pumps that completed a send, in order. */
  function Senders(es: seq<Event>): seq<Direction> {
    if es == [] then []
    else Senders(es[..|es| - 1]) + if es[|es| - 1].Send? then [es[|es| - 1].d] else []
  }

  /** The causes in the errors that pump d sent. */
  function CausesSent(d: Direction, senders: seq<Direction>, errors: seq<Error>): seq<Cause>
    requires |senders| == |errors|
  {
    if errors == [] then []
    else
      var n := |errors| - 1;
      CausesSent(d, senders[..n], errors[..n]) + if senders[n] == d then [errors[n].cause] else []
  }

  /** The cause a pump still has to report. */
  function Unreported(pc: Pc): seq<Cause> {
    match pc
    case Sending(err, _) => [err.cause]
    case Refusing(cause) => [cause]
    case _ => []
  }

  /** The direction the text of a message speaks of: errBroker of the way from the client to
      the broker, errClient of the way back. */
  function PathNamed(w: Wording): Direction {
    match w
    case ErrBroker => Up
    case ErrClient => Down
  }

  /** The error is the plain end of file, or speaks of the direction d does not work in. */
  predicate MisnamedBy(d: Direction, err: Error) {
    (err.Plain? <==> err.cause == Eof) && (err.Proxied? ==> PathNamed(err.wording) != d)
  }

  /** What pump d has sent and what it is about to send are the failures it met. */
  predicate PumpErrors(d: Direction, p: Pump, sent: seq<Cause>, failures: seq<Cause>) {
    && sent + Unreported(p.pc) == failures
    && (p.pc.Sending? ==> MisnamedBy(d, p.pc.err))
    && (p.pc.Refusing? ==> d == Down)
    && (d == Down ==> |failures| <= 1)
    && (d == Down && !HasStopped(p) ==> sent == [] && !p.pc.Sending?)
  }

  predicate PumpErrorInv(d: Direction, es: seq<Event>, s: State)
    requires |Senders(es)| == |s.errors|
  {
    PumpErrors(d, s.Of(d), CausesSent(d, Senders(es), s.errors), Failures(d, es))
  }

  predicate AllMisnamed(senders: seq<Direction>, errors: seq<Error>) {
    |senders| == |errors| && forall i :: 0 <= i < |errors| ==> MisnamedBy(senders[i], errors[i])
  }

  predicate ErrorInv(es: seq<Event>, s: State) {
    AllMisnamed(Senders(es), s.errors) && PumpErrorInv(Up, es, s) && PumpErrorInv(Down, es, s)
  }

  // ---------- Every step keeps it ----------

  /** What step e of pump d leaves to be reported, by what was left before. */
  lemma UnreportedStep(cfg: Config, d: Direction, p: Pump, e: Event, before: Session, after: Session)
    requires Actor(e) == Some(d) && Ready(d, p.pc, e) && !e.Send?
    requires p.pc.Refusing? ==> d == Down
    ensures var q := NextPump(cfg, d, p, e, before, after);
            && !HasStopped(p) && !p.pc.Sending?
            && (q.pc.Sending? ==> MisnamedBy(d, q.pc.err))
            && (q.pc.Refusing? ==> d == Down)
            && (q.pc.Sending? && d == Down && !e.NoteAnswer? ==> q.pc.last)
            && Unreported(q.pc) == (
                 if FailureIn(e).None? then Unreported(p.pc)
                 else if p.pc.Refusing? then [Joined(p.pc.cause, FailureIn(e).value)]
                 else [FailureIn(e).value])
            && (p.pc.Refusing? && FailureIn(e).Some? ==> e.WriteFail?)
  {
  }

  lemma FailingStep(
    cfg: Config, d: Direction, p: Pump, e: Event, before: Session, after: Session,
    sent: seq<Cause>, failures: seq<Cause>)
    requires Actor(e) == Some(d) && Ready(d, p.pc, e) && !e.Send? && PumpErrors(d, p, sent, failures)
    ensures PumpErrors(d, NextPump(cfg, d, p, e, before, after), sent, MoreFailures(d, failures, e))
  {
    UnreportedStep(cfg, d, p, e, before, after);
    if FailureIn(e).Some? && Unreported(p.pc) != [] {
      assert sent == [] && failures == Unreported(p.pc);
    } else if FailureIn(e).Some? {
      assert failures == sent;
    }
  }

  lemma SendingStep(
    cfg: Config, d: Direction, p: Pump, e: Event, before: Session, after: Session,
    sent: seq<Cause>, failures: seq<Cause>)
    requires e == Send(d) && Ready(d, p.pc, e) && PumpErrors(d, p, sent, failures)
    ensures PumpErrors(d, NextPump(cfg, d, p, e, before, after), sent + [p.pc.err.cause], failures)
  {
  }

  lemma RunMore(d: Direction, es: seq<Event>, e: Event)
    ensures Failures(d, es + [e]) == MoreFailures(d, Failures(d, es), e)
    ensures Senders(es + [e]) == Senders(es) + if e.Send? then [e.d] else []
  {
    assert (es + [e])[..|es|] == es;
  }

  lemma CausesMore(d: Direction, senders: seq<Direction>, errors: seq<Error>, sender: Direction, err: Error)
    requires |senders| == |errors|
    ensures CausesSent(d, senders + [sender], errors + [err])
         == CausesSent(d, senders, errors) + if sender == d then [err.cause] else []
  {
    assert (senders + [sender])[..|errors|] == senders && (errors + [err])[..|errors|] == errors;
  }

  lemma ErrorsAfter(cfg: Config, s: State, e: Event)
    requires Enabled(s, e)
    ensures Apply(cfg, s, e).errors == s.errors + if e.Send? then [s.Of(e.d).pc.err] else []
  {
  }

  lemma PumpErrorStep(cfg: Config, es: seq<Event>, s: State, e: Event, d: Direction)
    requires |Senders(es)| == |s.errors| && PumpErrorInv(d, es, s) && Enabled(s, e)
    ensures var t := Apply(cfg, s, e); |Senders(es + [e])| == |t.errors| && PumpErrorInv(d, es + [e], t)
  {
    RunMore(d, es, e);
    ErrorsAfter(cfg, s, e);
    PumpAfter(cfg, s, e, d);
    var sent, failures := CausesSent(d, Senders(es), s.errors), Failures(d, es);
    if e.Send? {
      CausesMore(d, Senders(es), s.errors, e.d, s.Of(e.d).pc.err);
    } else {
      assert Senders(es + [e]) == Senders(es) && Apply(cfg, s, e).errors == s.errors;
    }
    if e == Send(d) {
      SendingStep(cfg, d, s.Of(d), e, s.session, NextSession(s, e), sent, failures);
    } else if Actor(e) == Some(d) {
      FailingStep(cfg, d, s.Of(d), e, s.session, NextSession(s, e), sent, failures);
    } else {
      assert sent + [] == sent;
    }
  }

  lemma MisnamedStep(cfg: Config, es: seq<Event>, s: State, e: Event)
    requires ErrorInv(es, s) && Enabled(s, e)
    ensures AllMisnamed(Senders(es + [e]), Apply(cfg, s, e).errors)
  {
    RunMore(Up, es, e);
    ErrorsAfter(cfg, s, e);
    if e.Send? {
      assert PumpErrorInv(e.d, es, s);
    }
  }

  lemma ErrorInvStep(cfg: Config, es: seq<Event>, s: State)
    requires es != [] && ErrorInv(es[..|es| - 1], s) && Enabled(s, es[|es| - 1])
    ensures ErrorInv(es, Apply(cfg, s, es[|es| - 1]))
  {
    var pre, e := es[..|es| - 1], es[|es| - 1];
    assert pre + [e] == es;
    MisnamedStep(cfg, pre, s, e);
    PumpErrorStep(cfg, pre, s, e, Up);
    PumpErrorStep(cfg, pre, s, e, Down);
  }

  lemma {:induction false} ErrorInvAlong(cfg: Config, es: seq<Event>)
    requires Exec(cfg, INIT, es).Some?
    ensures ErrorInv(es, Exec(cfg, INIT, es).value)
  {
    if es == [] {
      assert ErrorInv(es, INIT);
    } else {
      ErrorInvAlong(cfg, es[..|es| - 1]);
      ErrorInvStep(cfg, es, Exec(cfg, INIT, es[..|es| - 1]).value);
    }
  }

  // ---------- The id in the message ----------

  /** Step k of the run made pump d raise this error: the end of file as it is, any other cause
      with the id the session had when the step was over. */
  ghost predicate Raised(cfg: Config, es: seq<Event>, d: Direction, err: Error, k: nat) {
    && 0 < k <= |es|
    && Exec(cfg, INIT, es[..k]).Some? && Exec(cfg, INIT, es[..k - 1]).Some?
    && Actor(es[k - 1]) == Some(d)
    && var s, t := Exec(cfg, INIT, es[..k - 1]).value, Exec(cfg, INIT, es[..k]).value;
       && !s.Of(d).pc.Sending? && t.Of(d).pc.Sending? && t.Of(d).pc.err == err
       && match err
          case Plain(cause) => cause == Eof
          case Proxied(_, id, cause) => id == t.session.id && cause != Eof
  }

  ghost predicate RaisedIn(cfg: Config, es: seq<Event>, d: Direction, err: Error) {
    exists k: nat :: Raised(cfg, es, d, err, k)
  }

  lemma RaisedStays(cfg: Config, es: seq<Event>, d: Direction, err: Error)
    requires es != [] && RaisedIn(cfg, es[..|es| - 1], d, err)
    ensures RaisedIn(cfg, es, d, err)
  {
    var k: nat :| Raised(cfg, es[..|es| - 1], d, err, k);
    assert es[..|es| - 1][..k] == es[..k] && es[..|es| - 1][..k - 1] == es[..k - 1];
    assert Raised(cfg, es, d, err, k);
  }

  /** A step that brings a pump to send an error wraps the cause with the session's id. */
  lemma WrapStep(cfg: Config, d: Direction, p: Pump, e: Event, before: Session, after: Session)
    requires Actor(e) == Some(d) && Ready(d, p.pc, e)
    ensures var q := NextPump(cfg, d, p, e, before, after);
            q.pc.Sending? ==>
              && !p.pc.Sending?
              && match q.pc.err
                 case Plain(cause) => cause == Eof
                 case Proxied(_, id, cause) => id == after.id && cause != Eof
  {
  }

  /** The error a pump is sending was raised in the run. */
  lemma {:induction false} PendingRaised(cfg: Config, es: seq<Event>, d: Direction)
    requires Exec(cfg, INIT, es).Some? && Exec(cfg, INIT, es).value.Of(d).pc.Sending?
    ensures RaisedIn(cfg, es, d, Exec(cfg, INIT, es).value.Of(d).pc.err)
  {
    if es != [] {
      var pre, e := es[..|es| - 1], es[|es| - 1];
      var s, t := Exec(cfg, INIT, pre).value, Exec(cfg, INIT, es).value;
      PumpAfter(cfg, s, e, d);
      if Actor(e) == Some(d) {
        WrapStep(cfg, d, s.Of(d), e, s.session, NextSession(s, e));
        SessionAfter(cfg, s, e);
        assert es[..|es|] == es;
        assert Raised(cfg, es, d, t.Of(d).pc.err, |es|);
      } else {
        PendingRaised(cfg, pre, d);
        RaisedStays(cfg, es, d, t.Of(d).pc.err);
      }
    }
  }

  lemma SessionAfter(cfg: Config, s: State, e: Event)
    requires Enabled(s, e)
    ensures Actor(e).Some? ==> Apply(cfg, s, e).session == NextSession(s, e)
  {
  }

  lemma {:induction false} SentRaised(cfg: Config, es: seq<Event>, i: nat)
    requires Exec(cfg, INIT, es).Some? && i < |Exec(cfg, INIT, es).value.errors|
    ensures |Senders(es)| == |Exec(cfg, INIT, es).value.errors|
    ensures RaisedIn(cfg, es, Senders(es)[i], Exec(cfg, INIT, es).value.errors[i])
  {
    ErrorInvAlong(cfg, es);
    if es != [] {
      var pre, e := es[..|es| - 1], es[|es| - 1];
      var s := Exec(cfg, INIT, pre).value;
      ErrorInvAlong(cfg, pre);
      ErrorsAfter(cfg, s, e);
      if i < |s.errors| {
        SentRaised(cfg, pre, i);
        RaisedStays(cfg, es, Senders(es)[i], s.errors[i]);
      } else {
        PendingRaised(cfg, pre, e.d);
        RaisedStays(cfg, es, e.d, s.Of(e.d).pc.err);
      }
    }
  }

  // ---------- Theorems ----------

  /** Every failure a pump meets is reported once, in order, and nothing else is: what it has
      sent, and what it is still to send, are the causes it met. */
  lemma EveryFailureIsReportedOnce(cfg: Config, es: seq<Event>, d: Direction)
    requires Exec(cfg, INIT, es).Some?
    ensures var s := Exec(cfg, INIT, es).value;
            && |Senders(es)| == |s.errors|
            && CausesSent(d, Senders(es), s.errors) + Unreported(s.Of(d).pc) == Failures(d, es)
    ensures d == Down ==> |Failures(d, es)| <= 1
  {
    ErrorInvAlong(cfg, es);
  }

  /** The errors speak of the wrong direction: an error of the Up pump is worded as one on the
      way from the broker to the client, and the other way round. This goes for every error in
      the channel and for the one `Stream` returns, which is the first one sent. */
  lemma ErrorsNameTheOtherDirection(cfg: Config, es: seq<Event>)
    requires Exec(cfg, INIT, es).Some?
    ensures var s := Exec(cfg, INIT, es).value;
            && AllMisnamed(Senders(es), s.errors)
            && (!s.stream.Receiving? ==>
                  |s.errors| > 0 && s.stream.err == s.errors[0] && MisnamedBy(Senders(es)[0], s.stream.err))
  {
    ErrorInvAlong(cfg, es);
    InitInv(cfg);
    InvAlong(cfg, INIT, es);
  }

  /** Every error sent, and so the one `Stream` returns, was raised by a step of its own pump
      and carries the id the session had then. */
  lemma ErrorsCarryTheId(cfg: Config, es: seq<Event>, i: nat)
    requires Exec(cfg, INIT, es).Some? && i < |Exec(cfg, INIT, es).value.errors|
    ensures var s := Exec(cfg, INIT, es).value;
            && |Senders(es)| == |s.errors|
            && exists k: nat :: Raised(cfg, es, Senders(es)[i], s.errors[i], k)
  {
    SentRaised(cfg, es, i);
    assert RaisedIn(cfg, es, Senders(es)[i], Exec(cfg, INIT, es).value.errors[i]);
  }
}
