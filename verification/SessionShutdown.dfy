/**
 The end of a session: the error channel, blocked pumps and termination.

 The comment in `Stream` says that the routine it does not hear from cannot block
 on the channel because the channel is buffered. A failed notification breaks
 that: the Up pump sends its error and goes on. The lemmas here say exactly when
 the comment holds.
*/
module SessionShutdown {
  import opened Results
  import opened SessionStream
  import opened SessionInvariants

  // ---------- How many errors there can be ----------

  /** No run of a session sees a fifth failed notification: the fourth one blocks the Up pump. */
  lemma AtMostFourFailures(cfg: Config, s: State)
    requires Reachable(cfg, s)
    ensures NoteFailures(s.hooks) <= 4
    ensures |s.errors| + Pending(s.up) + Pending(s.down) <= NoteFailures(s.hooks) + 2
  {
    InvReachable(cfg, s);
  }

  /** A pump can only be blocked for ever after two notifications have failed. */
  lemma BlockedNeedsTwoFailures(cfg: Config, s: State, d: Direction)
    requires Reachable(cfg, s) && Blocked(s, d)
    ensures 2 <= NoteFailures(s.hooks) <= 4
  {
    InvReachable(cfg, s);
  }

  /** Nothing that happens later frees a blocked pump. */
  lemma {:induction false} BlockedForever(cfg: Config, s: State, es: seq<Event>, d: Direction)
    requires Blocked(s, d) && Exec(cfg, s, es).Some?
    ensures var t := Exec(cfg, s, es).value; Blocked(t, d) && t.Of(d) == s.Of(d)
  {
    if es != [] {
      BlockedForever(cfg, s, es[..|es| - 1], d);
      var t := Exec(cfg, s, es[..|es| - 1]).value;
      assert Actor(es[|es| - 1]) != Some(d);
    }
  }

  // ---------- The bound is tight ----------

  const FAILED := Fault("failed")
  const NOBODY := Session("", "", [])

  predicate UpIdle(s: State) {
    s.up.pc.Reading? && !s.inClosed && !s.outClosed
  }

  const GOODBYE := UnsubscribePacket([], [])

  /** The Up pump reads an UNSUBSCRIBE, which no hook is asked about. */
  lemma ReadingPass(s: State) returns (t: State)
    requires Reachable(PLAIN, s) && UpIdle(s)
    ensures Reachable(PLAIN, t)
    ensures t.up.pc == Writing(GOODBYE) && t.hooks == s.hooks
    ensures t.down == s.down && t.chan == s.chan && t.stream == s.stream && !t.inClosed && !t.outClosed
  {
    t := Extend(PLAIN, s, ReadOk(Up, GOODBYE));
    t := Extend(PLAIN, t, NoHook(Up));
  }

  /** One pass of the Up pump whose notification fails. */
  lemma FailingPass(s: State) returns (t: State)
    requires Reachable(PLAIN, s) && UpIdle(s)
    ensures Reachable(PLAIN, t)
    ensures t.up.pc.Sending? && !t.up.pc.last
    ensures NoteFailures(t.hooks) == NoteFailures(s.hooks) + 1
    ensures t.down == s.down && t.chan == s.chan && t.stream == s.stream && !t.inClosed && !t.outClosed
  {
    t := ReadingPass(s);
    HooksGrow(PLAIN, t, WriteOk(Up));
    t := Extend(PLAIN, t, WriteOk(Up));
    HooksGrow(PLAIN, t, NoteAnswer(Refuse(FAILED), NOBODY));
    t := Extend(PLAIN, t, NoteAnswer(Refuse(FAILED), NOBODY));
  }

  lemma FailingPassSent(s: State) returns (t: State)
    requires Reachable(PLAIN, s) && UpIdle(s) && |s.chan| < CHAN_SIZE
    ensures Reachable(PLAIN, t) && UpIdle(t)
    ensures NoteFailures(t.hooks) == NoteFailures(s.hooks) + 1
    ensures t.down == s.down && |t.chan| == |s.chan| + 1 && t.stream == s.stream
  {
    t := FailingPass(s);
    var u := t;
    t := Extend(PLAIN, t, Send(Up));
    assert t.hooks == u.hooks;
  }

  /** `Stream` has taken the first failure, a second one waits in the channel. */
  lemma TwoFailures() returns (t: State)
    ensures Reachable(PLAIN, t) && UpIdle(t) && t.down.pc.Reading?
    ensures NoteFailures(t.hooks) == 2 && |t.chan| == 1 && !t.stream.Receiving?
  {
    assert Exec(PLAIN, INIT, []) == Some(INIT);
    t := FailingPassSent(INIT);
    var u := t;
    t := Extend(PLAIN, t, Receive);
    assert t.hooks == u.hooks;
    t := FailingPassSent(t);
  }

  lemma BlockedRun(k: nat) returns (t: State)
    requires 2 <= k <= 4
    ensures Reachable(PLAIN, t) && Blocked(t, Up) && NoteFailures(t.hooks) == k
  {
    t := TwoFailures();
    if k == 2 {
      var u := t;
      t := Extend(PLAIN, t, ReadFail(Down, Eof));
      t := Extend(PLAIN, t, Send(Down));
      t := Extend(PLAIN, t, ReadFail(Up, Eof));
      assert t.hooks == u.hooks;
    } else {
      t := FailingPassSent(t);
      if k == 3 {
        var u := t;
        t := Extend(PLAIN, t, ReadFail(Up, Eof));
        assert t.hooks == u.hooks;
      } else {
        t := FailingPass(t);
      }
    }
  }

  ghost predicate BlockedAfter(k: nat, cfg: Config, s: State, d: Direction) {
    Reachable(cfg, s) && NoteFailures(s.hooks) == k && Blocked(s, d)
  }

  /** A run with k failed notifications can leave a pump blocked for ever exactly when 2 <= k <= 4;
      by AtMostFourFailures there are no runs with more. */
  lemma BlockedExactlyWhen(k: nat)
    ensures (exists cfg, s, d :: BlockedAfter(k, cfg, s, d)) <==> 2 <= k <= 4
  {
    if cfg, s, d :| BlockedAfter(k, cfg, s, d) {
      BlockedNeedsTwoFailures(cfg, s, d);
    }
    if 2 <= k <= 4 {
      var t := BlockedRun(k);
      assert BlockedAfter(k, PLAIN, t, Up);
    }
  }

  // ---------- Shutdown ----------

  /** The caller of `Stream` has closed both connections. */
  predicate Over(s: State) {
    s.outClosed && s.inClosed
  }

  /** How many steps a pump can still take when both connections are closed: at most one
      more pass, because the write at its end fails. */
  function Rank(pc: Pc): nat {
    match pc
    case Done => 0
    case Sending(_, last) => if last then 1 else 11
    case Refusing(_) => 2
    case Writing(_) => 3
    case PostIntercept(_) => 4
    case CopyBack(_) => 5
    case AskConnect(_) => 6
    case Gate(_) => 7
    case PreIntercept(_) => 8
    case Reading => 9
    case Notifying(_) => 12
  }

  /** q is p some steps later, within the pass in hand and at most one more. */
  predicate LastPass(p: Pump, q: Pump) {
    && q.sent == p.sent
    && (q.recv == p.recv || (|q.recv| == |p.recv| + 1 && p.recv <= q.recv && Rank(q.pc) < Rank(Reading)))
  }

  lemma PumpRankFalls(cfg: Config, d: Direction, p: Pump, e: Event, before: Session, after: Session)
    requires Actor(e) == Some(d) && Ready(d, p.pc, e) && !e.WriteOk?
    ensures var q := NextPump(cfg, d, p, e, before, after);
            && Rank(q.pc) < Rank(p.pc)
            && q.sent == p.sent
            && (if e.ReadOk? then p.pc == Reading && q.recv == p.recv + [e.p] else q.recv == p.recv)
  {
  }

  lemma RankFalls(cfg: Config, s: State, e: Event, p: Pump, d: Direction)
    requires Over(s) && s.stream.Returned? && Enabled(s, e)
    requires LastPass(p, s.Of(d))
    ensures var t := Apply(cfg, s, e);
            && Over(t)
            && LastPass(p, t.Of(d))
            && Rank(t.Of(d).pc) <= Rank(s.Of(d).pc) - (if Actor(e) == Some(d) then 1 else 0)
  {
    PumpAfter(cfg, s, e, d);
    if Actor(e) == Some(d) {
      PumpRankFalls(cfg, d, s.Of(d), e, s.session, NextSession(s, e));
    }
  }

  /** Once both connections are closed nothing is written any more, each pump reads at most
      one more packet, and the session takes at most twenty-four more steps, counted by a
      measure that every step lowers. */
  lemma {:induction false} ShutdownIsBounded(cfg: Config, s: State, es: seq<Event>)
    requires Reachable(cfg, s) && Over(s) && Exec(cfg, s, es).Some?
    ensures var t := Exec(cfg, s, es).value;
            && Reachable(cfg, t) && Over(t)
            && |es| + Rank(t.up.pc) + Rank(t.down.pc) <= Rank(s.up.pc) + Rank(s.down.pc) <= 24
            && LastPass(s.up, t.up) && LastPass(s.down, t.down)
  {
    if es != [] {
      var e := es[|es| - 1];
      ShutdownIsBounded(cfg, s, es[..|es| - 1]);
      var t := Exec(cfg, s, es[..|es| - 1]).value;
      InvReachable(cfg, t);
      var u := Extend(cfg, t, e);
      RankFalls(cfg, t, e, s.up, Up);
      RankFalls(cfg, t, e, s.down, Down);
      assert Actor(e).Some?;
    }
  }

  /** No step of any thread is possible. */
  ghost predicate Stuck(s: State) {
    forall e :: !Enabled(s, e)
  }

  /** A step pump d can take, whatever its program counter. */
  function PumpChoice(d: Direction, pc: Pc): Event
    requires !pc.Done?
  {
    match pc
    case Reading => ReadFail(d, Eof)
    case PreIntercept(p) => Intercepted(d, p, NOBODY)
    case Gate(p) =>
      if !Guarded(d, p) then NoHook(d)
      else if d == Down then SubscribeAnswer(d, Accept, [], NOBODY)
      else if p.ConnectPacket? then StoreSession
      else if p.PublishPacket? then PublishAnswer(Accept, [], [], NOBODY)
      else SubscribeAnswer(d, Accept, [], NOBODY)
    case AskConnect(_) => ConnectAnswer(Accept, NOBODY)
    case CopyBack(_) => CopySession
    case PostIntercept(p) => Intercepted(d, p, NOBODY)
    case Writing(_) => WriteFail(d, Eof)
    case Notifying(p) => if NoteFor(p).Some? then NoteAnswer(Accept, NOBODY) else NoNote
    case Refusing(_) => WriteFail(d, Eof)
    case Sending(_, _) => Send(d)
  }

  lemma PumpCanMove(cfg: Config, s: State, d: Direction)
    requires PumpInv(cfg, d, s.Of(d))
    requires !s.Of(d).pc.Done? && (s.Of(d).pc.Sending? ==> |s.chan| < CHAN_SIZE)
    ensures Enabled(s, PumpChoice(d, s.Of(d).pc))
  {
  }

  /** Every thread has ended, except for pumps that are blocked. */
  predicate AtRest(s: State) {
    Over(s) && (s.up.pc.Done? || Blocked(s, Up)) && (s.down.pc.Done? || Blocked(s, Down))
  }

  lemma StuckPump(cfg: Config, s: State, d: Direction)
    requires Inv(cfg, s) && Stuck(s)
    ensures s.Of(d).pc.Done? || (s.Of(d).pc.Sending? && |s.chan| == CHAN_SIZE)
  {
    assert PumpInv(cfg, d, s.Of(d));
    if !s.Of(d).pc.Done? && (s.Of(d).pc.Sending? ==> |s.chan| < CHAN_SIZE) {
      PumpCanMove(cfg, s, d);
    }
  }

  lemma StuckIsAtRest(cfg: Config, s: State)
    requires Inv(cfg, s) && Stuck(s)
    ensures AtRest(s)
  {
    StuckPump(cfg, s, Up);
    StuckPump(cfg, s, Down);
    StreamHasReturned(s);
  }

  lemma StreamHasReturned(s: State)
    requires ChanInv(s) && Stuck(s)
    requires s.up.pc.Done? || (s.up.pc.Sending? && |s.chan| == CHAN_SIZE)
    requires s.down.pc.Done? || (s.down.pc.Sending? && |s.chan| == CHAN_SIZE)
    ensures s.stream.Returned? && Over(s)
  {
    assert !Enabled(s, Receive) && !Enabled(s, DisconnectAnswer(Accept, NOBODY));
    assert !Enabled(s, CloseOut) && !Enabled(s, CloseIn);
  }

  /** The session comes to rest exactly when `Stream` has returned, both connections are
      closed and each pump has ended or is blocked. */
  lemma StuckExactlyWhen(cfg: Config, s: State)
    requires Reachable(cfg, s)
    ensures Stuck(s) <==> AtRest(s)
  {
    InvReachable(cfg, s);
    if Stuck(s) {
      StuckIsAtRest(cfg, s);
    }
  }

  /** At rest both pumps are gone exactly when at most one notification has failed, and some
      pump is blocked exactly when two or more have: the second routine cannot be blocked by
      the channel if and only if at most one notification fails. */
  lemma RestExactlyWhen(cfg: Config, s: State)
    requires Reachable(cfg, s) && Stuck(s)
    ensures s.up.pc.Done? && s.down.pc.Done? <==> NoteFailures(s.hooks) <= 1
    ensures (exists d :: Blocked(s, d)) <==> NoteFailures(s.hooks) >= 2
  {
    InvReachable(cfg, s);
    StuckExactlyWhen(cfg, s);
    assert !(s.up.pc.Done? && s.down.pc.Done?) ==> Blocked(s, Up) || Blocked(s, Down);
  }

  /** A session with at most one failed notification always ends with both pumps gone. */
  lemma SessionEnds(cfg: Config, s: State)
    requires Reachable(cfg, s) && NoteFailures(s.hooks) <= 1
    ensures Stuck(s) <==> Over(s) && s.up.pc.Done? && s.down.pc.Done?
  {
    StuckExactlyWhen(cfg, s);
    if d :| Blocked(s, d) {
      BlockedNeedsTwoFailures(cfg, s, d);
    }
  }

  /** However a session goes on after both connections are closed, it comes to rest within
      twenty-four steps, and if at most one notification has failed both pumps are gone. */
  lemma ClosedSessionEnds(cfg: Config, s: State, es: seq<Event>)
    requires Reachable(cfg, s) && Over(s) && Exec(cfg, s, es).Some?
    requires Stuck(Exec(cfg, s, es).value)
    ensures var t := Exec(cfg, s, es).value;
            && |es| <= 24
            && (NoteFailures(t.hooks) <= 1 ==> t.up.pc.Done? && t.down.pc.Done?)
  {
    ShutdownIsBounded(cfg, s, es);
    var t := Exec(cfg, s, es).value;
    if NoteFailures(t.hooks) <= 1 {
      SessionEnds(cfg, t);
    }
  }
}
