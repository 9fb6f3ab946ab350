/** Whether the command in progress can still end. */
module MySQLProgress {
  import opened CommandTrace
  import opened LibraryDialogue
  import opened MySQLOutcomes
  import opened MySQLProtocol
  import opened MySQLState
  import opened Options

  // ------------------------------------------------------------------ commands nothing can end

  /** The command in progress has no continuation, and the connector hears of no event, or ignores it. */
  predicate Stuck(s: State) {
    s.working && s.queue == [] && (s.status == Bad || (s.status == Ok && !s.reading && !s.writing))
  }

  /** On a connection that is Ok or Bad a timeout does nothing, whatever the library waits for. */
  lemma TimeoutIgnored(s: State)
    requires s.status in {Ok, Bad} && s.timers > 0
    ensures HandleTimeout(s) == s.(timers := s.timers - 1)
  {
  }

  lemma StuckStep(s: State, a: Action)
    requires Stuck(s) && Enabled(s, a)
    ensures Apply(s, a) == s.(timers := Apply(s, a).timers)
  {
    if a == Timeout {
      TimeoutIgnored(s);
    }
  }

  /** A stuck command stays in progress for ever: nothing but pending timeouts changes any more. */
  lemma {:induction false} StuckForever(s: State, run: seq<Action>, t: State)
    requires Stuck(s) && Exec(s, run) == Some(t)
    ensures t == s.(timers := t.timers) && Stuck(t)
  {
    if run != [] {
      var u := Exec(s, run[..|run| - 1]).value;
      StuckForever(s, run[..|run| - 1], u);
      StuckStep(u, run[|run| - 1]);
    }
  }

  // ------------------------------------------------------------------ commands something can end

  function WithScript(s: State, script: seq<Reply>): State {
    s.(lib := s.lib.(script := script))
  }

  /** The library fails the call, and the user starts nothing. */
  const FAILURE := Reply(NO_WAIT, true, false, 1, 0, false)

  lemma FailedCallEnds(s: State)
    requires s.working && !Head(s).yes
    ensures !OutputError(s).working
  {
    var t := s.(reading := false, writing := false);
    var v := Log(t, Failed(Lost(s.lib.errno))).(working := false);
    if Lost(s.lib.errno) {
      assert OutputError(s) == HandleClosed(v);
    } else {
      assert OutputError(s) == UserTurn(Log(v, Idle));
    }
  }

  lemma FailedEventEnds(s: State)
    requires s.working && s.exec != Nothing && s.lib.script == [FAILURE]
    ensures !HandleCmd(s).working
  {
    FailedCallEnds(Called(s, QueryCall, false).(exec := Nothing));
    FailedCallEnds(Called(s, StoreCall, false).(exec := Nothing));
    FailedCallEnds(Called(s, NextCall, false).(exec := Nothing));
  }

  lemma FailedResultEnds(s: State, results: ResultSet)
    requires s.working && s.lib.script == [FAILURE]
    ensures !GetResult(s, results).working
  {
    var u := Log(s, Delivered(results));
    if u.lib.remaining > 0 {
      FailedCallEnds(Called(u, NextCall, true).(exec := Nothing));
      assert GetResult(s, results) == MoreResults(u) == OutputError(Called(u, NextCall, true).(exec := Nothing));
    } else {
      assert GetResult(s, results) == UserTurn(Log(u.(working := false), Idle));
    }
  }

  lemma FailedContinuationEnds(s: State)
    requires s.working && s.queue != [] && s.lib.script == [FAILURE]
    ensures !RunContinuation(s).working
  {
    var t := s.(queue := s.queue[1..]);
    match s.queue[0]
    case ReportError => FailedCallEnds(t);
    case DeliverResult(results) => FailedResultEnds(t, results);
  }

  predicate CanEnd(s: State, a: Action) {
    Enabled(s, a) && !Apply(s, a).working
  }

  /** On a closed connection, and as long as no event overtook a continuation, a command in progress is
      stuck exactly when there is no behaviour of the library that lets its next step end it. */
  lemma StuckExactly(s: State)
    requires Inv(s) && s.working && (s.status == Bad || !s.overtaken)
    ensures Stuck(s) <==> !exists script, a :: Enabled(s, a) && CanEnd(WithScript(s, script), a)
  {
    if Stuck(s) {
      forall script, a | Enabled(s, a) ensures !CanEnd(WithScript(s, script), a) {
        StuckStep(WithScript(s, script), a);
      }
    } else {
      var t := WithScript(s, [FAILURE]);
      if s.queue != [] {
        FailedContinuationEnds(t);
        assert Enabled(s, Continue) && CanEnd(t, Continue);
      } else {
        FailedEventEnds(Overtake(t));
        assert Enabled(s, Event) && CanEnd(t, Event);
      }
    }
  }

  /** Unless a further command was accepted, the command is in progress exactly if it waits for the library. */
  predicate EndsOrWaits(s: State, t: State) {
    t.accepted == s.accepted ==> (t.working <==> t.wait != NO_WAIT)
  }

  lemma GiveUpEnds(s: State)
    requires s.wait == NO_WAIT
    ensures EndsOrWaits(s, GiveUp(s))
  {
    OutputErrorUntended(s.(exec := Nothing));
  }

  lemma FetchEnds(s: State)
    requires s.working
    ensures EndsOrWaits(s, Fetch(s))
  {
    StoreUntended(s);
  }

  lemma QueryEnds(s: State)
    requires s.working
    ensures EndsOrWaits(s, ContinueQuery(s))
  {
    var t := Called(s, QueryCall, false);
    if t.wait == NO_WAIT {
      GiveUpEnds(t);
      FetchEnds(Executed(t, Head(s).sets));
    }
  }

  lemma StoreEnds(s: State)
    requires s.working
    ensures EndsOrWaits(s, ContinueStore(s))
  {
    var t := Called(s, StoreCall, false);
    if t.wait == NO_WAIT {
      GiveUpEnds(t);
      GetResultUntended(t, ResultSet(t.lib.query, t.lib.index, t.lib.total));
    }
  }

  lemma NextEnds(s: State)
    requires s.working
    ensures EndsOrWaits(s, ContinueNext(s))
  {
    var t := Called(s, NextCall, false);
    if t.wait == NO_WAIT {
      GiveUpEnds(t);
      FetchEnds(Advanced(t));
    }
  }

  /** The next step of a command that is not stuck, its continuation or its event, ends it unless the
      library makes a call of that step wait. */
  lemma EndsUnlessWaiting(s: State, a: Action)
    requires Inv(s) && !s.overtaken && s.working && s.status in {Ok, Bad} && !Stuck(s)
    requires a == (if s.queue != [] then Continue else Event)
    ensures Enabled(s, a)
    ensures EndsOrWaits(s, Apply(s, a))
  {
    if s.queue != [] {
      ContinuationUntended(s);
    } else {
      var t := Overtake(s);
      match s.exec
      case RealQuery => QueryEnds(t);
      case StoreResult => StoreEnds(t);
      case NextResult => NextEnds(t);
      case Nothing =>
    }
  }

  // ------------------------------------------------------------------ where stuck commands come from

  const TIMEOUT_ALONE := Wait(false, false, false, true)

  /** After any step but a continuation, a command on an Ok connection has its continuation queued, or
      the library waits for it and the events it waits for will be noticed.  A wait for timeout alone is
      the gap. */
  lemma SettledProgress(charset: bool, script: seq<Reply>, run: seq<Action>, s: State)
    requires Reaches(charset, script, run, s) && Settled(run)
    requires !s.overtaken && s.working && s.status == Ok
    ensures s.queue != [] || (s.wait != NO_WAIT && (s.wait.read || s.wait.write || s.wait.except ==> Enabled(s, Event)))
    ensures Stuck(s) <==> s.wait == TIMEOUT_ALONE && !s.reading
  {
    RunInv(charset, script, run);
    InterestFollowsWait(charset, script, run);
  }

  /** After a continuation that accepted no further command, a command still in progress is stuck
      exactly when there was no interest before; one accepted in the continuation is as above. */
  lemma ContinuationProgress(charset: bool, script: seq<Reply>, run: seq<Action>, s: State)
    requires Reaches(charset, script, run, s) && !s.overtaken && s.queue != [] && s.status == Ok
    ensures var t := RunContinuation(s);
            t.working && t.status == Ok ==>
              && (t.accepted == s.accepted ==> (Stuck(t) <==> !s.reading && !s.writing))
              && (t.accepted > s.accepted ==> (Stuck(t) <==> t.wait == TIMEOUT_ALONE && !t.reading))
  {
    RunInv(charset, script, run);
    QueuedIsFresh(charset, script, run, s);
    RunContinuationInv(s);
    ContinuationUntended(s);
    assert |s.queue| == 1;
  }

  /** A command whose query has to wait for a timeout alone is stuck from the start when there is no
      read interest left over. */
  lemma TimeoutAloneIsStuck(s: State)
    requires MayStart(s) && s.status == Ok && s.queue == [] && !s.reading && Head(s).wait == TIMEOUT_ALONE
    ensures Stuck(ExecSql(s)) && Enabled(ExecSql(s), Timeout)
  {
  }

  // ------------------------------------------------------------------ commands on a closed connection

  /** A command has been taken on while nothing was queued: it waits for the library or its continuation. */
  predicate Alone(s: State, t: State) {
    && t.working && t.accepted == s.accepted && t.status == s.status
    && |t.queue| <= 1 && (t.queue != [] <==> t.wait == NO_WAIT)
  }

  lemma AcceptedAlone(s: State)
    requires s.queue == []
    ensures Alone(Accept(s), ExecSql(s))
  {
    StartOutcome(s);
    assert ExecSql(s).status == StartQuery(Accept(s)).status;
  }

  /** What a run from the acceptance on a closed connection, in state `t`, has come to. */
  predicate OnBad(t: State, run: seq<Action>, u: State) {
    && u.status == Bad && u.accepted >= t.accepted
    && if u.accepted > t.accepted then Continue in run
       else if Continue in run then u.queue == [] && (u.working <==> u.wait != NO_WAIT)
       else u.working && u.queue == t.queue && u.wait == t.wait
  }

  lemma Longer(run: seq<Action>, a: Action)
    ensures Continue in run + [a] <==> Continue in run || a == Continue
  {
  }

  lemma OnBadContinue(t: State, run: seq<Action>, u: State)
    requires OnBad(t, run, u) && u.queue != [] && |t.queue| <= 1 && (t.queue != [] <==> t.wait == NO_WAIT)
    ensures OnBad(t, run + [Continue], RunContinuation(u))
  {
    Longer(run, Continue);
    assert RunContinuation(u).status == Bad;
    if u.accepted == t.accepted {
      assert u.queue[1..] == [];
      ContinuationUntended(u);
    }
  }

  lemma OnBadCommand(t: State, run: seq<Action>, u: State)
    requires OnBad(t, run, u) && MayStart(u)
    ensures OnBad(t, run + [Command], ExecSql(u))
  {
    var v := ExecSql(u);
    Longer(run, Command);
    assert v.accepted == u.accepted + 1 && v.status == Bad;
    assert Continue in run;
  }

  /** Events and timeouts leave the rest as it is. */
  lemma OnBadIdle(t: State, run: seq<Action>, u: State, a: Action)
    requires OnBad(t, run, u) && Enabled(u, a) && (a == Event || a == Timeout)
    ensures OnBad(t, run + [a], Apply(u, a))
  {
    Longer(run, a);
    if a == Event {
      assert HandleEvent(u) == u;
    } else {
      TimeoutIgnored(u);
      assert HandleTimeout(u) == u.(timers := u.timers - 1);
    }
  }

  lemma OnBadStep(t: State, run: seq<Action>, u: State, a: Action)
    requires OnBad(t, run, u) && Enabled(u, a) && |t.queue| <= 1 && (t.queue != [] <==> t.wait == NO_WAIT)
    ensures OnBad(t, run + [a], Apply(u, a))
  {
    match a
    case Continue => OnBadContinue(t, run, u);
    case Command => OnBadCommand(t, run, u);
    case Event => OnBadIdle(t, run, u, a);
    case Timeout => OnBadIdle(t, run, u, a);
    case Connect =>
  }

  lemma {:induction false} RunOnBad(t: State, run: seq<Action>, u: State)
    requires t.status == Bad && t.working && |t.queue| <= 1 && (t.queue != [] <==> t.wait == NO_WAIT)
    requires Exec(t, run) == Some(u)
    ensures OnBad(t, run, u)
  {
    if run != [] {
      var front, last := run[..|run| - 1], run[|run| - 1];
      var u0 := Exec(t, front).value;
      RunOnBad(t, front, u0);
      OnBadStep(t, front, u0, last);
      assert run == front + [last];
    }
  }

  /** A command accepted on a closed connection, with no overtaken continuation before it, has ended
      exactly when its continuation has run and no library call made for it had to wait; once one has
      to wait, it is stuck for ever.  A further command is accepted only behind its end. */
  lemma CommandOnBad(s: State, run: seq<Action>, u: State)
    requires MayStart(s) && s.status == Bad && s.queue == []
    requires Exec(ExecSql(s), run) == Some(u)
    ensures u.accepted > s.accepted + 1 ==> Continue in run
    ensures u.accepted == s.accepted + 1 ==> (!u.working <==> Continue in run && u.wait == NO_WAIT)
    ensures u.accepted == s.accepted + 1 && u.working ==> (Stuck(u) <==> u.wait != NO_WAIT)
  {
    AcceptedAlone(s);
    RunOnBad(ExecSql(s), run, u);
  }
}
