/** Runs in which the connector does less than its users may expect. */
module MySQLCounterexamples {
  import opened CommandTrace
  import opened LibraryDialogue
  import opened MySQLDialogue
  import opened MySQLProgress
  import opened MySQLProtocol
  import opened MySQLState
  import opened Options

  const READING := Wait(true, false, false, false)
  const WRITING := Wait(false, true, false, false)

  /** The library has to wait; it is done; it fails; the user's answers. */
  const BLOCK := Reply(READING, false, false, 0, 0, false)
  const DONE := Reply(NO_WAIT, false, true, 0, 0, false)
  const MORE := Reply(NO_WAIT, false, true, 0, 1, false)
  const FAIL := Reply(NO_WAIT, true, false, 1064, 0, false)
  const YES := Reply(NO_WAIT, false, false, 0, 0, true)
  const NO := Reply(NO_WAIT, false, false, 0, 0, false)
  const BLOCK_WRITE := Reply(WRITING, false, false, 0, 0, false)

  const UP := [BLOCK, YES, DONE, NO]
  const PATH := [Unconnected, Connecting, Ok]

  /** Connected, with what is left of the script.  `steps` is the dialogue so far, here and below. */
  function Connected(script: seq<Reply>, steps: seq<Step>): State {
    State(Ok, Nothing, NO_WAIT, false, false, true, true, false, 0, [],
          Library(script, 0, 0, 0, 0, 0), 0, PATH, [Opened], false, false, steps)
  }

  lemma AfterCommand(s0: State, run: seq<Action>, s: State, t: State)
    requires Exec(s0, run) == Some(s) && MayStart(s) && ExecSql(s) == t
    ensures Exec(s0, run + [Command]) == Some(t)
  {
    Extend(s0, run, s, Command, t);
  }

  lemma AfterEvent(s0: State, run: seq<Action>, s: State, t: State)
    requires Exec(s0, run) == Some(s) && s.dispatcher && (s.reading || s.writing) && HandleEvent(s) == t
    ensures Exec(s0, run + [Event]) == Some(t)
  {
    Extend(s0, run, s, Event, t);
  }

  lemma AfterContinue(s0: State, run: seq<Action>, s: State, t: State)
    requires Exec(s0, run) == Some(s) && s.queue != [] && RunContinuation(s) == t
    ensures Exec(s0, run + [Continue]) == Some(t)
  {
    Extend(s0, run, s, Continue, t);
  }

  lemma Pop(s: State, r: Reply, rest: seq<Reply>)
    requires s.lib.script == [r] + rest
    ensures Head(s) == r && Chosen(s).lib.script == rest
  {
  }

  /** Waiting for the connect to complete. */
  function Rising(script: seq<Reply>, steps: seq<Step>): State {
    State(Connecting, Nothing, READING, false, false, true, true, false, 0, [],
          Library(script, 0, 0, 0, 0, 0), 0, [Unconnected, Connecting], [], false, false, steps)
  }

  lemma InitWaits(rest: seq<Reply>) returns (steps: seq<Step>)
    ensures Init(Initial(false, [BLOCK] + ([YES] + rest))) == Rising(rest, steps)
  {
    var s0 := Initial(false, [BLOCK] + ([YES] + rest));
    var t := Called(Enter(s0, Connecting), ConnectCall, true);
    Pop(s0, BLOCK, [YES] + rest);
    Pop(t, YES, rest);
    assert Init(s0) == TakeSocket(t) == SetEventDispatcher(Socketed(t).(dispatcher := true));
    steps := Init(s0).steps;
  }

  lemma ConnectDone(rest: seq<Reply>, before: seq<Step>) returns (steps: seq<Step>)
    ensures HandleEvent(Rising([DONE] + ([NO] + rest), before)) == Connected(rest, steps)
  {
    var s := Rising([DONE] + ([NO] + rest), before);
    var t := Called(s, ConnectCall, false);
    Pop(s, DONE, [NO] + rest);
    var u := Log(Enter(t, Ok), Opened);
    Pop(u, NO, rest);
    assert [Unconnected, Connecting] + [Ok] == PATH && [] + [Opened] == [Opened];
    assert UserTurn(u) == Chosen(u);
    assert HandleEvent(s) == SetEventDispatcher(BecomeOk(t));
    steps := u.steps;
  }

  lemma ReachConnected(rest: seq<Reply>) returns (steps: seq<Step>)
    ensures Exec(Initial(false, UP + rest), [Connect, Event]) == Some(Connected(rest, steps))
  {
    var rest1 := [DONE] + ([NO] + rest);
    assert UP + rest == [BLOCK] + ([YES] + rest1);
    var s0 := Initial(false, UP + rest);
    var r := InitWaits(rest1);
    Extend(s0, [], s0, Connect, Rising(rest1, r));
    steps := ConnectDone(rest, r);
    Extend(s0, [Connect], Rising(rest1, r), Event, Connected(rest, steps));
    assert [] + [Connect] == [Connect] && [Connect] + [Event] == [Connect, Event];
  }

  lemma StoredAtOnce(s: State, rest: seq<Reply>)
    requires s.lib.script == [DONE] + rest
    ensures StartStoreResult(s, true) == s.(
      exec := Nothing, wait := NO_WAIT, queue := s.queue + [DeliverResult(ResultSet(s.lib.query, s.lib.index, s.lib.total))],
      lib := Library(rest, 0, s.lib.remaining, s.lib.total, s.lib.query, s.lib.index), steps := StartStoreResult(s, true).steps)
  {
    Pop(s, DONE, rest);
  }

  lemma QueriedAtOnce(s: State, sets: nat, rest: seq<Reply>)
    requires s.lib.script == [DONE.(sets := sets)] + ([DONE] + rest) && s.accepted > 0
    ensures StartQuery(s) == s.(
      exec := Nothing, wait := NO_WAIT, queue := s.queue + [DeliverResult(ResultSet(s.accepted - 1, 0, sets + 1))],
      lib := Library(rest, 0, sets, sets + 1, s.accepted - 1, 0), steps := StartQuery(s).steps)
  {
    Pop(s, DONE.(sets := sets), [DONE] + rest);
    var u := s.(exec := RealQuery, wait := NO_WAIT, lib := Library([DONE] + rest, 0, sets, sets + 1, s.accepted - 1, 0),
                steps := QuerySent(s).steps);
    assert Executed(QuerySent(s), sets) == u;
    StoredAtOnce(u, rest);
  }

  function Complete(s: State, sets: nat, rest: seq<Reply>, steps: seq<Step>): State {
    s.(working := true, accepted := s.accepted + 1, crossed := s.crossed || s.queue != [],
       trace := s.trace + [Accepted(s.accepted)], exec := Nothing, wait := NO_WAIT,
       queue := s.queue + [DeliverResult(ResultSet(s.accepted, 0, sets + 1))], lib := Library(rest, 0, sets, sets + 1, s.accepted, 0),
       steps := steps)
  }

  lemma NothingToSet(s: State)
    requires s.wait == NO_WAIT && !s.writing
    ensures SetEventDispatcher(s) == s
  {
  }

  /** A command whose query and first store both complete at once. */
  lemma CompleteAtOnce(s: State, sets: nat, rest: seq<Reply>)
    requires s.lib.script == [DONE.(sets := sets)] + ([DONE] + rest) && !s.writing
    ensures ExecSql(s) == Complete(s, sets, rest, ExecSql(s).steps)
  {
    QueriedAtOnce(Accept(s), sets, rest);
    NothingToSet(Complete(s, sets, rest, StartQuery(Accept(s)).steps));
  }

  // ------------------------------------------------------------------ a close in the middle of a command

  /** A query and its only result set are both complete at once. */
  function Queued(steps: seq<Step>): State {
    Connected([], steps).(
      working := true, accepted := 1, trace := [Opened, Accepted(0)], queue := [DeliverResult(ResultSet(0, 0, 1))],
      lib := Library([], 0, 0, 1, 0, 0))
  }

  lemma CommandQueued(before: seq<Step>) returns (steps: seq<Step>)
    ensures ExecSql(Connected([DONE, DONE], before)) == Queued(steps)
  {
    assert [DONE, DONE] == [DONE] + ([DONE] + []);
    CompleteAtOnce(Connected([DONE, DONE], before), 0, []);
    assert [Opened] + [Accepted(0)] == [Opened, Accepted(0)];
    steps := ExecSql(Connected([DONE, DONE], before)).steps;
  }

  function ClosedOver(steps: seq<Step>): State {
    Queued(steps).(
      status := Bad, path := PATH + [Bad], reading := false, trace := [Opened, Accepted(0), Closed], overtaken := true,
      crossed := true)
  }

  lemma EventCloses(before: seq<Step>) returns (steps: seq<Step>)
    ensures HandleEvent(Queued(before)) == ClosedOver(steps)
  {
    var s := Overtake(Queued(before));
    assert [Opened, Accepted(0)] + [Closed] == [Opened, Accepted(0), Closed];
    assert HandleEvent(Queued(before)) == HandleClosed(s) == UserTurn(Closing(s)) == Chosen(Closing(s));
    steps := HandleEvent(Queued(before)).steps;
  }

  lemma LateResult(steps: seq<Step>)
    ensures RunContinuation(ClosedOver(steps)).trace == [Opened, Accepted(0), Closed, Delivered(ResultSet(0, 0, 1)), Idle]
  {
    var s := ClosedOver(steps);
    var t := s.(queue := []);
    assert s.queue[1..] == [];
    assert RunContinuation(s) == GetResult(t, ResultSet(0, 0, 1));
    var u := Log(Log(t, Delivered(ResultSet(0, 0, 1))).(working := false), Idle);
    assert GetResult(t, ResultSet(0, 0, 1)) == UserTurn(u);
  }

  lemma ReachClosed() returns (steps: seq<Step>)
    ensures Exec(Initial(false, UP + [DONE, DONE]), [Connect, Event] + [Command] + [Event]) == Some(ClosedOver(steps))
  {
    var s0 := Initial(false, UP + [DONE, DONE]);
    var c := ReachConnected([DONE, DONE]);
    var q := CommandQueued(c);
    AfterCommand(s0, [Connect, Event], Connected([DONE, DONE], c), Queued(q));
    steps := EventCloses(q);
    AfterEvent(s0, [Connect, Event] + [Command], Queued(q), ClosedOver(steps));
  }

  /** An event that comes before the queued continuation is taken for the server closing the
      connection; the result and the idle callback are delivered after the close callback. */
  lemma ResultAfterClose() returns (script: seq<Reply>, run: seq<Action>, s: State)
    ensures Reaches(false, script, run, s)
    ensures s.trace == [Opened, Accepted(0), Closed, Delivered(ResultSet(0, 0, 1)), Idle]
  {
    var steps := ReachClosed();
    script, run, s := UP + [DONE, DONE], [Connect, Event] + [Command] + [Event], RunContinuation(ClosedOver(steps));
    LateResult(steps);
    AfterContinue(Initial(false, script), run, ClosedOver(steps), s);
    run := run + [Continue];
  }

  // ------------------------------------------------------------------ a result set for another command

  const SECOND := [DONE, DONE]
  const THIRD := [DONE, DONE]

  /** The first command's query has failed at once, and the error report is queued. */
  function FailedFirst(steps: seq<Step>): State {
    Connected([FAIL, YES] + (SECOND + ([YES] + THIRD)), steps).(
      exec := RealQuery, working := true, accepted := 1, trace := [Opened, Accepted(0)], queue := [ReportError],
      lib := Library([FAIL, YES] + (SECOND + ([YES] + THIRD)), 1064, 0, 0, 0, 0))
  }

  lemma FirstFails(before: seq<Step>) returns (steps: seq<Step>)
    ensures ExecSql(Connected(SCRIPT, before)) == FailedFirst(steps)
  {
    var rest := [FAIL, YES] + (SECOND + ([YES] + THIRD));
    var s := Accept(Connected(SCRIPT, before));
    Pop(s, FAIL, rest);
    assert StartQuery(s) == QueryDone(QuerySent(s), true, 0);
    assert QuerySent(s).queue + [ReportError] == [ReportError];
    assert [Opened] + [Accepted(0)] == [Opened, Accepted(0)];
    steps := ExecSql(Connected(SCRIPT, before)).steps;
  }

  const TRACE1 := [Opened, Accepted(0), Failed(false), Idle, Accepted(1)]

  /** An event has reported the error already; the user's second command is complete and queued. */
  function StaleReport(steps: seq<Step>): State {
    FailedFirst(steps).(
      exec := Nothing, reading := false, accepted := 2, trace := TRACE1, overtaken := true, crossed := true,
      queue := [ReportError, DeliverResult(ResultSet(1, 0, 1))], lib := Library([YES] + THIRD, 0, 0, 1, 1, 0))
  }

  lemma FailureSeen(before: seq<Step>, tail: seq<Reply>) returns (t: State)
    requires FailedFirst(before).lib.script == [FAIL] + ([YES] + tail)
    ensures HandleEvent(FailedFirst(before)) == OutputError(t)
    ensures t == FailedFirst(t.steps).(overtaken := true, lib := Library([YES] + tail, 1064, 0, 0, 0, 0), exec := Nothing)
  {
    t := Called(Overtake(FailedFirst(before)), QueryCall, false).(exec := Nothing);
  }

  /** The event reports the failure, and the user starts the second command. */
  lemma FailsAgain(before: seq<Step>) returns (v: State)
    ensures HandleEvent(FailedFirst(before)) == ExecSql(v)
    ensures v == FailedFirst(v.steps).(
      exec := Nothing, reading := false, working := false, trace := [Opened, Accepted(0), Failed(false), Idle], overtaken := true,
      lib := Library(SECOND + ([YES] + THIRD), 1064, 0, 0, 0, 0))
  {
    var tail := SECOND + ([YES] + THIRD);
    assert [FAIL, YES] + tail == [FAIL] + ([YES] + tail);
    var t := FailureSeen(before, tail);
    var u := Log(Log(t.(reading := false), Failed(false)).(working := false), Idle);
    assert [Opened, Accepted(0)] + [Failed(false)] + [Idle] == u.trace;
    assert OutputError(t) == UserTurn(u);
    Pop(u, YES, tail);
    v := u.(lib := u.lib.(script := tail));
    assert UserTurn(u) == ExecSql(v);
  }

  lemma SecondQueued(before: seq<Step>) returns (steps: seq<Step>)
    ensures HandleEvent(FailedFirst(before)) == StaleReport(steps)
  {
    var v := FailsAgain(before);
    assert SECOND + ([YES] + THIRD) == [DONE] + ([DONE] + ([YES] + THIRD));
    CompleteAtOnce(v, 0, [YES] + THIRD);
    steps := ExecSql(v).steps;
    assert v.trace + [Accepted(1)] == TRACE1 && [ReportError] + [DeliverResult(ResultSet(1, 0, 1))] == StaleReport(steps).queue;
  }

  const TRACE2 := TRACE1 + [Failed(false)] + [Idle] + [Accepted(2)]

  /** The stale error report has failed the second command; the third is complete and queued behind
      the second one's result set. */
  function Mixed(steps: seq<Step>): State {
    StaleReport(steps).(
      accepted := 3, trace := TRACE2, lib := Library([], 0, 0, 1, 2, 0),
      queue := [DeliverResult(ResultSet(1, 0, 1)), DeliverResult(ResultSet(2, 0, 1))])
  }

  lemma ThirdQueued(before: seq<Step>) returns (steps: seq<Step>)
    ensures RunContinuation(StaleReport(before)) == Mixed(steps)
  {
    var s := StaleReport(before);
    assert s.queue[1..] == [DeliverResult(ResultSet(1, 0, 1))];
    var t := s.(queue := [DeliverResult(ResultSet(1, 0, 1))]);
    assert RunContinuation(s) == OutputError(t);
    var u := Log(Log(t, Failed(false)).(working := false), Idle);
    assert OutputError(t) == UserTurn(u);
    Pop(u, YES, THIRD);
    var v := u.(lib := u.lib.(script := THIRD));
    assert UserTurn(u) == ExecSql(v);
    assert THIRD == [DONE] + ([DONE] + []);
    CompleteAtOnce(v, 0, []);
    steps := ExecSql(v).steps;
  }

  lemma LastOfAll(steps: seq<Step>)
    ensures RunContinuation(Mixed(steps)).trace == TRACE2 + [Delivered(ResultSet(1, 0, 1))] + [Idle]
  {
    var s := Mixed(steps);
    var t := s.(queue := [DeliverResult(ResultSet(2, 0, 1))]);
    assert s.queue[1..] == t.queue;
    assert RunContinuation(s) == GetResult(t, ResultSet(1, 0, 1));
    var u := Log(Log(t, Delivered(ResultSet(1, 0, 1))).(working := false), Idle);
    assert GetResult(t, ResultSet(1, 0, 1)) == UserTurn(u);
  }

  const SCRIPT := [FAIL] + ([FAIL, YES] + (SECOND + ([YES] + THIRD)))

  lemma ReachStale() returns (steps: seq<Step>)
    ensures Exec(Initial(false, UP + SCRIPT), [Connect, Event] + [Command] + [Event]) == Some(StaleReport(steps))
  {
    var s0 := Initial(false, UP + SCRIPT);
    var c := ReachConnected(SCRIPT);
    var f := FirstFails(c);
    AfterCommand(s0, [Connect, Event], Connected(SCRIPT, c), FailedFirst(f));
    steps := SecondQueued(f);
    AfterEvent(s0, [Connect, Event] + [Command], FailedFirst(f), StaleReport(steps));
  }

  /** An event that overtakes an error report can make a command be failed in the place of another,
      and a result set be delivered to a command that did not ask for it. */
  lemma ResultOfAnotherCommand() returns (script: seq<Reply>, run: seq<Action>, s: State)
    ensures Reaches(false, script, run, s)
    ensures s.trace == TRACE2 + [Delivered(ResultSet(1, 0, 1))] + [Idle]
  {
    script, run := UP + SCRIPT, [Connect, Event] + [Command] + [Event];
    var r := ReachStale();
    var m := ThirdQueued(r);
    AfterContinue(Initial(false, script), run, StaleReport(r), Mixed(m));
    LastOfAll(m);
    run, s := run + [Continue], RunContinuation(Mixed(m));
    AfterContinue(Initial(false, script), run, Mixed(m), s);
    run := run + [Continue];
  }

  // ------------------------------------------------------------------ interest left stale

  const TWO_SETS := [MORE, DONE, BLOCK_WRITE]

  function FirstOfTwo(steps: seq<Step>): State {
    Connected([BLOCK_WRITE], steps).(
      working := true, accepted := 1, trace := [Opened, Accepted(0)], queue := [DeliverResult(ResultSet(0, 0, 2))],
      lib := Library([BLOCK_WRITE], 0, 1, 2, 0, 0))
  }

  lemma FirstQueued(before: seq<Step>) returns (steps: seq<Step>)
    ensures ExecSql(Connected(TWO_SETS, before)) == FirstOfTwo(steps)
  {
    assert TWO_SETS == [MORE] + ([DONE] + [BLOCK_WRITE]);
    CompleteAtOnce(Connected(TWO_SETS, before), 1, [BLOCK_WRITE]);
    assert [Opened] + [Accepted(0)] == [Opened, Accepted(0)];
    steps := ExecSql(Connected(TWO_SETS, before)).steps;
  }

  lemma SecondBlocks(steps: seq<Step>)
    ensures var s := RunContinuation(FirstOfTwo(steps));
            !s.overtaken && s.working && s.wait == WRITING && !s.writing && s.timers == 0
  {
    var t := Log(FirstOfTwo(steps).(queue := []), Delivered(ResultSet(0, 0, 2)));
    assert FirstOfTwo(steps).queue[1..] == [];
    assert RunContinuation(FirstOfTwo(steps)) == MoreResults(t);
  }

  lemma ReachFirstOfTwo() returns (steps: seq<Step>)
    ensures Exec(Initial(false, UP + TWO_SETS), [Connect, Event] + [Command]) == Some(FirstOfTwo(steps))
  {
    var c := ReachConnected(TWO_SETS);
    steps := FirstQueued(c);
    AfterCommand(Initial(false, UP + TWO_SETS), [Connect, Event], Connected(TWO_SETS, c), FirstOfTwo(steps));
  }

  /** The second result set has to be waited for to write, and write interest stays off. */
  lemma StaleInterest() returns (script: seq<Reply>, run: seq<Action>, s: State)
    ensures Reaches(false, script, run, s)
    ensures !s.overtaken && s.working && s.wait == WRITING && !s.writing && s.timers == 0
  {
    var steps := ReachFirstOfTwo();
    script, run, s := UP + TWO_SETS, [Connect, Event] + [Command], RunContinuation(FirstOfTwo(steps));
    SecondBlocks(steps);
    AfterContinue(Initial(false, script), run, FirstOfTwo(steps), s);
    run := run + [Continue];
  }

  // ------------------------------------------------------------------ commands nothing will end

  lemma NeverEnds(s: State)
    requires Stuck(s)
    ensures forall more, t :: Exec(s, more) == Some(t) ==> t.working && t.trace == s.trace
  {
    forall more, t | Exec(s, more) == Some(t) ensures t.working && t.trace == s.trace {
      StuckForever(s, more, t);
    }
  }

  /** The server has closed the connection, and the user was told. */
  function Shut(script: seq<Reply>, steps: seq<Step>): State {
    Connected(script, steps).(status := Bad, path := PATH + [Bad], reading := false, trace := [Opened, Closed])
  }

  lemma ReachShut(rest: seq<Reply>) returns (steps: seq<Step>)
    ensures Exec(Initial(false, UP + ([NO] + rest)), [Connect, Event] + [Event]) == Some(Shut(rest, steps))
  {
    var c := ReachConnected([NO] + rest);
    var s := Connected([NO] + rest, c);
    Pop(Closing(s), NO, rest);
    assert [Opened] + [Closed] == [Opened, Closed];
    steps := HandleEvent(s).steps;
    assert HandleEvent(s) == UserTurn(Closing(s)) == Shut(rest, steps);
    AfterEvent(Initial(false, UP + ([NO] + rest)), [Connect, Event], s, Shut(rest, steps));
  }

  /** A query that has to wait to read. */
  lemma QueryBlocks(s: State, rest: seq<Reply>)
    requires s.lib.script == [BLOCK] + rest && !s.writing && s.queue == []
    ensures ExecSql(s) == s.(
      working := true, accepted := s.accepted + 1, trace := s.trace + [Accepted(s.accepted)], exec := RealQuery, wait := READING,
      reading := true, lib := Library(rest, 0, s.lib.remaining, s.lib.total, s.accepted, 0), steps := ExecSql(s).steps)
  {
    Pop(Accept(s), BLOCK, rest);
  }

  /** A command queued from another thread is accepted although the server has closed the connection
      in the meantime; its query has to wait, and the command never ends. */
  lemma CommandAfterClose() returns (script: seq<Reply>, run: seq<Action>, s: State)
    ensures Reaches(false, script, run, s) && !s.overtaken
    ensures s.trace == [Opened, Closed, Accepted(0)]
    ensures forall more, t :: Exec(s, more) == Some(t) ==> t.working && t.trace == s.trace
  {
    var steps := ReachShut([BLOCK]);
    script, run, s := UP + ([NO] + [BLOCK]), [Connect, Event] + [Event], ExecSql(Shut([BLOCK], steps));
    AfterCommand(Initial(false, script), run, Shut([BLOCK], steps), s);
    assert [BLOCK] == [BLOCK] + [];
    QueryBlocks(Shut([BLOCK], steps), []);
    assert [Opened, Closed] + [Accepted(0)] == [Opened, Closed, Accepted(0)];
    NeverEnds(s);
    run := run + [Command];
  }

  /** A first command's query is being waited for. */
  function Querying(script: seq<Reply>, steps: seq<Step>): State {
    Connected(script, steps).(working := true, accepted := 1, trace := [Opened, Accepted(0)], exec := RealQuery, wait := READING)
  }

  /** It has failed, and the interest is off. */
  function Errored(script: seq<Reply>, steps: seq<Step>): State {
    Connected(script, steps).(
      accepted := 1, trace := [Opened, Accepted(0), Failed(false), Idle], reading := false, lib := Library(script, 1064, 0, 0, 0, 0))
  }

  lemma QueryFails(rest: seq<Reply>, before: seq<Step>) returns (steps: seq<Step>)
    ensures HandleEvent(Querying([FAIL] + ([NO] + rest), before)) == Errored(rest, steps)
  {
    var s := Querying([FAIL] + ([NO] + rest), before);
    Pop(s, FAIL, [NO] + rest);
    var t := Called(s, QueryCall, false).(exec := Nothing);
    assert HandleEvent(s) == OutputError(t);
    var u := Log(Log(t.(reading := false), Failed(false)).(working := false), Idle);
    steps := u.steps;
    assert [Opened, Accepted(0)] + [Failed(false)] + [Idle] == u.trace;
    assert u == Errored([NO] + rest, steps);
    assert OutputError(t) == UserTurn(u);
    Pop(u, NO, rest);
  }

  const AFTER_ERROR := [Connect, Event] + [Command] + [Event]

  lemma ReachErrored(rest: seq<Reply>) returns (steps: seq<Step>)
    ensures Exec(Initial(false, UP + ([BLOCK] + ([FAIL] + ([NO] + rest)))), AFTER_ERROR) == Some(Errored(rest, steps))
  {
    var rest1 := [FAIL] + ([NO] + rest);
    var s0 := Initial(false, UP + ([BLOCK] + rest1));
    var c := ReachConnected([BLOCK] + rest1);
    QueryBlocks(Connected([BLOCK] + rest1, c), rest1);
    var q := ExecSql(Connected([BLOCK] + rest1, c)).steps;
    assert [Opened] + [Accepted(0)] == [Opened, Accepted(0)];
    AfterCommand(s0, [Connect, Event], Connected([BLOCK] + rest1, c), Querying(rest1, q));
    steps := QueryFails(rest, q);
    AfterEvent(s0, [Connect, Event] + [Command], Querying(rest1, q), Errored(rest, steps));
  }

  lemma NextBlocks(before: seq<Step>, steps: seq<Step>)
    ensures var s := Complete(Errored([MORE] + ([DONE] + [BLOCK]), before), 1, [BLOCK], steps);
            RunContinuation(s) == Log(s, Delivered(ResultSet(1, 0, 2))).(
              queue := [], exec := NextResult, wait := READING, lib := Library([], 0, 1, 2, 1, 0), steps := RunContinuation(s).steps)
  {
    var s := Complete(Errored([MORE] + ([DONE] + [BLOCK]), before), 1, [BLOCK], steps);
    var t := Log(s.(queue := []), Delivered(ResultSet(1, 0, 2)));
    assert s.queue == [DeliverResult(ResultSet(1, 0, 2))] && s.queue[1..] == [];
    assert RunContinuation(s) == MoreResults(t);
  }

  /** An error has switched the interest off, and the next command's second result set has to be waited
      for in its continuation, which does not switch it on: the command waits to read, and nothing at
      all can happen to the connection any more. */
  lemma DeadlockAfterContinuation() returns (script: seq<Reply>, run: seq<Action>, s: State)
    ensures Reaches(false, script, run, s) && !s.overtaken && s.status == Ok
    ensures s.working && s.wait == READING && forall a :: !Enabled(s, a)
  {
    var rest := [MORE] + ([DONE] + [BLOCK]);
    script, run := UP + ([BLOCK] + ([FAIL] + ([NO] + rest))), AFTER_ERROR;
    var s0 := Initial(false, script);
    var e := ReachErrored(rest);
    CompleteAtOnce(Errored(rest, e), 1, [BLOCK]);
    var queued := ExecSql(Errored(rest, e));
    AfterCommand(s0, run, Errored(rest, e), queued);
    NextBlocks(e, queued.steps);
    s := RunContinuation(queued);
    AfterContinue(s0, run + [Command], queued, s);
    run := run + [Command] + [Continue];
  }

  const TIMING := Reply(Wait(false, false, false, true), false, false, 0, 0, false)

  /** A query that waits for a timeout alone, behind an error: no continuation is involved, the timer
      is set, and the command never ends. */
  lemma TimeoutAloneNeverEnds() returns (script: seq<Reply>, run: seq<Action>, s: State)
    ensures Reaches(false, script, run, s) && !s.overtaken && s.status == Ok && Settled(run)
    ensures s.wait == TIMING.wait && s.timers == 1
    ensures forall more, t :: Exec(s, more) == Some(t) ==> t.working && t.trace == s.trace
  {
    script, run := UP + ([BLOCK] + ([FAIL] + ([NO] + [TIMING]))), AFTER_ERROR;
    var e := ReachErrored([TIMING]);
    s := ExecSql(Errored([TIMING], e));
    AfterCommand(Initial(false, script), run, Errored([TIMING], e), s);
    TimeoutAloneIsStuck(Errored([TIMING], e));
    NeverEnds(s);
    run := run + [Command];
  }

  // ------------------------------------------------------------------ a close that is not noticed

  /** The query is done, and its only result set is being waited for. */
  function Storing(script: seq<Reply>, steps: seq<Step>): State {
    Connected(script, steps).(
      working := true, accepted := 1, trace := [Opened, Accepted(0)], exec := StoreResult, wait := READING,
      lib := Library(script, 0, 0, 1, 0, 0))
  }

  lemma StoreBlocks(rest: seq<Reply>, before: seq<Step>) returns (steps: seq<Step>)
    ensures ExecSql(Connected([DONE] + ([BLOCK] + rest), before)) == Storing(rest, steps)
  {
    var s := Connected([DONE] + ([BLOCK] + rest), before);
    Pop(Accept(s), DONE, [BLOCK] + rest);
    var u := Executed(QuerySent(Accept(s)), 0);
    Pop(u, BLOCK, rest);
    assert [Opened] + [Accepted(0)] == [Opened, Accepted(0)];
    assert StartQuery(Accept(s)) == StartStoreResult(u, true);
    steps := ExecSql(s).steps;
  }

  /** It has arrived, and the command is over. */
  function AllStored(script: seq<Reply>, steps: seq<Step>): State {
    Storing(script, steps).(working := false, wait := NO_WAIT, trace := [Opened, Accepted(0), Delivered(ResultSet(0, 0, 1)), Idle])
  }

  lemma StoreDone(rest: seq<Reply>, before: seq<Step>) returns (steps: seq<Step>)
    ensures HandleEvent(Storing([DONE] + ([NO] + rest), before)) == AllStored(rest, steps)
  {
    var s := Storing([DONE] + ([NO] + rest), before);
    Pop(s, DONE, [NO] + rest);
    var t := Called(s, StoreCall, false);
    assert Overtake(s) == s && HandleEvent(s) == ContinueStore(s);
    var u := Log(Log(t, Delivered(ResultSet(0, 0, 1))).(working := false), Idle);
    assert GetResult(t, ResultSet(0, 0, 1)) == UserTurn(u);
    assert [Opened, Accepted(0)] + [Delivered(ResultSet(0, 0, 1))] + [Idle] == u.trace;
    Pop(u, NO, rest);
    steps := u.steps;
  }

  const UNNOTICED := [DONE] + ([BLOCK] + ([DONE] + ([NO] + [DONE])))

  lemma ReachAllStored() returns (run: seq<Action>, steps: seq<Step>)
    ensures Exec(Initial(false, UP + UNNOTICED), run) == Some(AllStored([DONE], steps))
  {
    var s0 := Initial(false, UP + UNNOTICED);
    var c := ReachConnected(UNNOTICED);
    var q := StoreBlocks([DONE] + ([NO] + [DONE]), c);
    AfterCommand(s0, [Connect, Event], Connected(UNNOTICED, c), Storing([DONE] + ([NO] + [DONE]), q));
    steps := StoreDone([DONE], q);
    AfterEvent(s0, [Connect, Event] + [Command], Storing([DONE] + ([NO] + [DONE]), q), AllStored([DONE], steps));
    run := [Connect, Event] + [Command] + [Event];
  }

  lemma StoreOnceMore(s: State)
    requires !s.working && s.exec == StoreResult && s.status == Ok && s.queue == [] && Head(s) == DONE
    ensures HandleEvent(s) == SetEventDispatcher(Called(s, StoreCall, false))
  {
    var t := Called(s, StoreCall, false);
    assert Overtake(s) == s && HandleEvent(s) == ContinueStore(s);
    assert GetResult(t, ResultSet(t.lib.query, t.lib.index, t.lib.total)) == t;
  }

  /** The only result set of a command had to be waited for.  An event on the connection, now idle, is
      then not taken for the server closing it: the store is continued once more, and if the library
      has nothing to say against that, nothing happens. */
  lemma IdleCloseMissed() returns (script: seq<Reply>, run: seq<Action>, s: State, t: State)
    ensures Reaches(false, script, run, s) && !s.overtaken && s.status == Ok && !s.working && s.wait == NO_WAIT
    ensures Enabled(s, Event) && t == HandleEvent(s) && t.status == Ok && t.trace == s.trace && t.wait == NO_WAIT
    ensures t.steps == s.steps + [Asked(StoreCall, false, Completes(0))]
  {
    script := UP + UNNOTICED;
    var r, steps := ReachAllStored();
    run, s := r, AllStored([DONE], steps);
    t := HandleEvent(s);
    StoreOnceMore(s);
  }
}
