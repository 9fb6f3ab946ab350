/** What each step of the connector comes to, from the replies of the library to the calls it makes. */
module MySQLOutcomes {
  import opened CommandTrace
  import opened LibraryDialogue
  import opened MySQLDialogue
  import opened MySQLGrowth
  import opened MySQLProtocol
  import opened MySQLState
  import opened Options

  // ------------------------------------------------------------------ every step makes its call

  /** What a step does first: the call or the callback it is for. */
  function FirstStep(s: State, a: Action): Option<Step>
    requires Enabled(s, a)
  {
    match a
    case Connect => Some(Asked(ConnectCall, true, AnswerOf(ConnectCall, true, Head(s))))
    case Command => Some(Told(Accepted(s.accepted)))
    case Continue =>
      if !s.working then None else
      (match s.queue[0]
       case ReportError => Some(Told(Failed(Lost(s.lib.errno))))
       case DeliverResult(results) => Some(Told(Delivered(results))))
    case Timeout =>
      if s.status == Connecting then Some(Asked(ConnectCall, false, AnswerOf(ConnectCall, false, Head(s))))
      else if s.status == SettingCharacterSet then Some(Asked(CharsetCall, false, AnswerOf(CharsetCall, false, Head(s))))
      else None
    case Event =>
      match s.status
      case Connecting => Some(Asked(ConnectCall, false, AnswerOf(ConnectCall, false, Head(s))))
      case SettingCharacterSet => Some(Asked(CharsetCall, false, AnswerOf(CharsetCall, false, Head(s))))
      case Ok =>
        if s.exec != Nothing then Some(Asked(CallOf(s.exec), false, AnswerOf(CallOf(s.exec), false, Head(s))))
        else if s.wait == NO_WAIT then Some(Told(Closed)) else None
      case _ => None
  }

  /** No step is left out: each one makes the call, or the callback, that it is for. */
  lemma StepSpeaks(s: State, a: Action)
    requires Enabled(s, a)
    ensures FirstStep(s, a).Some? ==> s.steps + [FirstStep(s, a).value] <= Apply(s, a).steps
    ensures a == Command ==>
              s.steps + [Told(Accepted(s.accepted)), Asked(QueryCall, true, AnswerOf(QueryCall, true, Head(s)))] <= Apply(s, a).steps
  {
    match a
    case Connect => ConnectFirst(s);
    case Command => CommandSpeaks(s);
    case Continue => ContinuationSpeaks(s);
    case Timeout => TimeoutSpeaks(s);
    case Event => EventSpeaks(s);
  }

  lemma CommandSpeaks(s: State)
    ensures s.steps + [Told(Accepted(s.accepted))] <= ExecSql(s).steps
    ensures s.steps + [Told(Accepted(s.accepted)), Asked(QueryCall, true, AnswerOf(QueryCall, true, Head(s)))] <= ExecSql(s).steps
  {
    var t := Accept(s);
    StartQueryGrows(t);
    assert ExecSql(s).steps == StartQuery(t).steps;
    TwoSteps(s.steps, Told(Accepted(s.accepted)), Asked(QueryCall, true, AnswerOf(QueryCall, true, Head(s))), ExecSql(s).steps);
  }

  lemma TwoSteps(steps: seq<Step>, x: Step, y: Step, all: seq<Step>)
    requires steps + [x] + [y] <= all
    ensures steps + [x] <= all && steps + [x, y] <= all
  {
    assert steps + [x] + [y] == steps + [x, y];
  }

  lemma ContinuationSpeaks(s: State)
    requires s.queue != []
    ensures FirstStep(s, MySQLState.Continue).Some? ==>
              s.steps + [FirstStep(s, MySQLState.Continue).value] <= RunContinuation(s).steps
  {
    var t := s.(queue := s.queue[1..]);
    if s.working {
      match s.queue[0]
      case ReportError => OutputErrorGrows(t);
      case DeliverResult(results) => GetResultTells(t, results);
    }
  }

  lemma ConnectSpeaks(s: State)
    ensures Called(s, ConnectCall, false).steps <= ContinueConnect(s).steps
    ensures Called(s, CharsetCall, false).steps <= ContinueSetCharacterSet(s).steps
  {
    ContinueConnectGrows(s);
    ContinueCharsetGrows(s);
  }

  lemma TimeoutSpeaks(s: State)
    requires s.timers > 0
    ensures FirstStep(s, Timeout).Some? ==> s.steps + [FirstStep(s, Timeout).value] <= HandleTimeout(s).steps
  {
    var u := s.(timers := s.timers - 1);
    ConnectSpeaks(u);
    assert Head(u) == Head(s) && u.steps == s.steps;
    if s.status == Connecting {
      assert HandleTimeout(s) == ContinueConnect(u);
    } else if s.status == SettingCharacterSet {
      assert HandleTimeout(s) == ContinueSetCharacterSet(u);
    }
  }

  lemma ConnectFirst(s: State)
    requires s.status == Unconnected
    ensures s.steps + [FirstStep(s, Connect).value] <= Init(s).steps
  {
    InitSpeaks(s);
    assert Head(Enter(s, Connecting)) == Head(s);
  }

  lemma CmdSpeaks(s: State)
    requires s.status == Ok
    ensures match s.exec
            case Nothing => s.wait == NO_WAIT ==> Log(s, Closed).steps <= HandleCmd(s).steps
            case exec => Called(s, CallOf(exec), false).steps <= HandleCmd(s).steps
  {
    match s.exec
    case RealQuery =>
      ContinueQueryTells(s);
      assert HandleCmd(s) == ContinueQuery(s);
    case StoreResult =>
      ContinueStoreTells(s);
      assert HandleCmd(s) == ContinueStore(s);
    case NextResult =>
      ContinueNextTells(s);
      assert HandleCmd(s) == ContinueNext(s);
    case Nothing =>
      if s.wait == NO_WAIT {
        HandleClosedGrows(s);
        assert HandleCmd(s) == HandleClosed(s);
      }
  }

  lemma EventSpeaks(s: State)
    requires Enabled(s, Event)
    ensures FirstStep(s, Event).Some? ==> s.steps + [FirstStep(s, Event).value] <= HandleEvent(s).steps
  {
    if s.status == Ok {
      var t := Overtake(s);
      CmdSpeaks(t);
      assert HandleEvent(s) == HandleCmd(t) && Head(t) == Head(s) && t.steps == s.steps && t.exec == s.exec && t.wait == s.wait;
    } else {
      ConnectSpeaks(s);
    }
  }

  // ------------------------------------------------------------------ connecting

  /** A library call that continues the connect fails: a null result and an error number. */
  predicate ConnectFails(r: Reply) {
    r.wait == NO_WAIT && !r.ret && r.errno != 0
  }

  predicate CharsetFails(r: Reply) {
    r.wait == NO_WAIT && r.err
  }

  /** The reply behind the first. */
  function Second(s: State): Reply {
    if |s.lib.script| > 1 then s.lib.script[1] else DEFAULT
  }

  /** How a step comes out: the connection is open, or given up, or the library has to be waited for. */
  datatype Verdict = Opens | Breaks | Pends

  function OnCharset(r: Reply): Verdict {
    if CharsetFails(r) then Breaks else if r.wait == NO_WAIT then Opens else Pends
  }

  /** What the replies `r` to the call of the step, and `next` to a call behind it, decide. */
  function Decided(status: Status, charset: bool, r: Reply, next: Reply): Verdict {
    if status != Connecting then OnCharset(r)
    else if ConnectFails(r) then Breaks
    else if r.wait != NO_WAIT then Pends
    else if charset then OnCharset(next) else Opens
  }

  predicate ComesOut(trace: seq<Event>, t: State, v: Verdict) {
    match v
    case Opens => t.status == Ok && trace + [Opened] <= t.trace && Closed !in t.trace[|trace|..]
    case Breaks => t.status == Bad && t.trace == trace + [Closed]
    case Pends => t.status in {Connecting, SettingCharacterSet} && t.trace == trace
  }

  lemma OpensNow(s: State)
    ensures ComesOut(s.trace, SetEventDispatcher(BecomeOk(s)), Opens)
  {
    var t := Log(Enter(s, Ok), Opened);
    StaysOpen(t);
    TurnTells(t);
  }

  /** A user's turn adds at most the acceptance of a command to the trace. */
  lemma TurnTells(s: State)
    ensures UserTurn(s).trace == s.trace || UserTurn(s).trace == s.trace + [Accepted(s.accepted)]
  {
    if Head(s).yes && MayStart(s) {
      assert UserTurn(s).trace == StartQuery(Accept(Chosen(s))).trace;
    }
  }

  lemma BreaksNow(s: State)
    requires Ok !in s.path && s.status != Bad
    ensures ComesOut(s.trace, HandleClosed(s), Breaks)
  {
    assert UserTurn(Closing(s)) == Chosen(Closing(s));
  }

  lemma StartCharsetComesOut(s: State)
    requires Ok !in s.path && s.status == Connecting
    ensures ComesOut(s.trace, StartSetCharacterSet(s), OnCharset(Head(s)))
  {
    var t := Called(s, CharsetCall, true);
    if t.wait != NO_WAIT {
      assert StartSetCharacterSet(s) == SetEventDispatcher(Enter(t, SettingCharacterSet));
    } else if Head(s).err {
      BreaksNow(t);
      assert StartSetCharacterSet(s) == HandleClosed(t);
    } else {
      OpensNow(t);
      assert StartSetCharacterSet(s) == SetEventDispatcher(BecomeOk(t));
    }
  }

  lemma CharsetComesOut(s: State)
    requires Ok !in s.path && s.status == SettingCharacterSet
    ensures ComesOut(s.trace, ContinueSetCharacterSet(s), OnCharset(Head(s)))
  {
    var t := Called(s, CharsetCall, false);
    OpensNow(t);
    BreaksNow(t);
  }

  lemma ConnectComesOut(s: State)
    requires Ok !in s.path && s.status == Connecting
    ensures ComesOut(s.trace, ContinueConnect(s), Decided(Connecting, s.charset, Head(s), Second(s)))
  {
    var t := Called(s, ConnectCall, false);
    NextReply(s);
    if t.wait != NO_WAIT {
      assert ContinueConnect(s) == SetEventDispatcher(t);
    } else if !Head(s).ret && t.lib.errno != 0 {
      BreaksNow(t);
      assert ContinueConnect(s) == HandleClosed(t);
    } else if s.charset {
      StartCharsetComesOut(t);
      assert ContinueConnect(s) == StartSetCharacterSet(t);
    } else {
      OpensNow(t);
      assert ContinueConnect(s) == SetEventDispatcher(BecomeOk(t));
    }
  }

  lemma NextReply(s: State)
    ensures Head(Called(s, ConnectCall, false)) == Second(s) && Head(Called(s, ConnectCall, true)) == Second(s)
  {
  }

  lemma NotOpenYet(s: State)
    requires Inv(s) && s.status in {Unconnected, Connecting, SettingCharacterSet}
    ensures Ok !in s.path
  {
  }

  /** A step that continues the connect or the character set gives the connection up exactly if one of
      its library calls fails, opens it exactly if all complete without failure, and otherwise tells
      the user nothing. */
  lemma ConnectOutcome(s: State, a: Action)
    requires Inv(s) && s.status in {Connecting, SettingCharacterSet} && Enabled(s, a) && (a == Event || a == Timeout)
    ensures ComesOut(s.trace, Apply(s, a), Decided(s.status, s.charset, Head(s), Second(s)))
  {
    NotOpenYet(s);
    if a == Timeout {
      TimeoutComesOut(s);
    } else if s.status == Connecting {
      ConnectComesOut(s);
    } else {
      CharsetComesOut(s);
    }
  }

  lemma TimeoutComesOut(s: State)
    requires Ok !in s.path && s.status in {Connecting, SettingCharacterSet} && s.timers > 0
    ensures ComesOut(s.trace, HandleTimeout(s), Decided(s.status, s.charset, Head(s), Second(s)))
  {
    var u := s.(timers := s.timers - 1);
    if s.status == Connecting {
      ConnectComesOut(u);
      assert HandleTimeout(s) == ContinueConnect(u);
    } else {
      CharsetComesOut(u);
      assert HandleTimeout(s) == ContinueSetCharacterSet(u);
    }
  }

  /** `init`: it goes on connecting, and has a dispatcher, or has told the user of a close. */
  predicate Started(s: State, t: State, up: bool) {
    t.status == Connecting && t.dispatcher == up && t.trace == if up then s.trace else s.trace + [Closed]
  }

  lemma SocketOutcome(s: State)
    requires !s.dispatcher && s.status == Connecting
    ensures Started(s, TakeSocket(s), Head(s).yes)
  {
    var t := Socketed(s);
    if Head(s).yes {
      assert TakeSocket(s) == SetEventDispatcher(t.(dispatcher := true));
    } else {
      assert TakeSocket(s) == Log(t, Closed);
    }
  }

  /** A start that fails at once or a missing socket closes the connection before it has a dispatcher;
      otherwise it has one and the user is told nothing. */
  lemma InitOutcome(s: State)
    requires s.status == Unconnected && !s.dispatcher
    ensures Started(s, Init(s), !(Head(s).wait == NO_WAIT && Head(s).errno != 0) && Second(s).yes)
  {
    var t := Called(Enter(s, Connecting), ConnectCall, true);
    NextReply(Enter(s, Connecting));
    if t.wait == NO_WAIT && t.lib.errno != 0 {
      assert Init(s) == Log(t, Closed);
    } else {
      SocketOutcome(t);
      assert Init(s) == TakeSocket(t);
    }
  }

  /** No other step opens a connection. */
  lemma StepOpens(s: State, a: Action)
    requires Inv(s) && Enabled(s, a) && Opened !in s.trace && Opened in Apply(s, a).trace
    ensures a in {Event, Timeout} && s.status in {Connecting, SettingCharacterSet}
    ensures Decided(s.status, s.charset, Head(s), Second(s)) == Opens
  {
    assert s.trace[..|s.trace|] == s.trace;
    OpenedBefore(s.trace, |s.trace|);
    assert Ok !in s.path;
    if a == Connect {
      InitOutcome(s);
    } else if s.status in {Connecting, SettingCharacterSet} {
      ConnectOutcome(s, a);
    }
  }

  /** In every run a connection is opened only by a step whose connection calls all completed without
      failure. */
  lemma {:induction false} OpenedBySuccess(charset: bool, script: seq<Reply>, run: seq<Action>, s: State) returns (k: nat, s0: State)
    requires Reaches(charset, script, run, s) && Opened in s.trace
    ensures k < |run| && run[k] in {Event, Timeout} && Reaches(charset, script, run[..k], s0)
    ensures s0.status in {Connecting, SettingCharacterSet} && Decided(s0.status, s0.charset, Head(s0), Second(s0)) == Opens
  {
    var front := run[..|run| - 1];
    var before := Exec(Initial(charset, script), front).value;
    if Opened in before.trace {
      k, s0 := OpenedBySuccess(charset, script, front, before);
      assert front[..k] == run[..k];
    } else {
      RunInv(charset, script, front);
      StepOpens(before, run[|run| - 1]);
      k, s0 := |front|, before;
    }
  }

  // ------------------------------------------------------------------ events between commands

  /** An event on an idle connection is taken for the server closing it, unless the last store had to
      wait: then that store is continued once more, and only its failure with one of the two lost
      error numbers closes the connection. */
  lemma IdleEvent(charset: bool, script: seq<Reply>, run: seq<Action>, s: State)
    requires Reaches(charset, script, run, s) && !s.overtaken && s.status == Ok && !s.working && Enabled(s, Event)
    ensures SessionOf(charset, s.steps).Some?
    ensures var t, stale, r := HandleEvent(s), SessionOf(charset, s.steps).value.stale, Head(s);
            && (t.status == Bad <==> !stale || (r.wait == NO_WAIT && !r.ret && Gone(r.errno)))
            && (stale ==> s.steps + [Asked(StoreCall, false, AnswerOf(StoreCall, false, r))] <= t.steps)
  {
    RunLinked(charset, script, run, s);
    RunInv(charset, script, run);
    SameCharset(charset, script, run, s);
    EventSpeaks(s);
    assert Overtake(s) == s && HandleEvent(s) == HandleCmd(s);
    if s.exec == StoreResult {
      StaleOutcome(s);
    }
  }

  lemma StaleOutcome(s: State)
    requires !s.working && s.status == Ok && s.exec == StoreResult
    ensures var r := Head(s); ContinueStore(s).status == Bad <==> r.wait == NO_WAIT && !r.ret && Gone(r.errno)
  {
    var t := Called(s, StoreCall, false);
    if t.wait == NO_WAIT {
      if !Head(s).ret && t.lib.errno != 0 {
        assert ContinueStore(s) == OutputError(t.(exec := Nothing));
      } else {
        assert GetResult(t, ResultSet(t.lib.query, t.lib.index, t.lib.total)) == t;
      }
    }
  }

  // ------------------------------------------------------------------ the steps of a command

  /** The dialogue goes on with these steps. */
  predicate GoesOn(s: State, xs: seq<Step>, t: State) {
    s.steps + xs <= t.steps
  }

  /** A failed store: a null result and an error number. */
  predicate StoreFails(r: Reply) {
    !r.ret && r.errno != 0
  }

  function ResultDue(s: State): ResultSet {
    ResultSet(s.lib.query, s.lib.index, s.lib.total)
  }

  lemma FailureTells(s: State, before: State, x: Step)
    requires s.working && s.steps == before.steps + [x]
    ensures GoesOn(before, [x, Told(Failed(Gone(s.lib.errno)))], OutputError(s))
  {
    OutputErrorGrows(s);
    assert before.steps + [x, Told(Failed(Gone(s.lib.errno)))] == Log(s, Failed(Lost(s.lib.errno))).steps;
  }

  lemma DeliveryTells(s: State, before: State, x: Step)
    requires s.working && s.steps == before.steps + [x]
    ensures GoesOn(before, [x, Told(Delivered(ResultDue(s)))], GetResult(s, ResultDue(s)))
  {
    GetResultTells(s, ResultDue(s));
    assert before.steps + [x, Told(Delivered(ResultDue(s)))] == Log(s, Delivered(ResultDue(s))).steps;
  }

  /** A result set is fetched for a command: its failure is the command's exception, its completion is
      the delivery. */
  lemma FetchOutcome(s: State)
    requires s.working
    ensures var t, r, x := StartStoreResult(s, false), Head(s), Asked(StoreCall, true, AnswerOf(StoreCall, true, Head(s)));
            if r.wait != NO_WAIT then t.steps == s.steps + [x]
            else GoesOn(s, [x, Told(if StoreFails(r) then Failed(Gone(r.errno)) else Delivered(ResultDue(s)))], t)
  {
    var x := Asked(StoreCall, true, AnswerOf(StoreCall, true, Head(s)));
    var t := Called(s, StoreCall, true).(exec := Nothing);
    if t.wait == NO_WAIT {
      assert StartStoreResult(s, false) == Stored(t, false, Head(s).ret);
      if StoreFails(Head(s)) {
        FailureTells(t, s, x);
      } else {
        DeliveryTells(t, s, x);
      }
    }
  }

  /** An event continues the query of a command: if it fails the command does, and if it completes the
      first result set is fetched. */
  lemma QueryOutcome(s: State)
    requires s.working
    ensures var t, r, x := ContinueQuery(s), Head(s), Asked(QueryCall, false, AnswerOf(QueryCall, false, Head(s)));
            if r.wait != NO_WAIT then t.steps == s.steps + [x]
            else if r.err then GoesOn(s, [x, Told(Failed(Gone(r.errno)))], t)
            else t.steps == StartStoreResult(Executed(Called(s, QueryCall, false), r.sets), false).steps
  {
    var t := Called(s, QueryCall, false);
    if t.wait == NO_WAIT && Head(s).err {
      FailureTells(t.(exec := Nothing), s, Asked(QueryCall, false, AnswerOf(QueryCall, false, Head(s))));
      assert ContinueQuery(s) == OutputError(t.(exec := Nothing));
    }
  }

  /** The same for the call that moves on to the next result set. */
  lemma NextOutcome(s: State)
    requires s.working
    ensures var t, r, x := ContinueNext(s), Head(s), Asked(NextCall, false, AnswerOf(NextCall, false, Head(s)));
            if r.wait != NO_WAIT then t.steps == s.steps + [x]
            else if r.err then GoesOn(s, [x, Told(Failed(Gone(r.errno)))], t)
            else t.steps == StartStoreResult(Advanced(Called(s, NextCall, false)), false).steps
  {
    var t := Called(s, NextCall, false);
    if t.wait == NO_WAIT && Head(s).err {
      FailureTells(t.(exec := Nothing), s, Asked(NextCall, false, AnswerOf(NextCall, false, Head(s))));
      assert ContinueNext(s) == OutputError(t.(exec := Nothing));
    }
  }

  /** And for a store that had to wait. */
  lemma StoreOutcome(s: State)
    requires s.working
    ensures var t, r, x := ContinueStore(s), Head(s), Asked(StoreCall, false, AnswerOf(StoreCall, false, Head(s)));
            if r.wait != NO_WAIT then t.steps == s.steps + [x]
            else GoesOn(s, [x, Told(if StoreFails(r) then Failed(Gone(r.errno)) else Delivered(ResultDue(s)))], t)
  {
    var x := Asked(StoreCall, false, AnswerOf(StoreCall, false, Head(s)));
    var t := Called(s, StoreCall, false);
    if t.wait == NO_WAIT {
      if StoreFails(Head(s)) {
        FailureTells(t.(exec := Nothing), s, x);
        assert ContinueStore(s) == OutputError(t.(exec := Nothing));
      } else {
        DeliveryTells(t, s, x);
        assert ContinueStore(s) == SetEventDispatcher(GetResult(t, ResultDue(t)));
      }
    }
  }

  /** A delivered result set is followed by idle if it was the last, and else by the call that moves on. */
  lemma DeliveryOutcome(s: State, results: ResultSet)
    requires s.working
    ensures var t := GetResult(s, results);
            if s.lib.remaining == 0 then GoesOn(s, [Told(Delivered(results)), Told(Idle)], t)
            else GoesOn(s, [Told(Delivered(results)), Asked(NextCall, true, AnswerOf(NextCall, true, Head(s)))], t)
  {
    var t := Log(s, Delivered(results));
    if s.lib.remaining == 0 {
      var u := Log(t.(working := false), Idle);
      UserTurnGrows(u);
      assert GetResult(s, results) == UserTurn(u);
      assert s.steps + [Told(Delivered(results)), Told(Idle)] == u.steps;
    } else {
      MoreResultsTells(t);
      assert GetResult(s, results) == MoreResults(t);
      assert s.steps + [Told(Delivered(results)), Asked(NextCall, true, AnswerOf(NextCall, true, Head(s)))]
          == Called(t, NextCall, true).steps;
    }
  }

  lemma MoreResultsTells(s: State)
    requires s.lib.remaining > 0
    ensures Called(s, NextCall, true).steps <= MoreResults(s).steps
  {
    var u := Called(s, NextCall, true).(exec := NextResult);
    if u.wait == NO_WAIT {
      NextReadyGrows(u, Head(s).err);
      assert MoreResults(s) == NextReady(u, Head(s).err);
    }
  }

  /** What a command has come to when `execSqlInLoop` returns. */
  predicate Begun(t: State, exec: ExecStatus, wait: Wait, queue: seq<Continuation>) {
    t.working && t.exec == exec && t.wait == wait && t.queue == queue
  }

  /** Started with the query of command `cmd`, from the two replies. */
  predicate BegunWith(t: State, cmd: nat, r: Reply, next: Reply, queue: seq<Continuation>) {
    if r.wait != NO_WAIT then Begun(t, RealQuery, r.wait, queue)
    else if r.err then Begun(t, RealQuery, NO_WAIT, queue + [ReportError])
    else if next.wait != NO_WAIT then Begun(t, StoreResult, next.wait, queue)
    else Begun(t, Nothing, NO_WAIT, queue + [if StoreFails(next) then ReportError else DeliverResult(ResultSet(cmd, 0, r.sets + 1))])
  }

  lemma QueryWaits(s: State)
    requires s.working && Head(s).wait != NO_WAIT
    ensures Begun(StartQuery(s), RealQuery, Head(s).wait, s.queue)
  {
    assert StartQuery(s) == QuerySent(s);
  }

  lemma QueryFailsAtOnce(s: State)
    requires s.working && Head(s).wait == NO_WAIT && Head(s).err
    ensures Begun(StartQuery(s), RealQuery, NO_WAIT, s.queue + [ReportError])
  {
    var u := QuerySent(s);
    assert StartQuery(s) == u.(queue := u.queue + [ReportError]);
  }

  lemma QueryStores(s: State)
    requires s.working && s.accepted > 0 && Head(s).wait == NO_WAIT && !Head(s).err
    ensures var u := Executed(QuerySent(s), Head(s).sets);
            && StartQuery(s) == StartStoreResult(u, true) && u.queue == s.queue && u.working
            && ResultDue(u) == ResultSet(s.accepted - 1, 0, Head(s).sets + 1) && Head(u) == Head(QuerySent(s))
  {
  }

  lemma QueryBegun(s: State)
    requires s.working && s.accepted > 0
    ensures BegunWith(StartQuery(s), s.accepted - 1, Head(s), Head(QuerySent(s)), s.queue)
  {
    if Head(s).wait != NO_WAIT {
      QueryWaits(s);
    } else if Head(s).err {
      QueryFailsAtOnce(s);
    } else {
      QueryStores(s);
      StoreBegun(Executed(QuerySent(s), Head(s).sets));
    }
  }

  lemma SetBegun(t: State, cmd: nat, r: Reply, next: Reply, queue: seq<Continuation>)
    requires BegunWith(t, cmd, r, next, queue)
    ensures BegunWith(SetEventDispatcher(t), cmd, r, next, queue)
  {
    SetKeeps(t);
  }

  /** The query and the first store are started at once; what cannot be decided at once waits for the
      library, and what can is left with the loop. */
  lemma StartOutcome(s: State)
    ensures ExecSql(s).accepted == s.accepted + 1
    ensures BegunWith(ExecSql(s), s.accepted, Head(s), Second(s), s.queue)
  {
    AcceptKeeps(s);
    AcceptedBegun(Accept(s), s.accepted, Head(s), Second(s), s.queue);
  }

  lemma AcceptedBegun(s: State, cmd: nat, r: Reply, next: Reply, queue: seq<Continuation>)
    requires s.working && s.accepted == cmd + 1 && Head(s) == r && Head(QuerySent(s)) == next && s.queue == queue
    ensures BegunWith(SetEventDispatcher(StartQuery(s)), cmd, r, next, queue)
  {
    QueryBegun(s);
    SetBegun(StartQuery(s), cmd, r, next, queue);
  }

  lemma SetKeeps(s: State)
    ensures var t := SetEventDispatcher(s);
            t.working == s.working && t.exec == s.exec && t.wait == s.wait && t.queue == s.queue
  {
  }

  lemma AcceptKeeps(s: State)
    ensures var u := QuerySent(Accept(s));
            && Head(Accept(s)) == Head(s) && Head(u) == Second(s) && u.queue == s.queue && u.wait == Head(s).wait
            && u.lib.query == s.accepted && u.working && u.exec == RealQuery
  {
  }

  lemma StoreBegun(s: State)
    requires s.working
    ensures var t, r := StartStoreResult(s, true), Head(s);
            if r.wait != NO_WAIT then Begun(t, StoreResult, r.wait, s.queue)
            else Begun(t, Nothing, NO_WAIT, s.queue + [if StoreFails(r) then ReportError else DeliverResult(ResultDue(s))])
  {
    var t := Called(s, StoreCall, true).(exec := Nothing);
    if Head(s).wait == NO_WAIT {
      assert StartStoreResult(s, true) == Stored(t, true, Head(s).ret);
    }
  }

  // ------------------------------------------------------------------ closing

  /** Unless it starts another command, a step that closes the connection leaves it without interest. */
  predicate Silent(s: State, t: State) {
    t.status == Bad && t.accepted == s.accepted ==> !t.reading && !t.writing
  }

  lemma HandleClosedSilent(s: State)
    requires s.status != Bad
    ensures Silent(s, HandleClosed(s))
  {
  }

  lemma UntendedSilent(s: State, t: State)
    requires Untended(s, t) && s.status != Bad
    ensures Silent(s, t) && Silent(s, SetEventDispatcher(t))
  {
  }

  lemma GiveUpSilent(s: State)
    requires s.wait == NO_WAIT && s.status != Bad
    ensures Silent(s, GiveUp(s))
  {
    OutputErrorUntended(s.(exec := Nothing));
  }

  lemma FetchSilent(s: State)
    requires s.working && s.status != Bad
    ensures Silent(s, Fetch(s))
  {
    StoreUntended(s);
    UntendedSilent(s, StartStoreResult(s, false));
  }

  lemma ContinueStoreSilent(s: State)
    requires s.status == Ok
    ensures Silent(s, ContinueStore(s))
  {
    var t := Called(s, StoreCall, false);
    if t.wait == NO_WAIT {
      if StoreFails(Head(s)) {
        GiveUpSilent(t);
        assert ContinueStore(s) == GiveUp(t);
      } else {
        GetResultUntended(t, ResultDue(t));
        UntendedSilent(t, GetResult(t, ResultDue(t)));
        assert ContinueStore(s) == SetEventDispatcher(GetResult(t, ResultDue(t)));
      }
    }
  }

  lemma ContinueQuerySilent(s: State)
    requires s.status == Ok && s.working
    ensures Silent(s, ContinueQuery(s)) && Silent(s, ContinueNext(s))
  {
    if Head(s).wait == NO_WAIT {
      var q, n := Called(s, QueryCall, false), Called(s, NextCall, false);
      GiveUpSilent(q);
      GiveUpSilent(n);
      FetchSilent(Executed(q, Head(s).sets));
      FetchSilent(Advanced(n));
    }
  }

  lemma HandleCmdSilent(s: State)
    requires s.status == Ok && (s.working || s.exec in {Nothing, StoreResult})
    ensures Silent(s, HandleCmd(s))
  {
    match s.exec
    case RealQuery => ContinueQuerySilent(s);
    case StoreResult => ContinueStoreSilent(s);
    case NextResult => ContinueQuerySilent(s);
    case Nothing => HandleClosedSilent(s);
  }

  lemma OpenedSilent(s: State)
    ensures SetEventDispatcher(BecomeOk(s)).status == Ok
  {
    StaysOpen(Log(Enter(s, Ok), Opened));
  }

  lemma StartCharsetSilent(s: State)
    requires s.status != Bad
    ensures Silent(s, StartSetCharacterSet(s))
  {
    var t := Called(s, CharsetCall, true);
    if t.wait == NO_WAIT {
      if Head(s).err {
        HandleClosedSilent(t);
        assert StartSetCharacterSet(s) == HandleClosed(t);
      } else {
        OpenedSilent(t);
        assert StartSetCharacterSet(s) == SetEventDispatcher(BecomeOk(t));
      }
    } else {
      assert StartSetCharacterSet(s) == SetEventDispatcher(Enter(t, SettingCharacterSet));
    }
  }

  lemma CharsetSilent(s: State)
    requires s.status != Bad
    ensures Silent(s, ContinueSetCharacterSet(s))
  {
    var t := Called(s, CharsetCall, false);
    if t.wait == NO_WAIT {
      if Head(s).err {
        HandleClosedSilent(t);
        assert ContinueSetCharacterSet(s) == HandleClosed(t);
      } else {
        OpenedSilent(t);
        assert ContinueSetCharacterSet(s) == SetEventDispatcher(BecomeOk(t));
      }
    } else {
      assert ContinueSetCharacterSet(s) == SetEventDispatcher(t);
    }
  }

  lemma ConnectSilent(s: State)
    requires s.status != Bad
    ensures Silent(s, ContinueConnect(s))
  {
    var t := Called(s, ConnectCall, false);
    if t.wait != NO_WAIT {
      assert ContinueConnect(s) == SetEventDispatcher(t);
    } else if !Head(s).ret && t.lib.errno != 0 {
      HandleClosedSilent(t);
      assert ContinueConnect(s) == HandleClosed(t);
    } else if s.charset {
      StartCharsetSilent(t);
      assert ContinueConnect(s) == StartSetCharacterSet(t);
    } else {
      OpenedSilent(t);
      assert ContinueConnect(s) == SetEventDispatcher(BecomeOk(t));
    }
  }

  lemma TimeoutSilent(s: State)
    requires s.status != Bad && s.timers > 0
    ensures Silent(s, HandleTimeout(s))
  {
    var u := s.(timers := s.timers - 1);
    ConnectSilent(u);
    CharsetSilent(u);
    if s.status == Connecting {
      assert HandleTimeout(s) == ContinueConnect(u);
    } else if s.status == SettingCharacterSet {
      assert HandleTimeout(s) == ContinueSetCharacterSet(u);
    }
  }

  lemma ContinuationSilent(s: State)
    requires s.queue != [] && s.wait == NO_WAIT && s.status != Bad
    ensures Silent(s, RunContinuation(s))
  {
    ContinuationUntended(s);
    UntendedSilent(s.(queue := s.queue[1..]), RunContinuation(s));
  }

  lemma EventSilent(s: State)
    requires Linked(s) && !HandleEvent(s).overtaken && Enabled(s, Event) && s.status != Bad
    requires s.status == Ok ==> Ok in s.path && s.queue == []
    ensures Silent(s, HandleEvent(s))
  {
    match s.status
    case Connecting => ConnectSilent(s);
    case SettingCharacterSet => CharsetSilent(s);
    case Ok =>
      assert Overtake(s) == s && HandleEvent(s) == HandleCmd(s);
      HandleCmdSilent(s);
    case _ =>
  }

  lemma StepSilent(s: State, a: Action)
    requires Linked(s) && s.status != Bad && Enabled(s, a) && !Apply(s, a).overtaken
    requires s.queue != [] ==> s.wait == NO_WAIT
    requires (s.status == Ok && a == Event ==> Ok in s.path && s.queue == [])
    ensures Silent(s, Apply(s, a))
  {
    match a
    case Connect => assert Init(s).status == Connecting;
    case Event => EventSilent(s);
    case Timeout => TimeoutSilent(s);
    case Command => assert ExecSql(s).accepted == s.accepted + 1;
    case Continue => ContinuationSilent(s);
  }

  lemma ReadyToClose(s: State, a: Action)
    requires Inv(s) && !s.overtaken && s.status != Bad && Enabled(s, a) && !Apply(s, a).overtaken
    ensures s.queue != [] ==> s.wait == NO_WAIT
    ensures s.status == Ok && a == Event ==> Ok in s.path && s.queue == []
  {
    if s.status == Ok && a == Event {
      assert HandleEvent(s).overtaken == Overtake(s).overtaken;
    }
  }

  /** In every run without an overtaking event, the step that closes the connection leaves it without
      interest, unless the user starts another command in it. */
  lemma ClosedIsSilent(charset: bool, script: seq<Reply>, run: seq<Action>, s: State, a: Action)
    requires Reaches(charset, script, run, s) && s.status != Bad && Enabled(s, a) && !Apply(s, a).overtaken
    ensures Silent(s, Apply(s, a))
  {
    if s.overtaken {
      NeverUnovertaken(s, a);
    }
    RunLinked(charset, script, run, s);
    RunInv(charset, script, run);
    ReadyToClose(s, a);
    StepSilent(s, a);
  }
}
