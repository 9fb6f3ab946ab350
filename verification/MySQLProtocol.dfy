/** What every run of the connector keeps, for every behaviour of the client library. */
module MySQLProtocol {
  import opened CommandTrace
  import opened LibraryDialogue
  import opened MySQLState
  import opened Options

  // ------------------------------------------------------------------ invariant

  predicate Moves(a: Status, b: Status) {
    || (a == Unconnected && b == Connecting)
    || (a == Connecting && b in {SettingCharacterSet, Ok, Bad})
    || (a == SettingCharacterSet && b in {Ok, Bad})
    || (a == Ok && b == Bad)
  }

  /** The status has only moved forward, and this is where it is. */
  ghost predicate PathOk(path: seq<Status>, status: Status) {
    && path != [] && path[|path| - 1] == status
    && forall k :: 0 < k < |path| ==> Moves(path[k - 1], path[k])
  }

  /** How the protocol's phase shows in the fields; `init` that failed leaves Connecting without a dispatcher. */
  predicate PhaseOk(s: State, p: Phase) {
    && p.accepted == s.accepted
    && (s.working <==> p.job.Busy?) && (!s.working ==> p.job == Free)
    && (p.job.Busy? ==> p.job.cmd + 1 == s.accepted)
    && (p.stage == Open <==> s.status == Ok) && (p.wasOpen <==> Ok in s.path)
    && (p.stage == Dead <==> s.status == Bad || (s.status == Connecting && !s.dispatcher))
  }

  predicate FieldsOk(s: State) {
    && (s.status in {SettingCharacterSet, Ok, Bad} ==> s.dispatcher)
    && (s.status == Unconnected ==> !s.dispatcher)
    && (!s.dispatcher ==> s.timers == 0)
    && (s.working || s.queue != [] || s.accepted > 0 || s.overtaken ==> Ok in s.path)
    && (Ok in s.path ==> s.status in {Ok, Bad}) && (s.crossed ==> s.overtaken)
  }

  ghost predicate Core(s: State) {
    && PathOk(s.path, s.status)
    && FieldsOk(s)
    && PhaseOf(s.trace).Some? && PhaseOk(s, PhaseOf(s.trace).value)
    && (!s.crossed ==> Orderly(s.trace))
  }

  function JobOf(s: State): Job {
    match PhaseOf(s.trace) case None => Free case Some(p) => p.job
  }

  /** Between commands, `None` means that nothing is awaited: this is what lets an event in that
      state be taken for the server closing the connection. */
  predicate Quiet(s: State) {
    s.exec == Nothing && s.status == Ok ==> s.wait == NO_WAIT
  }

  /** The library is at the result set that is due next for the command in progress. */
  predicate AtNextSet(s: State) {
    && JobOf(s).Busy? && JobOf(s).cmd == s.lib.query && JobOf(s).delivered == s.lib.index
    && s.lib.index + 1 + s.lib.remaining == s.lib.total
    && (s.lib.index > 0 ==> JobOf(s).announced == s.lib.total)
  }

  /** The result set the library is at has been delivered. */
  predicate PastThisSet(s: State) {
    && JobOf(s).Busy? && JobOf(s).cmd == s.lib.query && JobOf(s).delivered == s.lib.index + 1
    && s.lib.index + 1 + s.lib.remaining == s.lib.total == JobOf(s).announced
  }

  /** No continuation is queued, or an error report that an event has overtaken. */
  predicate Stale(queue: seq<Continuation>) {
    queue == [] || queue == [ReportError]
  }

  /** How far the library is with the command in progress, and what is queued. */
  predicate InStep(s: State) {
    if !s.working then Stale(s.queue) else
    && JobOf(s).Busy? && JobOf(s).cmd == s.lib.query
    && match s.exec
       case RealQuery => JobOf(s).delivered == 0 && s.lib.index == 0 && Stale(s.queue)
       case StoreResult => AtNextSet(s) && Stale(s.queue)
       case NextResult => PastThisSet(s) && s.lib.remaining > 0 && Stale(s.queue)
       case Nothing =>
         || s.queue == [ReportError]
         || (AtNextSet(s) && s.lib.index == 0 && s.queue == [DeliverResult(ResultSet(s.lib.query, 0, s.lib.total))])
  }

  /** A command in progress waits either for the library or for its continuation. */
  predicate Attended(s: State) {
    if s.working then s.queue != [] <==> s.wait == NO_WAIT else s.queue == []
  }

  ghost predicate Inv(s: State) {
    Core(s) && Quiet(s) && (!s.crossed ==> InStep(s)) && (!s.overtaken ==> Attended(s))
  }

  /** What a step of the connector finds in the queue, once the continuation it runs for is out of it. */
  predicate Beside(s: State) {
    (!s.crossed ==> Stale(s.queue)) && (!s.overtaken ==> s.queue == [])
  }

  // ------------------------------------------------------------------ small steps

  lemma LogCore(s: State, e: Event)
    ensures PhaseOf(Log(s, e).trace) == match PhaseOf(s.trace) case None => None case Some(p) => Next(p, e)
    ensures Orderly(s.trace) && OrderlyAt(s.trace + [e], |s.trace|) ==> Orderly(Log(s, e).trace)
    ensures PhaseOf((s.trace + [e])[..|s.trace|]) == PhaseOf(s.trace) && (s.trace + [e])[|s.trace|] == e
  {
    PhaseAppend(s.trace, e);
    assert (s.trace + [e])[..|s.trace|] == s.trace;
    if Orderly(s.trace) && OrderlyAt(s.trace + [e], |s.trace|) {
      OrderlyAppend(s.trace, e);
    }
  }

  lemma EnterPath(s: State, status: Status)
    requires PathOk(s.path, s.status) && Moves(s.status, status)
    ensures PathOk(Enter(s, status).path, status)
  {
  }

  lemma SetEventDispatcherInv(s: State)
    requires Inv(s) && s.dispatcher
    ensures Inv(SetEventDispatcher(s))
  {
  }

  lemma ClosingInv(s: State)
    requires Core(s) && s.status in {Connecting, SettingCharacterSet, Ok} && s.dispatcher
    requires Beside(s) && (!s.crossed ==> !s.working) && (!s.overtaken ==> !s.working)
    ensures Inv(Closing(s))
  {
    var t := Closing(s);
    EnterPath(s, Bad);
    LogCore(Enter(s, Bad), Closed);
    assert t.trace == Log(Enter(s, Bad), Closed).trace;
    assert FieldsOk(t);
    assert PhaseOk(t, PhaseOf(t.trace).value);
    assert Core(t);
  }

  lemma {:induction false} ClosedInv(s: State)
    requires Core(s) && s.status in {Connecting, SettingCharacterSet, Ok} && s.dispatcher
    requires Beside(s) && (!s.crossed ==> !s.working) && (!s.overtaken ==> !s.working)
    ensures Inv(HandleClosed(s))
    decreases 0, 0, 8
  {
    ClosingInv(s);
    if s.working {
      assert UserTurn(Closing(s)) == Chosen(Closing(s));
    } else {
      UserTurnInv(Closing(s));
    }
  }

  // ------------------------------------------------------------------ the command steps

  /** Ready to fetch a result set: the library is at the one due next. */
  ghost predicate Ready(s: State) {
    && Core(s) && s.status in {Ok, Bad}
    && Beside(s) && (!s.crossed && s.working ==> AtNextSet(s))
  }

  lemma {:induction false} UserTurnInv(s: State)
    requires Inv(s) && !s.working
    ensures Inv(UserTurn(s))
    decreases 0, 0, 7
  {
    if Head(s).yes && Ok in s.path {
      ExecSqlInv(Chosen(s));
    }
  }

  lemma {:induction false} ExecSqlInv(s: State)
    requires Inv(s) && MayStart(s)
    ensures Inv(ExecSql(s))
    decreases 0, 0, 6
  {
    LogCore(s.(working := true, accepted := s.accepted + 1, crossed := s.crossed || s.queue != []), Accepted(s.accepted));
    StartQueryInv(Accept(s));
    SetEventDispatcherInv(StartQuery(Accept(s)));
  }

  lemma {:induction false} StartQueryInv(s: State)
    requires Core(s) && s.status in {Ok, Bad} && s.working
    requires !s.crossed ==> s.queue == [] && JobOf(s).delivered == 0
    ensures Inv(StartQuery(s))
    decreases 0, 0, 5
  {
    var u := QuerySent(s);
    if u.wait == NO_WAIT && !Head(s).err {
      StartStoreResultInv(Executed(u, Head(s).sets), true);
    }
  }

  lemma {:induction false} StartStoreResultInv(s: State, queueInLoop: bool)
    requires Ready(s)
    requires queueInLoop ==> s.working && s.lib.index == 0 && (!s.crossed ==> s.queue == [])
    ensures Inv(StartStoreResult(s, queueInLoop))
    decreases if queueInLoop then 0 else 1, if queueInLoop then 0 else s.lib.remaining, 4
  {
    var t := Called(s, StoreCall, true).(exec := StoreResult);
    if t.wait == NO_WAIT {
      StoredInv(t.(exec := Nothing), queueInLoop, Head(s).ret);
    }
  }

  lemma {:induction false} StoredInv(s: State, queueInLoop: bool, ret: bool)
    requires Ready(s) && s.exec == Nothing && s.wait == NO_WAIT
    requires queueInLoop ==> s.working && s.lib.index == 0 && (!s.crossed ==> s.queue == [])
    ensures Inv(Stored(s, queueInLoop, ret))
    decreases if queueInLoop then 0 else 1, if queueInLoop then 0 else s.lib.remaining, 3
  {
    if queueInLoop {
      QueuedInv(s, ret);
    } else if !ret && s.lib.errno != 0 {
      OutputErrorInv(s);
    } else {
      GetResultInv(s, ResultSet(s.lib.query, s.lib.index, s.lib.total));
    }
  }

  lemma QueuedInv(s: State, ret: bool)
    requires Ready(s) && s.exec == Nothing && s.wait == NO_WAIT
    requires s.working && s.lib.index == 0 && (!s.crossed ==> s.queue == [])
    ensures Inv(Stored(s, true, ret))
  {
    if !ret && s.lib.errno != 0 {
      EnqueueInv(s, ReportError);
    } else {
      EnqueueInv(s, DeliverResult(ResultSet(s.lib.query, s.lib.index, s.lib.total)));
    }
  }

  lemma EnqueueInv(s: State, c: Continuation)
    requires Ready(s) && s.exec == Nothing && s.wait == NO_WAIT
    requires s.working && s.lib.index == 0 && (!s.crossed ==> s.queue == [])
    requires c == ReportError || c == DeliverResult(ResultSet(s.lib.query, 0, s.lib.total))
    ensures Inv(s.(queue := s.queue + [c]))
  {
    assert s.queue == [] ==> s.queue + [c] == [c];
  }

  lemma {:induction false} GetResultInv(s: State, results: ResultSet)
    requires Ready(s) && Quiet(s)
    requires !s.crossed && s.working ==> results == ResultSet(s.lib.query, s.lib.index, s.lib.total)
    ensures Inv(GetResult(s, results))
    decreases 1, s.lib.remaining, 2
  {
    if s.working {
      var t := Log(s, Delivered(results));
      DeliveredReady(s, results);
      if t.lib.remaining == 0 {
        LastDelivered(t);
        UserTurnInv(Log(t.(working := false), Idle));
        assert GetResult(s, results) == UserTurn(Log(t.(working := false), Idle));
      } else {
        MoreResultsInv(t);
        assert GetResult(s, results) == MoreResults(t);
      }
    }
  }

  lemma {:induction false} MoreResultsInv(s: State)
    requires DeliveredOne(s) && s.lib.remaining > 0
    ensures Inv(MoreResults(s))
    decreases 1, s.lib.remaining, 1
  {
    var u := Called(s, NextCall, true).(exec := NextResult);
    if u.wait == NO_WAIT {
      NextReadyInv(u, Head(s).err);
    }
  }

  lemma {:induction false} NextReadyInv(s: State, err: bool)
    requires DeliveredOne(s) && s.lib.remaining > 0 && s.wait == NO_WAIT
    ensures Inv(NextReady(s, err))
    decreases 1, s.lib.remaining, 0
  {
    if err {
      OutputErrorInv(s.(exec := Nothing));
    } else {
      AdvancedReady(s);
      StartStoreResultInv(Advanced(s), false);
    }
  }

  /** A result set has been delivered and the library is still at it. */
  ghost predicate DeliveredOne(s: State) {
    && Core(s) && s.status in {Ok, Bad} && s.working && JobOf(s).Busy? && JobOf(s).delivered > 0
    && Beside(s) && (!s.crossed ==> PastThisSet(s))
  }

  lemma DeliveredReady(s: State, results: ResultSet)
    requires Ready(s) && s.working
    requires !s.crossed ==> results == ResultSet(s.lib.query, s.lib.index, s.lib.total)
    ensures DeliveredOne(Log(s, Delivered(results)))
  {
    LogCore(s, Delivered(results));
  }

  lemma LastDelivered(s: State)
    requires DeliveredOne(s) && Quiet(s) && s.lib.remaining == 0
    ensures Inv(Log(s.(working := false), Idle))
  {
    LogCore(s.(working := false), Idle);
  }

  lemma AdvancedReady(s: State)
    requires DeliveredOne(s) && s.lib.remaining > 0
    ensures Ready(Advanced(s))
  {
  }

  lemma {:induction false} OutputErrorInv(s: State)
    requires Core(s) && Quiet(s) && s.status in {Ok, Bad} && Beside(s)
    ensures Inv(OutputError(s))
    decreases 0, 0, 9
  {
    var t := s.(reading := false, writing := false);
    var lost := Lost(s.lib.errno);
    if s.working {
      var v := Log(t, Failed(lost)).(working := false);
      LogCore(t, Failed(lost));
      if lost {
        LostInv(s, v);
      } else {
        LogCore(v, Idle);
        UserTurnInv(Log(v, Idle));
      }
    } else if lost && s.status == Ok {
      ClosedInv(t);
    }
  }

  /** After the exception of a lost connection only the close is due. */
  lemma {:induction false} LostInv(s: State, v: State)
    requires Core(s) && Quiet(s) && s.working && s.status in {Ok, Bad} && Beside(s)
    requires v == Log(s.(reading := false, writing := false), Failed(true)).(working := false)
    ensures Inv(HandleClosed(v))
    decreases 0, 0, 8
  {
    LogCore(s, Failed(true));
    if s.status != Bad {
      EnterPath(v, Bad);
      LogCore(Enter(v, Bad), Closed);
      assert Inv(Closing(v));
      UserTurnInv(Closing(v));
    }
  }

  lemma RealQueryInv(s: State)
    requires Core(s) && Quiet(s) && s.status == Ok && Beside(s) && (!s.crossed ==> InStep(s)) && s.exec == RealQuery
    ensures Inv(ContinueQuery(s))
  {
    var t := Called(s, QueryCall, false);
    if t.wait != NO_WAIT {
      SetEventDispatcherInv(t);
    } else if Head(s).err {
      OutputErrorInv(t.(exec := Nothing));
    } else {
      StartStoreResultInv(Executed(t, Head(s).sets), false);
      SetEventDispatcherInv(StartStoreResult(Executed(t, Head(s).sets), false));
    }
  }

  lemma StoreResultInv(s: State)
    requires Core(s) && Quiet(s) && s.status == Ok && Beside(s) && (!s.crossed ==> InStep(s)) && s.exec == StoreResult
    ensures Inv(ContinueStore(s))
  {
    var t := Called(s, StoreCall, false);
    if t.wait != NO_WAIT {
      SetEventDispatcherInv(t);
    } else if !Head(s).ret && t.lib.errno != 0 {
      OutputErrorInv(t.(exec := Nothing));
    } else {
      var results := ResultSet(t.lib.query, t.lib.index, t.lib.total);
      GetResultInv(t, results);
      SetEventDispatcherInv(GetResult(t, results));
    }
  }

  lemma NextResultInv(s: State)
    requires Core(s) && Quiet(s) && s.status == Ok && Beside(s) && (!s.crossed ==> InStep(s)) && s.exec == NextResult
    ensures Inv(ContinueNext(s))
  {
    var t := Called(s, NextCall, false);
    if t.wait != NO_WAIT {
      SetEventDispatcherInv(t);
    } else if Head(s).err {
      OutputErrorInv(t.(exec := Nothing));
    } else {
      StartStoreResultInv(Advanced(t), false);
      SetEventDispatcherInv(StartStoreResult(Advanced(t), false));
    }
  }

  lemma HandleCmdInv(s: State)
    requires Core(s) && Quiet(s) && s.status == Ok && Beside(s) && (!s.crossed ==> InStep(s))
    requires !s.crossed && s.exec == Nothing ==> !s.working
    ensures Inv(HandleCmd(s))
  {
    match s.exec
    case RealQuery => RealQueryInv(s);
    case StoreResult => StoreResultInv(s);
    case NextResult => NextResultInv(s);
    case Nothing =>
      if s.wait == NO_WAIT {
        ClosedInv(s);
      }
  }

  // ------------------------------------------------------------------ the connection steps

  lemma CalledInv(s: State, call: Call, first: bool)
    requires Inv(s) && s.status in {Connecting, SettingCharacterSet}
    ensures Inv(Called(s, call, first))
  {
  }

  lemma OpenedInv(s: State)
    requires Inv(s) && s.status in {Connecting, SettingCharacterSet} && s.dispatcher && s.wait == NO_WAIT
    ensures Inv(Log(Enter(s, Ok), Opened))
  {
    EnterPath(s, Ok);
    LogCore(Enter(s, Ok), Opened);
  }

  lemma BecomeOkInv(s: State)
    requires Inv(s) && s.status in {Connecting, SettingCharacterSet} && s.dispatcher && s.wait == NO_WAIT
    ensures Inv(SetEventDispatcher(BecomeOk(s)))
  {
    OpenedInv(s);
    UserTurnInv(Log(Enter(s, Ok), Opened));
    SetEventDispatcherInv(BecomeOk(s));
  }

  lemma StartSetCharacterSetInv(s: State)
    requires Inv(s) && s.status == Connecting && s.dispatcher
    ensures Inv(StartSetCharacterSet(s))
  {
    var t := Called(s, CharsetCall, true);
    CalledInv(s, CharsetCall, true);
    if t.wait != NO_WAIT {
      EnterPath(t, SettingCharacterSet);
      SetEventDispatcherInv(Enter(t, SettingCharacterSet));
    } else if Head(s).err {
      ClosedInv(t);
    } else {
      BecomeOkInv(t);
    }
  }

  lemma ContinueSetCharacterSetInv(s: State)
    requires Inv(s) && s.status == SettingCharacterSet
    ensures Inv(ContinueSetCharacterSet(s))
  {
    var t := Called(s, CharsetCall, false);
    CalledInv(s, CharsetCall, false);
    if t.wait != NO_WAIT {
      SetEventDispatcherInv(t);
    } else if Head(s).err {
      ClosedInv(t);
    } else {
      BecomeOkInv(t);
    }
  }

  lemma ContinueConnectInv(s: State)
    requires Inv(s) && s.status == Connecting && s.dispatcher
    ensures Inv(ContinueConnect(s))
  {
    var t := Called(s, ConnectCall, false);
    CalledInv(s, ConnectCall, false);
    if t.wait != NO_WAIT {
      SetEventDispatcherInv(t);
    } else if !Head(s).ret && t.lib.errno != 0 {
      ClosedInv(t);
    } else if s.charset {
      StartSetCharacterSetInv(t);
    } else {
      BecomeOkInv(t);
    }
  }

  lemma FailedInit(s: State)
    requires PathOk(s.path, s.status) && s.status == Connecting && !s.dispatcher && s.timers == 0 && !s.overtaken && !s.crossed && Ok !in s.path
    requires PhaseOf(s.trace) == Some(START) && Orderly(s.trace) && !s.working && s.queue == [] && s.accepted == 0
    ensures Inv(Log(s, Closed))
  {
    LogCore(s, Closed);
  }

  lemma InitInv(s: State)
    requires Inv(s) && s.status == Unconnected && !s.overtaken
    ensures Inv(Init(s))
  {
    EnterPath(s, Connecting);
    var t := Called(Enter(s, Connecting), ConnectCall, true);
    if t.wait == NO_WAIT && t.lib.errno != 0 {
      FailedInit(t);
    } else if !Head(t).yes {
      FailedInit(Socketed(t));
    } else {
      var u := Socketed(t).(dispatcher := true);
      assert Inv(u);
      SetEventDispatcherInv(u);
    }
  }

  lemma RunContinuationInv(s: State)
    requires Inv(s) && s.queue != []
    ensures Inv(RunContinuation(s))
  {
    var t := s.(queue := s.queue[1..]);
    match s.queue[0]
    case ReportError => OutputErrorInv(t);
    case DeliverResult(results) => GetResultInv(t, results);
  }

  lemma OvertakeInv(s: State)
    requires Inv(s) && s.status == Ok
    ensures var t := Overtake(s);
            && Core(t) && Quiet(t) && Beside(t) && (!t.crossed ==> InStep(t))
            && (!t.crossed && t.exec == Nothing ==> !t.working)
  {
  }

  lemma HandleEventInv(s: State)
    requires Inv(s) && s.dispatcher
    ensures Inv(HandleEvent(s))
  {
    match s.status
    case Connecting => ContinueConnectInv(s);
    case Ok =>
      OvertakeInv(s);
      HandleCmdInv(Overtake(s));
    case SettingCharacterSet => ContinueSetCharacterSetInv(s);
    case _ =>
  }

  lemma HandleTimeoutInv(s: State)
    requires Inv(s) && s.timers > 0
    ensures Inv(HandleTimeout(s))
  {
    var t := s.(timers := s.timers - 1);
    assert Inv(t);
    match s.status
    case Connecting => ContinueConnectInv(t);
    case SettingCharacterSet => ContinueSetCharacterSetInv(t);
    case _ =>
  }

  lemma StepInv(s: State, a: Action)
    requires Inv(s) && Enabled(s, a)
    ensures Inv(Apply(s, a))
  {
    match a
    case Connect => InitInv(s);
    case Event => HandleEventInv(s);
    case Timeout => HandleTimeoutInv(s);
    case Command => ExecSqlInv(s);
    case Continue => RunContinuationInv(s);
  }

  lemma {:induction false} RunInv(charset: bool, script: seq<Reply>, run: seq<Action>)
    requires Exec(Initial(charset, script), run).Some?
    ensures Inv(Exec(Initial(charset, script), run).value)
  {
    if run != [] {
      RunInv(charset, script, run[..|run| - 1]);
      StepInv(Exec(Initial(charset, script), run[..|run| - 1]).value, run[|run| - 1]);
    }
  }

  // ------------------------------------------------------------------ the protocol, over whole runs

  ghost predicate Reaches(charset: bool, script: seq<Reply>, run: seq<Action>, s: State) {
    Exec(Initial(charset, script), run) == Some(s)
  }

  /** Every run follows the command protocol, and the connector knows where it stands in it. */
  lemma CommandProtocol(charset: bool, script: seq<Reply>, run: seq<Action>, s: State)
    requires Reaches(charset, script, run, s)
    ensures Follows(s.trace)
    ensures s.working <==> PhaseOf(s.trace).value.job.Busy?
    ensures Accepts(s.trace) == Endings(s.trace) + if s.working then 1 else 0
  {
    RunInv(charset, script, run);
    EndsExactlyOnce(s.trace);
  }

  /** The status only moves forward, Bad is absorbing, and the two connection callbacks follow it. */
  lemma ConnectionLifecycle(charset: bool, script: seq<Reply>, run: seq<Action>, s: State)
    requires Reaches(charset, script, run, s)
    ensures PathOk(s.path, s.status)
    ensures forall k :: 0 <= k < |s.path| && s.path[k] == Bad ==> k == |s.path| - 1
    ensures s.status == Ok ==> Opened in s.trace && Closed !in s.trace
    ensures s.status == Bad ==> Closed in s.trace
  {
    RunInv(charset, script, run);
    forall k | 0 <= k < |s.path| && s.path[k] == Bad ensures k == |s.path| - 1 {
      assert k + 1 < |s.path| ==> Moves(s.path[k + 1 - 1], s.path[k + 1]);
    }
    assert s.trace[..|s.trace|] == s.trace;
    OpenedBefore(s.trace, |s.trace|);
    DeadMeansClosed(s.trace, |s.trace|);
  }

  /** Every command gets its own result sets, in order, and none is cut off by a close, as long as no
      event closed the connection over a queued continuation and no command was accepted while one was
      still queued. */
  lemma ResultsInOrder(charset: bool, script: seq<Reply>, run: seq<Action>, s: State, cmd: nat)
    requires Reaches(charset, script, run, s) && !s.crossed
    ensures Orderly(s.trace) && ResultsOf(s.trace, cmd) == UpTo(|ResultsOf(s.trace, cmd)|)
  {
    RunInv(charset, script, run);
    DeliveredInOrder(s.trace, cmd);
  }

  /** And a command that ends in idle without an exception has received every result set its query
      announced. */
  lemma ResultsComplete(charset: bool, script: seq<Reply>, run: seq<Action>, s: State, j: nat)
    requires Reaches(charset, script, run, s) && !s.crossed
    requires j < |s.trace| && s.trace[j] == Idle
    ensures PhaseOf(s.trace[..j]).Some?
    ensures var job := PhaseOf(s.trace[..j]).value.job;
            job.Busy? ==> job.announced > 0 && ResultsOf(s.trace[..j], job.cmd) == UpTo(job.announced)
  {
    RunInv(charset, script, run);
    CompleteWhenIdle(s.trace, j);
  }

  /** Without an overtaking event neither happens. */
  lemma NotOvertakenNotCrossed(charset: bool, script: seq<Reply>, run: seq<Action>, s: State)
    requires Reaches(charset, script, run, s)
    ensures s.crossed ==> s.overtaken
  {
    RunInv(charset, script, run);
  }

  /** An event that overtakes the continuation of a command closes the connection under the command
      exactly when that continuation came from the store, not from a query that failed at once; then
      the trace is no longer orderly, otherwise nothing is crossed yet. */
  lemma OvertakingEvent(s: State)
    requires Inv(s) && !s.crossed && s.queue != [] && s.working && s.status == Ok
    ensures var t := HandleEvent(s);
            && (t.status == Bad && t.working && t.accepted == s.accepted <==> s.exec == Nothing)
            && (s.exec == Nothing ==> !Orderly(t.trace))
            && (s.exec != Nothing && t.accepted == s.accepted ==> !t.crossed && Orderly(t.trace))
  {
    var u := Overtake(s);
    assert HandleEvent(s) == HandleCmd(u);
    if s.exec == Nothing {
      ClosedUnderCommand(u);
    } else {
      HandleEventInv(s);
      NotClosedUnderCommand(u);
    }
  }

  lemma NotClosedUnderCommand(s: State)
    requires s.exec != Nothing && s.status == Ok
    ensures var t := HandleCmd(s);
            !(t.status == Bad && t.working && t.accepted == s.accepted) && (t.accepted == s.accepted ==> t.crossed == s.crossed)
  {
    match s.exec
    case RealQuery => assert HandleCmd(s) == ContinueQuery(s);
    case StoreResult => assert HandleCmd(s) == ContinueStore(s);
    case NextResult => assert HandleCmd(s) == ContinueNext(s);
  }

  lemma ClosedUnderCommand(s: State)
    requires Core(s) && s.working && s.status == Ok
    ensures HandleClosed(s).working && HandleClosed(s).accepted == s.accepted && !Orderly(HandleClosed(s).trace)
  {
    var t := Closing(s);
    assert UserTurn(t) == Chosen(t);
    LogCore(Enter(s, Bad).(reading := false, writing := false), Closed);
    assert !OrderlyAt(t.trace, |s.trace|);
  }

  /** User code adds to the trace at most the acceptance of its command. */
  lemma UserTurnTrace(s: State)
    ensures s.trace <= UserTurn(s).trace
  {
    if Head(s).yes && MayStart(s) {
      assert UserTurn(s).trace == StartQuery(Accept(Chosen(s))).trace;
    }
  }

  /** An error report that runs while a command is in progress fails that command, whatever its own
      query has come to: so it does with the next command when an event has overtaken it. */
  lemma ReportHitsWhoeverWorks(s: State)
    requires s.queue != [] && s.queue[0] == ReportError && s.working
    ensures s.trace + [Failed(Lost(s.lib.errno))] <= RunContinuation(s).trace
  {
    var t := s.(queue := s.queue[1..]);
    assert RunContinuation(s) == OutputError(t);
    ErrorTrace(t);
  }

  lemma ErrorTrace(s: State)
    requires s.working
    ensures s.trace + [Failed(Lost(s.lib.errno))] <= OutputError(s).trace
  {
    var v := Log(s.(reading := false, writing := false), Failed(Lost(s.lib.errno))).(working := false);
    if !Lost(s.lib.errno) {
      assert OutputError(s) == UserTurn(Log(v, Idle));
      UserTurnTrace(Log(v, Idle));
    } else {
      assert OutputError(s) == HandleClosed(v);
      if s.status != Bad {
        UserTurnTrace(Closing(v));
      }
    }
  }

  // ------------------------------------------------------------------ interest follows the wait status

  predicate Fresh(s: State) {
    s.dispatcher && s.status != Bad ==>
      s.writing == s.wait.write && (s.wait.read || s.wait.except ==> s.reading)
  }

  lemma UserTurnFresh(s: State)
    requires Fresh(s)
    ensures Fresh(UserTurn(s))
  {
  }

  lemma OutputErrorFresh(s: State)
    requires s.wait == NO_WAIT
    ensures Fresh(OutputError(s))
  {
    var t := s.(reading := false, writing := false);
    if s.working && !Lost(s.lib.errno) {
      UserTurnFresh(Log(Log(t, Failed(false)).(working := false), Idle));
    }
  }

  lemma SetFresh(s: State)
    ensures Fresh(SetEventDispatcher(s))
  {
  }

  lemma ExecSqlFresh(s: State)
    ensures Fresh(ExecSql(s))
  {
    SetFresh(StartQuery(Accept(s)));
  }

  lemma GiveUpFresh(s: State)
    requires s.wait == NO_WAIT
    ensures Fresh(GiveUp(s))
  {
    OutputErrorFresh(s.(exec := Nothing));
  }

  lemma ContinueFresh(s: State)
    ensures Fresh(ContinueQuery(s)) && Fresh(ContinueStore(s)) && Fresh(ContinueNext(s))
  {
    var q, t, n := Called(s, QueryCall, false), Called(s, StoreCall, false), Called(s, NextCall, false);
    if Head(s).wait == NO_WAIT {
      GiveUpFresh(q);
      GiveUpFresh(t);
      GiveUpFresh(n);
      SetFresh(StartStoreResult(Executed(q, Head(s).sets), false));
      SetFresh(GetResult(t, ResultSet(t.lib.query, t.lib.index, t.lib.total)));
      SetFresh(StartStoreResult(Advanced(n), false));
    } else {
      SetFresh(q);
      SetFresh(t);
      SetFresh(n);
    }
  }

  lemma HandleCmdFresh(s: State)
    requires Quiet(s) && s.status == Ok
    ensures Fresh(HandleCmd(s))
  {
    ContinueFresh(s);
  }

  lemma SetCharacterSetFresh(s: State)
    ensures Fresh(StartSetCharacterSet(s)) && Fresh(ContinueSetCharacterSet(s))
  {
    var t, u := Called(s, CharsetCall, true), Called(s, CharsetCall, false);
    SetFresh(u);
    SetFresh(Enter(t, SettingCharacterSet));
    SetFresh(BecomeOk(t));
    SetFresh(BecomeOk(u));
  }

  lemma ContinueConnectFresh(s: State)
    ensures Fresh(ContinueConnect(s))
  {
    var t := Called(s, ConnectCall, false);
    SetFresh(t);
    SetFresh(BecomeOk(t));
    SetCharacterSetFresh(t);
  }

  lemma HandleEventFresh(s: State)
    requires Inv(s) && s.dispatcher
    ensures Fresh(HandleEvent(s))
  {
    match s.status
    case Connecting => ContinueConnectFresh(s);
    case Ok => HandleCmdFresh(Overtake(s));
    case SettingCharacterSet => SetCharacterSetFresh(s);
    case _ =>
  }

  lemma HandleTimeoutFresh(s: State)
    requires s.timers > 0 && Fresh(s)
    ensures Fresh(HandleTimeout(s))
  {
    var t := s.(timers := s.timers - 1);
    match s.status
    case Connecting => ContinueConnectFresh(t);
    case SettingCharacterSet => SetCharacterSetFresh(t);
    case _ =>
  }

  lemma InitFresh(s: State)
    requires Inv(s) && s.status == Unconnected
    ensures Fresh(Init(s))
  {
    SetFresh(Socketed(Called(Enter(s, Connecting), ConnectCall, true)).(dispatcher := true));
  }

  lemma StepFresh(s: State, a: Action)
    requires Inv(s) && Enabled(s, a) && a != Continue && (a == Timeout ==> Fresh(s))
    ensures Fresh(Apply(s, a))
  {
    match a
    case Connect => InitFresh(s);
    case Event => HandleEventFresh(s);
    case Timeout => HandleTimeoutFresh(s);
    case Command => ExecSqlFresh(s);
  }

  lemma LastFresh(s: State, run: seq<Action>)
    requires Exec(s, run).Some? && run != [] && Exec(s, run[..|run| - 1]).Some?
    requires Inv(Exec(s, run[..|run| - 1]).value) && run[|run| - 1] != Continue
    requires run[|run| - 1] == Timeout ==> Fresh(Exec(s, run[..|run| - 1]).value)
    ensures Fresh(Exec(s, run).value)
  {
    StepFresh(Exec(s, run[..|run| - 1]).value, run[|run| - 1]);
  }

  /** Timeouts aside, the last step was a connect, an event or a command: no continuation came after it. */
  predicate Settled(run: seq<Action>) {
    run != [] &&
    match run[|run| - 1]
    case Continue => false
    case Timeout => Settled(run[..|run| - 1])
    case _ => true
  }

  /** After any connect, event or command step, and up to the next continuation, write interest is on
      exactly when the library waits to write, and read interest is on when it waits to read. */
  lemma {:induction false} InterestFollowsWait(charset: bool, script: seq<Reply>, run: seq<Action>)
    requires Exec(Initial(charset, script), run).Some? && Settled(run)
    ensures Fresh(Exec(Initial(charset, script), run).value)
  {
    var front := run[..|run| - 1];
    RunInv(charset, script, front);
    if run[|run| - 1] == Timeout {
      InterestFollowsWait(charset, script, front);
    }
    LastFresh(Initial(charset, script), run);
  }

  // ------------------------------------------------------------------ interest and continuations

  /** The interest of `s` would do for waiting for `w`. */
  predicate Suits(s: State, w: Wait) {
    s.writing == w.write && (w.read || w.except ==> s.reading)
  }

  /** How the interest comes out of steps that do not look at it: unless a further command was
      accepted, it is untouched, or an error has switched it off. */
  ghost predicate Untended(s: State, r: State) {
    && r.dispatcher == s.dispatcher && r.accepted >= s.accepted
    && (r.accepted > s.accepted ==> Fresh(r))
    && (r.accepted == s.accepted ==>
          && r.queue == s.queue
          && (r.working <==> r.wait != NO_WAIT)
          && (r.status != s.status ==> r.status == Bad && !r.working && !r.reading && !r.writing)
          && ((r.reading == s.reading && r.writing == s.writing) ||
              (!r.reading && !r.writing && (r.status == Bad || r.wait == NO_WAIT))))
  }

  lemma UserTurnUntended(s: State)
    requires !s.working && s.wait == NO_WAIT
    ensures Untended(s, UserTurn(s))
  {
    if Head(s).yes && Ok in s.path {
      ExecSqlFresh(Chosen(s));
    }
  }

  lemma OutputErrorUntended(s: State)
    requires s.wait == NO_WAIT
    ensures Untended(s, OutputError(s))
  {
    var t := s.(reading := false, writing := false);
    var lost := Lost(s.lib.errno);
    var u := if s.working then Log(t, Failed(lost)).(working := false) else t;
    if lost {
      ClosedUntended(s, u);
      assert OutputError(s) == HandleClosed(u);
    } else if s.working {
      UserTurnUntended(Log(u, Idle));
      assert OutputError(s) == UserTurn(Log(u, Idle));
    }
  }

  lemma ClosedUntended(s: State, u: State)
    requires s.wait == NO_WAIT && !u.working && !u.reading && !u.writing
    requires u.dispatcher == s.dispatcher && u.accepted == s.accepted && u.queue == s.queue && u.wait == s.wait
    ensures Untended(s, HandleClosed(u))
  {
    if u.status != Bad {
      UserTurnUntended(Closing(u));
    }
  }

  lemma {:induction false} GetResultUntended(s: State, results: ResultSet)
    requires s.wait == NO_WAIT
    ensures Untended(s, GetResult(s, results))
    decreases 1, s.lib.remaining, 2
  {
    if s.working {
      var t := Log(s, Delivered(results));
      if t.lib.remaining == 0 {
        UserTurnUntended(Log(t.(working := false), Idle));
      } else {
        MoreResultsUntended(t);
      }
    }
  }

  lemma {:induction false} MoreResultsUntended(s: State)
    requires s.working && s.lib.remaining > 0
    ensures Untended(s, MoreResults(s))
    decreases 1, s.lib.remaining, 1
  {
    var u := Called(s, NextCall, true).(exec := NextResult);
    if u.wait == NO_WAIT {
      NextReadyUntended(u, Head(s).err);
    }
  }

  lemma {:induction false} NextReadyUntended(s: State, err: bool)
    requires s.working && s.lib.remaining > 0 && s.wait == NO_WAIT
    ensures Untended(s, NextReady(s, err))
    decreases 1, s.lib.remaining, 0
  {
    if err {
      OutputErrorUntended(s.(exec := Nothing));
    } else {
      StoreUntended(Advanced(s));
    }
  }

  lemma {:induction false} StoreUntended(s: State)
    requires s.working
    ensures Untended(s, StartStoreResult(s, false))
    decreases 1, s.lib.remaining, 4
  {
    var t := Called(s, StoreCall, true).(exec := StoreResult);
    if t.wait == NO_WAIT {
      StoredUntended(t.(exec := Nothing), Head(s).ret);
    }
  }

  lemma {:induction false} StoredUntended(s: State, ret: bool)
    requires s.working && s.wait == NO_WAIT
    ensures Untended(s, Stored(s, false, ret))
    decreases 1, s.lib.remaining, 3
  {
    if !ret && s.lib.errno != 0 {
      OutputErrorUntended(s);
    } else {
      GetResultUntended(s, ResultSet(s.lib.query, s.lib.index, s.lib.total));
    }
  }

  lemma ContinuationUntended(s: State)
    requires s.queue != [] && s.wait == NO_WAIT
    ensures Untended(s.(queue := s.queue[1..]), RunContinuation(s))
  {
    var t := s.(queue := s.queue[1..]);
    match s.queue[0]
    case ReportError => OutputErrorUntended(t);
    case DeliverResult(results) => GetResultUntended(t, results);
  }

  /** After a continuation of either kind the interest is right if and only if the command in progress
      has ended, or the connection is closed, or the interest there was suits the new wait mask. */
  lemma ContinuationInterest(s: State)
    requires s.queue != [] && s.dispatcher && s.wait == NO_WAIT && Fresh(s)
    ensures var t := RunContinuation(s);
            Fresh(t) <==> t.status == Bad || !t.working || t.accepted > s.accepted || Suits(s, t.wait)
  {
    ContinuationUntended(s);
  }

  /** A queued error report switches the interest off, whatever the library waits for. */
  lemma ErrorReportInterest(s: State)
    requires s.queue != [] && s.queue[0] == ReportError && s.dispatcher
    ensures var t := RunContinuation(s);
            Fresh(t) <==> t.status == Bad || t.accepted > s.accepted || !(s.wait.write || s.wait.read || s.wait.except)
  {
    var t := s.(queue := s.queue[1..]);
    assert RunContinuation(s) == OutputError(t);
    if Lost(s.lib.errno) {
      assert OutputError(t).status == Bad;
    } else if s.working {
      var u := Log(Log(t.(reading := false, writing := false), Failed(false)).(working := false), Idle);
      assert OutputError(t) == UserTurn(u);
      UnattendedTurn(u);
    }
  }

  lemma UnattendedTurn(s: State)
    requires s.dispatcher && !s.reading && !s.writing
    ensures var t := UserTurn(s);
            Fresh(t) <==> t.status == Bad || t.accepted > s.accepted || !(s.wait.write || s.wait.read || s.wait.except)
  {
    if Head(s).yes && MayStart(s) {
      ExecSqlFresh(Chosen(s));
    }
  }

  /** What `ContinuationInterest` asks for: whenever a continuation is queued and none was overtaken,
      nothing is awaited and the interest is right. */
  ghost predicate QueuedOk(s: State) {
    !s.overtaken && s.queue != [] ==> s.wait == NO_WAIT && Fresh(s)
  }

  lemma {:induction false} QueuedIsFresh(charset: bool, script: seq<Reply>, run: seq<Action>, s: State)
    requires Reaches(charset, script, run, s)
    ensures QueuedOk(s)
  {
    if run != [] {
      var front, last := run[..|run| - 1], run[|run| - 1];
      var s0 := Exec(Initial(charset, script), front).value;
      QueuedIsFresh(charset, script, front, s0);
      RunInv(charset, script, front);
      StepQueued(s0, last);
    }
  }

  lemma StepQueued(s: State, a: Action)
    requires Inv(s) && Enabled(s, a) && QueuedOk(s)
    ensures QueuedOk(Apply(s, a))
  {
    var t := Apply(s, a);
    StepInv(s, a);
    if !t.overtaken && t.queue != [] {
      if s.overtaken {
        NeverUnovertaken(s, a);
      }
      QueuedStepFresh(s, a);
    }
  }

  lemma QueuedStepFresh(s: State, a: Action)
    requires Inv(s) && Enabled(s, a) && QueuedOk(s) && !s.overtaken && Apply(s, a).queue != []
    ensures Fresh(Apply(s, a))
  {
    match a
    case Continue =>
      assert s.queue[1..] == [] by {
        assert |s.queue| == 1;
      }
      ContinuationUntended(s);
    case Timeout =>
      if s.status in {Ok, Bad} {
        HandleTimeoutFresh(s);
      } else {
        TimeoutConnects(s);
      }
    case _ => StepFresh(s, a);
  }

  lemma NeverUnovertaken(s: State, a: Action)
    requires Enabled(s, a) && s.overtaken
    ensures Apply(s, a).overtaken
  {
    match a
    case Connect => assert Init(s).overtaken;
    case Event => assert HandleEvent(s).overtaken;
    case Timeout => assert HandleTimeout(s).overtaken;
    case Command => assert ExecSql(s).overtaken;
    case Continue => assert RunContinuation(s).overtaken;
  }

  lemma TimeoutConnects(s: State)
    requires s.timers > 0 && s.status in {Connecting, SettingCharacterSet}
    ensures Fresh(HandleTimeout(s))
  {
    var t := s.(timers := s.timers - 1);
    match s.status
    case Connecting => ContinueConnectFresh(t);
    case _ => SetCharacterSetFresh(t);
  }

  /** So it is in every run, whatever is queued, until an event overtakes a continuation. */
  lemma ContinuationInRuns(charset: bool, script: seq<Reply>, run: seq<Action>, s: State)
    requires Reaches(charset, script, run, s) && !s.overtaken && s.queue != []
    ensures var t := RunContinuation(s);
            Fresh(t) <==> t.status == Bad || !t.working || t.accepted > s.accepted || Suits(s, t.wait)
  {
    RunInv(charset, script, run);
    QueuedIsFresh(charset, script, run, s);
    ContinuationInterest(s);
  }

  // ------------------------------------------------------------------ a connect that completes at once

  /** A successful `init` leaves something that can happen if and only if the connect has to wait. */
  lemma InitMakesProgress(charset: bool, script: seq<Reply>)
    requires Init(Initial(charset, script)).dispatcher
    ensures var s := Init(Initial(charset, script));
            s.status == Connecting && ((exists a :: Enabled(s, a)) <==> s.wait != NO_WAIT)
  {
    var s := Init(Initial(charset, script));
    assert Enabled(s, Event) <==> s.reading || s.writing;
    assert Enabled(s, Timeout) <==> s.timers > 0;
  }

  lemma NothingAfterConnect(charset: bool, script: seq<Reply>, a: Action)
    requires Init(Initial(charset, script)).dispatcher && Init(Initial(charset, script)).wait == NO_WAIT
    ensures Exec(Initial(charset, script), [Connect] + [a]) == None
  {
    var s0 := Initial(charset, script);
    InitMakesProgress(charset, script);
    assert ([Connect] + [a])[..1] == [Connect] && [Connect][..0] == [];
    assert Exec(s0, []) == Some(s0);
    assert Exec(s0, [Connect]) == Some(Init(s0));
  }

  /** A connect that completes at once is the last thing that happens to the connection. */
  lemma {:induction false} StuckInConnecting(charset: bool, script: seq<Reply>, run: seq<Action>)
    requires Exec(Initial(charset, script), run).Some? && run != []
    requires Init(Initial(charset, script)).dispatcher && Init(Initial(charset, script)).wait == NO_WAIT
    ensures run == [Connect]
  {
    var front, last := run[..|run| - 1], run[|run| - 1];
    if front == [] {
      FirstIsConnect(charset, script, last);
    } else {
      StuckInConnecting(charset, script, front);
      NothingAfterConnect(charset, script, last);
    }
    assert run == front + [last];
  }

  lemma FirstIsConnect(charset: bool, script: seq<Reply>, a: Action)
    ensures Enabled(Initial(charset, script), a) ==> a == Connect
  {
  }
}
