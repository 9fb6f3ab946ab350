/** The connector keeps to the dialogue of module LibraryDialogue: in every run without an overtaking
    event, whatever the library answers. */
module MySQLDialogue {
  import opened CommandTrace
  import opened LibraryDialogue
  import opened MySQLGrowth
  import opened MySQLProtocol
  import opened MySQLState
  import opened Options

  // ------------------------------------------------------------------ where the dialogue stands

  function Pos(s: State): Option<Session> {
    SessionOf(s.charset, s.steps)
  }

  predicate At(s: State, p: Point) {
    Pos(s).Some? && Pos(s).value.point == p && (Pos(s).value.closed <==> s.status == Bad)
  }

  /** The same, with as many result sets to come as the library has. */
  predicate AtSet(s: State, p: Point) {
    At(s, p) && Pos(s).value.remaining == s.lib.remaining
  }

  /** `execStatus_` still says that a store is going on exactly when the last one had to wait. */
  predicate StaleOk(s: State) {
    Pos(s).Some? && (s.exec == StoreResult <==> Pos(s).value.stale)
  }

  /** Between commands. */
  predicate Idling(s: State) {
    && !s.working && s.queue == [] && At(s, Resting) && StaleOk(s)
    && s.exec in {Nothing, StoreResult, RealQuery}
    && (s.exec == RealQuery ==> s.status == Bad || (!s.reading && !s.writing))
  }

  function CallOf(exec: ExecStatus): Call {
    match exec
    case StoreResult => StoreCall
    case NextResult => NextCall
    case _ => QueryCall
  }

  /** The library is working on a command. */
  predicate Waiting(s: State) {
    && s.queue == [] && s.exec != Nothing && s.wait != NO_WAIT && At(s, AwaitFor(CallOf(s.exec)))
    && (s.exec != RealQuery ==> AtSet(s, AwaitFor(CallOf(s.exec))))
  }

  predicate Reporting(s: State) {
    At(s, Report(s.lib.errno)) && s.exec in {Nothing, RealQuery} && !Pos(s).value.stale
  }

  predicate Delivering(s: State) {
    AtSet(s, Deliver) && s.exec in {Nothing, StoreResult} && StaleOk(s)
  }

  /** What the dialogue looks like between the steps of an open or closed connection. */
  predicate Parked(s: State) {
    if !s.working then Idling(s)
    else if s.queue == [] then Waiting(s)
    else if s.queue == [ReportError] then Reporting(s)
    else |s.queue| == 1 && s.queue[0].DeliverResult? && Delivering(s) && s.exec == Nothing
  }

  /** Nor is a query taken for one in progress. */
  predicate Calm(s: State) {
    Parked(s) && (!s.working ==> s.exec != RealQuery)
  }

  lemma LogMoves(s: State, e: Event)
    requires Pos(s).Some?
    ensures Pos(Log(s, e)) == After(s.charset, Pos(s).value, Told(e))
  {
    SessionAppend(s.charset, s.steps, Told(e));
  }

  lemma CallMoves(s: State, call: Call, first: bool)
    requires Pos(s).Some?
    ensures Pos(Called(s, call, first)) == After(s.charset, Pos(s).value, Asked(call, first, AnswerOf(call, first, Head(s))))
  {
    SessionAppend(s.charset, s.steps, Asked(call, first, AnswerOf(call, first, Head(s))));
  }

  /** A call that is due. */
  lemma CallAt(s: State, call: Call, first: bool)
    requires At(s, if first then AskFor(call) else AwaitFor(call))
    ensures Pos(Called(s, call, first)) ==
            Some(Answered(s.charset, Pos(s).value, call, first, AnswerOf(call, first, Head(s))))
  {
    CallMoves(s, call, first);
  }

  lemma SetCalm(s: State)
    requires Calm(s)
    ensures Calm(SetEventDispatcher(s))
  {
  }

  // ------------------------------------------------------------------ the steps of a command

  lemma {:induction false} UserTurnAt(s: State)
    requires Idling(s)
    ensures Parked(UserTurn(s)) && (s.exec != RealQuery ==> Calm(UserTurn(s)))
    decreases 0, 0, 7
  {
    if Head(s).yes && MayStart(s) {
      ExecSqlAt(Chosen(s));
    }
  }

  lemma {:induction false} ExecSqlAt(s: State)
    requires Idling(s)
    ensures Calm(ExecSql(s))
    decreases 0, 0, 6
  {
    LogMoves(s, Accepted(s.accepted));
    StartQueryAt(Accept(s));
    SetCalm(StartQuery(Accept(s)));
  }

  lemma {:induction false} StartQueryAt(s: State)
    requires At(s, AskFor(QueryCall)) && s.working && s.queue == []
    ensures Calm(StartQuery(s))
    decreases 0, 0, 5, 1
  {
    var u := QuerySent(s);
    CallAt(s, QueryCall, true);
    assert Pos(u) == Pos(Called(s, QueryCall, true));
    if u.wait == NO_WAIT {
      QueryDoneAt(u, Head(s).err, Head(s).sets);
    }
  }

  lemma {:induction false} QueryDoneAt(s: State, err: bool, sets: nat)
    requires s.working && s.queue == [] && s.exec == RealQuery
    requires if err then Reporting(s) else At(s, AskFor(StoreCall)) && Pos(s).value.remaining == sets
    ensures Calm(QueryDone(s, err, sets))
    decreases 0, 0, 5, 0
  {
    if !err {
      StartStoreAt(Executed(s, sets), true);
    }
  }

  lemma {:induction false} StartStoreAt(s: State, queueInLoop: bool)
    requires AtSet(s, AskFor(StoreCall)) && s.working && s.queue == []
    ensures Calm(StartStoreResult(s, queueInLoop))
    decreases if queueInLoop then 0 else 1, if queueInLoop then 0 else s.lib.remaining, 4
  {
    var t := Called(s, StoreCall, true).(exec := StoreResult);
    CallAt(s, StoreCall, true);
    if t.wait == NO_WAIT {
      StoredAt(t.(exec := Nothing), queueInLoop, Head(s).ret);
    }
  }

  lemma {:induction false} StoredAt(s: State, queueInLoop: bool, ret: bool)
    requires s.working && s.queue == [] && s.exec == Nothing
    requires if !ret && s.lib.errno != 0 then Reporting(s) else Delivering(s)
    ensures Calm(Stored(s, queueInLoop, ret))
    decreases if queueInLoop then 0 else 1, if queueInLoop then 0 else s.lib.remaining, 3
  {
    if queueInLoop {
      assert s.queue + [ReportError] == [ReportError];
      var results := ResultSet(s.lib.query, s.lib.index, s.lib.total);
      assert s.queue + [DeliverResult(results)] == [DeliverResult(results)];
    } else if !ret && s.lib.errno != 0 {
      OutputErrorAt(s);
    } else {
      GetResultAt(s, ResultSet(s.lib.query, s.lib.index, s.lib.total));
    }
  }

  lemma {:induction false} GetResultAt(s: State, results: ResultSet)
    requires Delivering(s) && s.working && s.queue == []
    ensures Calm(GetResult(s, results))
    decreases 1, s.lib.remaining, 2
  {
    var t := Log(s, Delivered(results));
    LogMoves(s, Delivered(results));
    if t.lib.remaining == 0 {
      var u := Log(t.(working := false), Idle);
      LogMoves(t.(working := false), Idle);
      UserTurnAt(u);
      assert GetResult(s, results) == UserTurn(u);
    } else {
      MoreResultsAt(t);
      assert GetResult(s, results) == MoreResults(t);
    }
  }

  lemma AdvancedAt(s: State)
    requires At(s, AskFor(StoreCall)) && s.lib.remaining > 0 && Pos(s).value.remaining == s.lib.remaining - 1
    ensures AtSet(Advanced(s), AskFor(StoreCall))
  {
  }

  lemma {:induction false} MoreResultsAt(s: State)
    requires AtSet(s, AskFor(NextCall)) && s.working && s.queue == [] && s.lib.remaining > 0
    ensures Calm(MoreResults(s))
    decreases 1, s.lib.remaining, 1
  {
    var u := Called(s, NextCall, true).(exec := NextResult);
    CallAt(s, NextCall, true);
    assert Pos(u) == Pos(Called(s, NextCall, true));
    if u.wait == NO_WAIT {
      if !Head(s).err {
        AdvancedAt(u);
      }
      NextReadyAt(u, Head(s).err);
      assert MoreResults(s) == NextReady(u, Head(s).err);
    } else {
      assert MoreResults(s) == u && At(u, AwaitFor(NextCall));
    }
  }

  lemma {:induction false} NextReadyAt(s: State, err: bool)
    requires s.working && s.queue == [] && s.lib.remaining > 0
    requires if err then Reporting(s.(exec := Nothing)) else AtSet(Advanced(s), AskFor(StoreCall))
    ensures Calm(NextReady(s, err))
    decreases 1, s.lib.remaining, 0
  {
    if err {
      OutputErrorAt(s.(exec := Nothing));
    } else {
      StartStoreAt(Advanced(s), false);
    }
  }

  lemma {:induction false} OutputErrorAt(s: State)
    requires Reporting(s) && s.working && s.queue == []
    ensures Parked(OutputError(s)) && (s.exec == Nothing ==> Calm(OutputError(s)))
    decreases 0, 0, 9
  {
    var t := s.(reading := false, writing := false);
    var lost := Lost(s.lib.errno);
    var v := Log(t, Failed(lost)).(working := false);
    LogMoves(t, Failed(lost));
    if lost {
      ClosedAt(v);
      assert OutputError(s) == HandleClosed(v);
    } else {
      LogMoves(v, Idle);
      UserTurnAt(Log(v, Idle));
      assert OutputError(s) == UserTurn(Log(v, Idle));
    }
  }

  /** The connection is lost, or closed by the server between commands. */
  lemma {:induction false} ClosedAt(s: State)
    requires !s.working && s.queue == [] && StaleOk(s) && s.exec in {Nothing, StoreResult, RealQuery}
    requires if s.status == Bad then At(s, Resting) else At(s, Resting) || At(s, Parting)
    ensures Parked(HandleClosed(s)) && (s.exec != RealQuery ==> Calm(HandleClosed(s)))
    decreases 0, 0, 8
  {
    if s.status != Bad {
      LogMoves(Enter(s, Bad).(reading := false, writing := false), Closed);
      UserTurnAt(Closing(s));
    }
  }

  // ------------------------------------------------------------------ the steps behind an event

  lemma GiveUpAt(s: State)
    requires Reporting(s.(exec := Nothing)) && s.working && s.queue == []
    ensures Calm(GiveUp(s))
  {
    OutputErrorAt(s.(exec := Nothing));
  }

  lemma FetchAt(s: State)
    requires AtSet(s, AskFor(StoreCall)) && s.working && s.queue == []
    ensures Calm(Fetch(s))
  {
    StartStoreAt(s, false);
    SetCalm(StartStoreResult(s, false));
  }

  lemma ContinueQueryAt(s: State)
    requires Waiting(s) && s.working && s.exec == RealQuery
    ensures Calm(ContinueQuery(s))
  {
    var t := Called(s, QueryCall, false);
    CallAt(s, QueryCall, false);
    if t.wait != NO_WAIT {
      SetCalm(t);
    } else if Head(s).err {
      GiveUpAt(t);
    } else {
      FetchAt(Executed(t, Head(s).sets));
    }
  }

  lemma ContinueStoreAt(s: State)
    requires Waiting(s) && s.working && s.exec == StoreResult
    ensures Calm(ContinueStore(s))
  {
    var t := Called(s, StoreCall, false);
    CallAt(s, StoreCall, false);
    if t.wait != NO_WAIT {
      SetCalm(t);
    } else if !Head(s).ret && t.lib.errno != 0 {
      GiveUpAt(t);
    } else {
      var results := ResultSet(t.lib.query, t.lib.index, t.lib.total);
      GetResultAt(t, results);
      SetCalm(GetResult(t, results));
    }
  }

  lemma NextPends(s: State)
    requires Waiting(s) && s.working && s.exec == NextResult && Head(s).wait != NO_WAIT
    ensures Calm(ContinueNext(s))
  {
    var t := Called(s, NextCall, false);
    CallAt(s, NextCall, false);
    SetCalm(t);
    assert ContinueNext(s) == SetEventDispatcher(t);
  }

  lemma NextFails(s: State)
    requires Waiting(s) && s.working && s.exec == NextResult && Head(s).wait == NO_WAIT && Head(s).err
    ensures Calm(ContinueNext(s))
  {
    var t := Called(s, NextCall, false);
    CallAt(s, NextCall, false);
    GiveUpAt(t);
    assert ContinueNext(s) == GiveUp(t);
  }

  lemma NextGoesOn(s: State)
    requires Waiting(s) && s.working && s.exec == NextResult && s.lib.remaining > 0 && Head(s).wait == NO_WAIT && !Head(s).err
    ensures Calm(ContinueNext(s))
  {
    var t := Called(s, NextCall, false);
    CallAt(s, NextCall, false);
    AdvancedAt(t);
    FetchAt(Advanced(t));
    assert ContinueNext(s) == Fetch(Advanced(t));
  }

  lemma ContinueNextAt(s: State)
    requires Waiting(s) && s.working && s.exec == NextResult && s.lib.remaining > 0
    ensures Calm(ContinueNext(s))
  {
    if Head(s).wait != NO_WAIT {
      NextPends(s);
    } else if Head(s).err {
      NextFails(s);
    } else {
      NextGoesOn(s);
    }
  }

  /** A store continued between commands. */
  lemma StaleStoreAt(s: State)
    requires Idling(s) && s.exec == StoreResult && s.status != Bad
    ensures Calm(ContinueStore(s))
  {
    var t := Called(s, StoreCall, false);
    CallMoves(s, StoreCall, false);
    if t.wait != NO_WAIT {
      SetCalm(t);
    } else if !Head(s).ret && t.lib.errno != 0 {
      StaleFailure(t.(exec := Nothing));
    } else {
      SetCalm(t);
      assert GetResult(t, ResultSet(t.lib.query, t.lib.index, t.lib.total)) == t;
    }
  }

  lemma StaleFailure(s: State)
    requires !s.working && s.queue == [] && s.exec == Nothing && StaleOk(s) && s.status != Bad
    requires At(s, if Gone(s.lib.errno) then Parting else Resting)
    ensures Calm(OutputError(s))
  {
    var t := s.(reading := false, writing := false);
    if Lost(s.lib.errno) {
      ClosedAt(t);
    }
  }

  lemma HandleCmdAt(s: State)
    requires Parked(s) && s.queue == [] && s.status == Ok && (s.reading || s.writing)
    requires s.working && s.exec == NextResult ==> s.lib.remaining > 0
    ensures Calm(HandleCmd(s))
  {
    match s.exec
    case RealQuery => ContinueQueryAt(s);
    case StoreResult => if s.working { ContinueStoreAt(s); } else { StaleStoreAt(s); }
    case NextResult => ContinueNextAt(s);
    case Nothing =>
      if s.wait == NO_WAIT {
        ClosedAt(s);
      }
  }

  lemma RunContinuationAt(s: State)
    requires Parked(s) && s.queue != [] && s.working
    ensures Parked(RunContinuation(s))
  {
    var t := s.(queue := s.queue[1..]);
    assert t.queue == [];
    match s.queue[0]
    case ReportError => OutputErrorAt(t);
    case DeliverResult(results) => GetResultAt(t, results);
  }

  // ------------------------------------------------------------------ the connection steps

  /** Nothing has happened yet but connecting. */
  predicate Young(s: State) {
    !s.working && s.queue == [] && s.exec == Nothing && Ok !in s.path && Pos(s).Some? && !Pos(s).value.stale
  }

  /** No event and no timeout can come. */
  predicate Unheard(s: State) {
    !s.reading && !s.writing && s.timers == 0
  }

  /** What the dialogue looks like before the connection is open. */
  predicate Rising(s: State) {
    && Young(s)
    && match s.status
       case Unconnected => Pos(s).value == BEGINNING && Unheard(s)
       case Connecting =>
         if !s.dispatcher then Pos(s).value.point == Over
         else if s.wait == NO_WAIT then At(s, Stranded) && Unheard(s)
         else At(s, AwaitFor(ConnectCall))
       case SettingCharacterSet => At(s, AwaitFor(CharsetCall))
       case _ => At(s, Over)
  }

  predicate Linked(s: State) {
    if Ok in s.path then Parked(s) && (s.status == Ok || s.status == Bad) else Rising(s)
  }

  lemma OpenAt(s: State)
    requires Young(s) && At(s, Opening) && s.status in {Connecting, SettingCharacterSet}
    ensures Linked(SetEventDispatcher(BecomeOk(s)))
  {
    var t := Log(Enter(s, Ok), Opened);
    LogMoves(Enter(s, Ok), Opened);
    UserTurnAt(t);
    SetCalm(BecomeOk(s));
    StaysOpen(t);
  }

  /** A command accepted at once leaves the connection open. */
  lemma StaysOpen(s: State)
    requires Ok in s.path
    ensures UserTurn(s).path == s.path && UserTurn(s).status == s.status
  {
    if Head(s).yes && MayStart(s) {
      assert UserTurn(s) == ExecSql(Chosen(s));
    }
  }

  lemma RefusedAt(s: State)
    requires Young(s) && At(s, Refused) && s.status in {Connecting, SettingCharacterSet}
    ensures Linked(HandleClosed(s)) && HandleClosed(s).status == Bad
  {
    LogMoves(Enter(s, Bad).(reading := false, writing := false), Closed);
    assert UserTurn(Closing(s)) == Chosen(Closing(s));
  }

  lemma StartCharsetAt(s: State)
    requires Young(s) && At(s, AskFor(CharsetCall)) && s.status == Connecting && s.dispatcher
    ensures Linked(StartSetCharacterSet(s))
  {
    var t := Called(s, CharsetCall, true);
    CallAt(s, CharsetCall, true);
    if t.wait == NO_WAIT {
      if Head(s).err {
        RefusedAt(t);
      } else {
        OpenAt(t);
      }
    }
  }

  lemma ContinueCharsetAt(s: State)
    requires Rising(s) && s.status == SettingCharacterSet && s.dispatcher
    ensures Linked(ContinueSetCharacterSet(s))
  {
    var t := Called(s, CharsetCall, false);
    CallAt(s, CharsetCall, false);
    if t.wait == NO_WAIT {
      if Head(s).err {
        RefusedAt(t);
      } else {
        OpenAt(t);
      }
    }
  }

  lemma ContinueConnectAt(s: State)
    requires Rising(s) && s.status == Connecting && s.dispatcher && s.wait != NO_WAIT
    ensures Linked(ContinueConnect(s))
  {
    var t := Called(s, ConnectCall, false);
    CallAt(s, ConnectCall, false);
    if t.wait == NO_WAIT {
      if !Head(s).ret && t.lib.errno != 0 {
        RefusedAt(t);
      } else if s.charset {
        StartCharsetAt(t);
      } else {
        OpenAt(t);
      }
    }
  }

  lemma SocketMoves(s: State)
    requires Pos(s).Some?
    ensures Pos(Socketed(s)) ==
            After(s.charset, Pos(s).value, Asked(SocketCall, true, if Head(s).yes then Completes(0) else Fails(0)))
  {
    SessionAppend(s.charset, s.steps, Asked(SocketCall, true, if Head(s).yes then Completes(0) else Fails(0)));
  }

  lemma SocketAt(s: State)
    requires Young(s) && s.status == Connecting && !s.dispatcher && Unheard(s)
    requires Pos(s).value == BEGINNING.(point := AskFor(SocketCall), waits := s.wait != NO_WAIT)
    ensures Linked(TakeSocket(s))
  {
    SocketMoves(s);
    if !Head(s).yes {
      LogMoves(Socketed(s), Closed);
    }
  }

  lemma InitAt(s: State)
    requires Rising(s) && s.status == Unconnected && !s.dispatcher
    ensures Linked(Init(s))
  {
    var t := Called(Enter(s, Connecting), ConnectCall, true);
    CallMoves(Enter(s, Connecting), ConnectCall, true);
    if t.wait == NO_WAIT && t.lib.errno != 0 {
      LogMoves(t, Closed);
    } else {
      SocketAt(t);
    }
  }

  // ------------------------------------------------------------------ whole runs

  lemma EventAt(s: State)
    requires Linked(s) && Inv(s) && !HandleEvent(s).overtaken && Enabled(s, Event)
    ensures Linked(HandleEvent(s))
  {
    match s.status
    case Connecting => ContinueConnectAt(s);
    case SettingCharacterSet => ContinueCharsetAt(s);
    case Ok =>
      assert HandleEvent(s) == HandleCmd(Overtake(s)) && Overtake(s) == s;
      HandleCmdAt(s);
      StaysUp(s, Event);
    case _ =>
  }

  /** Once open, a connection is open or closed. */
  lemma StaysUp(s: State, a: Action)
    requires Inv(s) && Enabled(s, a) && Ok in s.path
    ensures Ok in Apply(s, a).path && Apply(s, a).status in {Ok, Bad}
  {
    StepGrows(s, a);
    StepInv(s, a);
    var k :| 0 <= k < |s.path| && s.path[k] == Ok;
    assert Apply(s, a).path[k] == Ok;
  }

  lemma TimeoutAt(s: State)
    requires Linked(s) && Inv(s) && s.timers > 0
    ensures Linked(HandleTimeout(s))
  {
    var t := s.(timers := s.timers - 1);
    match s.status
    case Connecting => ContinueConnectAt(t);
    case SettingCharacterSet => ContinueCharsetAt(t);
    case _ =>
  }

  lemma StepLinked(s: State, a: Action)
    requires Linked(s) && Inv(s) && Enabled(s, a) && !Apply(s, a).overtaken
    ensures Linked(Apply(s, a))
  {
    match a
    case Connect => InitAt(s);
    case Event => EventAt(s);
    case Timeout => TimeoutAt(s);
    case Command =>
      ExecSqlAt(s);
      StaysUp(s, a);
    case Continue =>
      RunContinuationAt(s);
      StaysUp(s, a);
  }

  lemma {:induction false} RunLinked(charset: bool, script: seq<Reply>, run: seq<Action>, s: State)
    requires Reaches(charset, script, run, s)
    ensures !s.overtaken ==> Linked(s)
  {
    if run != [] {
      var front, last := run[..|run| - 1], run[|run| - 1];
      var s0 := Exec(Initial(charset, script), front).value;
      RunLinked(charset, script, front, s0);
      RunInv(charset, script, front);
      if !s.overtaken {
        if s0.overtaken {
          NeverUnovertaken(s0, last);
        }
        StepLinked(s0, last);
      }
    }
  }

  /** In every run without an overtaking event the library and the user are dealt with as the protocol
      says; between the steps the connector stands where its fields say. */
  lemma KeepsTheDialogue(charset: bool, script: seq<Reply>, run: seq<Action>, s: State)
    requires Reaches(charset, script, run, s) && !s.overtaken
    ensures SessionOf(charset, s.steps).Some? && Callbacks(s.steps) == s.trace
    ensures Ok in s.path && !s.working ==> SessionOf(charset, s.steps).value.point == Resting
    ensures s.working && s.queue == [] ==> s.wait != NO_WAIT && SessionOf(charset, s.steps).value.point == AwaitFor(CallOf(s.exec))
    ensures s.working && s.queue != [] ==> SessionOf(charset, s.steps).value.point in {Report(s.lib.errno), Deliver}
  {
    RunLinked(charset, script, run, s);
    RunInv(charset, script, run);
    TraceIsRecorded(charset, script, run, s);
    SameCharset(charset, script, run, s);
  }

  lemma {:induction false} SameCharset(charset: bool, script: seq<Reply>, run: seq<Action>, s: State)
    requires Reaches(charset, script, run, s)
    ensures s.charset == charset
  {
    if run != [] {
      var s0 := Exec(Initial(charset, script), run[..|run| - 1]).value;
      SameCharset(charset, script, run[..|run| - 1], s0);
      StepGrows(s0, run[|run| - 1]);
    }
  }
}
