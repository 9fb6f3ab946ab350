/** The records of a connector only grow: the path of its status, and the dialogue with the library,
    of which the trace is the part the user sees. */
module MySQLGrowth {
  import opened CommandTrace
  import opened LibraryDialogue
  import opened MySQLState
  import opened Options

  predicate Recorded(s: State) {
    Callbacks(s.steps) == s.trace
  }

  predicate Grows(s: State, t: State) {
    s.path <= t.path && s.steps <= t.steps && s.charset == t.charset && (Recorded(s) ==> Recorded(t))
  }

  lemma Onward(s: State, t: State, u: State)
    requires Grows(s, t) && Grows(t, u)
    ensures Grows(s, u)
  {
  }

  lemma LogGrows(s: State, e: Event)
    ensures Grows(s, Log(s, e))
  {
    CallbacksAppend(s.steps, Told(e));
  }

  lemma CalledGrows(s: State, call: Call, first: bool)
    ensures Grows(s, Called(s, call, first))
  {
    CallbacksAppend(s.steps, Asked(call, first, AnswerOf(call, first, Head(s))));
  }

  lemma {:induction false} UserTurnGrows(s: State)
    ensures Grows(s, UserTurn(s))
    decreases 0, 0, 7
  {
    if Head(s).yes && MayStart(s) {
      ExecSqlGrows(Chosen(s));
    }
  }

  lemma {:induction false} ExecSqlGrows(s: State)
    ensures Grows(s, ExecSql(s)) && Accept(s).steps <= ExecSql(s).steps
    decreases 0, 0, 6
  {
    LogGrows(s, Accepted(s.accepted));
    StartQueryGrows(Accept(s));
  }

  lemma {:induction false} StartQueryGrows(s: State)
    ensures Grows(s, StartQuery(s)) && Called(s, QueryCall, true).steps <= StartQuery(s).steps
    decreases 0, 0, 5, 1
  {
    CalledGrows(s, QueryCall, true);
    if QuerySent(s).wait == NO_WAIT {
      QueryDoneGrows(QuerySent(s), Head(s).err, Head(s).sets);
    }
  }

  lemma {:induction false} QueryDoneGrows(s: State, err: bool, sets: nat)
    ensures Grows(s, QueryDone(s, err, sets))
    decreases 0, 0, 5, 0
  {
    if !err {
      StoreGrows(Executed(s, sets), true);
    }
  }

  lemma {:induction false} StoreGrows(s: State, queueInLoop: bool)
    ensures Grows(s, StartStoreResult(s, queueInLoop))
    decreases if queueInLoop then 0 else 1, if queueInLoop then 0 else s.lib.remaining, 4
  {
    var t := Called(s, StoreCall, true).(exec := StoreResult);
    CalledGrows(s, StoreCall, true);
    if t.wait == NO_WAIT {
      var u := t.(exec := Nothing);
      StoredGrows(u, queueInLoop, Head(s).ret);
      assert StartStoreResult(s, queueInLoop) == Stored(u, queueInLoop, Head(s).ret);
      assert Grows(s, u);
      Onward(s, u, Stored(u, queueInLoop, Head(s).ret));
    } else {
      assert StartStoreResult(s, queueInLoop) == t;
    }
  }

  lemma {:induction false} StoredGrows(s: State, queueInLoop: bool, ret: bool)
    ensures Grows(s, Stored(s, queueInLoop, ret))
    decreases if queueInLoop then 0 else 1, if queueInLoop then 0 else s.lib.remaining, 3
  {
    var results := ResultSet(s.lib.query, s.lib.index, s.lib.total);
    if queueInLoop {
      var c := if !ret && s.lib.errno != 0 then ReportError else DeliverResult(results);
      assert Stored(s, queueInLoop, ret) == s.(queue := s.queue + [c]);
    } else if !ret && s.lib.errno != 0 {
      OutputErrorGrows(s);
      assert Stored(s, queueInLoop, ret) == OutputError(s);
    } else {
      GetResultGrows(s, results);
      assert Stored(s, queueInLoop, ret) == GetResult(s, results);
    }
  }

  lemma {:induction false} GetResultGrows(s: State, results: ResultSet)
    ensures Grows(s, GetResult(s, results))
    decreases 1, s.lib.remaining, 2
  {
    if s.working {
      GetResultTells(s, results);
      LogGrows(s, Delivered(results));
      Onward(s, Log(s, Delivered(results)), GetResult(s, results));
    }
  }

  lemma {:induction false} GetResultTells(s: State, results: ResultSet)
    requires s.working
    ensures Grows(Log(s, Delivered(results)), GetResult(s, results))
    decreases 1, s.lib.remaining, 1, 1
  {
    var t := Log(s, Delivered(results));
    if t.lib.remaining == 0 {
      LogGrows(t.(working := false), Idle);
      UserTurnGrows(Log(t.(working := false), Idle));
      assert GetResult(s, results) == UserTurn(Log(t.(working := false), Idle));
    } else {
      MoreResultsGrows(t);
      assert GetResult(s, results) == MoreResults(t);
    }
  }

  lemma {:induction false} MoreResultsGrows(s: State)
    requires s.lib.remaining > 0
    ensures Grows(s, MoreResults(s))
    decreases 1, s.lib.remaining, 1, 0
  {
    var u := Called(s, NextCall, true).(exec := NextResult);
    CalledGrows(s, NextCall, true);
    if u.wait == NO_WAIT {
      NextReadyGrows(u, Head(s).err);
    }
  }

  lemma {:induction false} NextReadyGrows(s: State, err: bool)
    requires s.lib.remaining > 0
    ensures Grows(s, NextReady(s, err))
    decreases 1, s.lib.remaining, 0
  {
    if err {
      OutputErrorGrows(s.(exec := Nothing));
    } else {
      StoreGrows(Advanced(s), false);
    }
  }

  lemma {:induction false} OutputErrorGrows(s: State)
    ensures Grows(s, OutputError(s)) && (s.working ==> Log(s, Failed(Lost(s.lib.errno))).steps <= OutputError(s).steps)
    decreases 0, 0, 9
  {
    var t := s.(reading := false, writing := false);
    if s.working {
      var v := Log(t, Failed(Lost(s.lib.errno))).(working := false);
      LogGrows(t, Failed(Lost(s.lib.errno)));
      ReportGrows(v, Lost(s.lib.errno));
      assert OutputError(s) == if Lost(s.lib.errno) then HandleClosed(v) else UserTurn(Log(v, Idle));
      Onward(t, v, OutputError(s));
    } else if Lost(s.lib.errno) {
      HandleClosedGrows(t);
      assert OutputError(s) == HandleClosed(t);
    } else {
      assert OutputError(s) == t;
    }
  }

  lemma {:induction false} ReportGrows(s: State, lost: bool)
    ensures Grows(s, if lost then HandleClosed(s) else UserTurn(Log(s, Idle)))
    decreases 0, 0, 8, 1
  {
    if lost {
      HandleClosedGrows(s);
    } else {
      LogGrows(s, Idle);
      UserTurnGrows(Log(s, Idle));
      Onward(s, Log(s, Idle), UserTurn(Log(s, Idle)));
    }
  }

  lemma {:induction false} HandleClosedGrows(s: State)
    ensures Grows(s, HandleClosed(s)) && (s.status != Bad ==> Log(s, Closed).steps <= HandleClosed(s).steps)
    decreases 0, 0, 8, 0
  {
    if s.status != Bad {
      LogGrows(Enter(s, Bad).(reading := false, writing := false), Closed);
      UserTurnGrows(Closing(s));
    }
  }

  lemma GiveUpGrows(s: State)
    ensures Grows(s, GiveUp(s))
  {
    OutputErrorGrows(s.(exec := Nothing));
  }

  lemma FetchGrows(s: State)
    ensures Grows(s, Fetch(s))
  {
    StoreGrows(s, false);
  }

  lemma ContinueQueryTells(s: State)
    ensures Grows(Called(s, QueryCall, false), ContinueQuery(s))
  {
    var t := Called(s, QueryCall, false);
    if t.wait == NO_WAIT {
      if Head(s).err {
        GiveUpGrows(t);
      } else {
        FetchGrows(Executed(t, Head(s).sets));
      }
    }
  }

  lemma ContinueQueryGrows(s: State)
    ensures Grows(s, ContinueQuery(s))
  {
    CalledGrows(s, QueryCall, false);
    ContinueQueryTells(s);
    Onward(s, Called(s, QueryCall, false), ContinueQuery(s));
  }

  lemma ContinueStoreTells(s: State)
    ensures Grows(Called(s, StoreCall, false), ContinueStore(s))
  {
    var t := Called(s, StoreCall, false);
    if t.wait == NO_WAIT {
      if !Head(s).ret && t.lib.errno != 0 {
        GiveUpGrows(t);
      } else {
        var results := ResultSet(t.lib.query, t.lib.index, t.lib.total);
        GetResultGrows(t, results);
        assert ContinueStore(s) == SetEventDispatcher(GetResult(t, results));
      }
    }
  }

  lemma ContinueStoreGrows(s: State)
    ensures Grows(s, ContinueStore(s))
  {
    CalledGrows(s, StoreCall, false);
    ContinueStoreTells(s);
    Onward(s, Called(s, StoreCall, false), ContinueStore(s));
  }

  lemma ContinueNextTells(s: State)
    ensures Grows(Called(s, NextCall, false), ContinueNext(s))
  {
    var t := Called(s, NextCall, false);
    if t.wait == NO_WAIT {
      if Head(s).err {
        GiveUpGrows(t);
      } else {
        FetchGrows(Advanced(t));
      }
    }
  }

  lemma ContinueNextGrows(s: State)
    ensures Grows(s, ContinueNext(s))
  {
    CalledGrows(s, NextCall, false);
    ContinueNextTells(s);
    Onward(s, Called(s, NextCall, false), ContinueNext(s));
  }

  lemma HandleCmdGrows(s: State)
    ensures Grows(s, HandleCmd(s))
  {
    match s.exec
    case RealQuery => ContinueQueryGrows(s);
    case StoreResult => ContinueStoreGrows(s);
    case NextResult => ContinueNextGrows(s);
    case Nothing => HandleClosedGrows(s);
  }

  lemma BecomeOkGrows(s: State)
    ensures Grows(s, SetEventDispatcher(BecomeOk(s)))
  {
    LogGrows(Enter(s, Ok), Opened);
    UserTurnGrows(Log(Enter(s, Ok), Opened));
  }

  lemma StartCharsetGrows(s: State)
    ensures Grows(s, StartSetCharacterSet(s)) && Called(s, CharsetCall, true).steps <= StartSetCharacterSet(s).steps
  {
    var t := Called(s, CharsetCall, true);
    CalledGrows(s, CharsetCall, true);
    if t.wait != NO_WAIT {
      assert StartSetCharacterSet(s) == SetEventDispatcher(Enter(t, SettingCharacterSet));
    } else if Head(s).err {
      HandleClosedGrows(t);
      assert StartSetCharacterSet(s) == HandleClosed(t);
    } else {
      BecomeOkGrows(t);
      assert StartSetCharacterSet(s) == SetEventDispatcher(BecomeOk(t));
    }
  }

  lemma ContinueCharsetGrows(s: State)
    ensures Grows(s, ContinueSetCharacterSet(s)) && Called(s, CharsetCall, false).steps <= ContinueSetCharacterSet(s).steps
  {
    var t := Called(s, CharsetCall, false);
    CalledGrows(s, CharsetCall, false);
    if t.wait != NO_WAIT {
      assert ContinueSetCharacterSet(s) == SetEventDispatcher(t);
    } else if Head(s).err {
      HandleClosedGrows(t);
      assert ContinueSetCharacterSet(s) == HandleClosed(t);
    } else {
      BecomeOkGrows(t);
      assert ContinueSetCharacterSet(s) == SetEventDispatcher(BecomeOk(t));
    }
  }

  lemma ContinueConnectGrows(s: State)
    ensures Grows(s, ContinueConnect(s)) && Called(s, ConnectCall, false).steps <= ContinueConnect(s).steps
  {
    var t := Called(s, ConnectCall, false);
    CalledGrows(s, ConnectCall, false);
    if t.wait != NO_WAIT {
      assert ContinueConnect(s) == SetEventDispatcher(t);
    } else if !Head(s).ret && t.lib.errno != 0 {
      HandleClosedGrows(t);
      assert ContinueConnect(s) == HandleClosed(t);
    } else if s.charset {
      StartCharsetGrows(t);
      assert ContinueConnect(s) == StartSetCharacterSet(t);
    } else {
      BecomeOkGrows(t);
      assert ContinueConnect(s) == SetEventDispatcher(BecomeOk(t));
    }
  }

  lemma SocketedGrows(s: State)
    ensures Grows(s, Socketed(s))
  {
    CallbacksAppend(s.steps, Asked(SocketCall, true, if Head(s).yes then Completes(0) else Fails(0)));
  }

  lemma TakeSocketGrows(s: State)
    ensures Grows(s, TakeSocket(s))
  {
    SocketedGrows(s);
    LogGrows(Socketed(s), Closed);
  }

  lemma InitGrows(s: State)
    ensures Grows(s, Init(s))
  {
    var e := Enter(s, Connecting);
    var t := Called(e, ConnectCall, true);
    CalledGrows(e, ConnectCall, true);
    InitSpeaks(s);
    assert Grows(s, e);
    Onward(s, e, t);
    Onward(s, t, Init(s));
  }

  lemma InitSpeaks(s: State)
    ensures Grows(Called(Enter(s, Connecting), ConnectCall, true), Init(s))
  {
    var t := Called(Enter(s, Connecting), ConnectCall, true);
    if t.wait == NO_WAIT && t.lib.errno != 0 {
      LogGrows(t, Closed);
      assert Init(s) == Log(t, Closed);
    } else {
      TakeSocketGrows(t);
      assert Init(s) == TakeSocket(t);
    }
  }

  lemma ContinuationGrows(s: State)
    requires s.queue != []
    ensures Grows(s, RunContinuation(s))
  {
    var t := s.(queue := s.queue[1..]);
    match s.queue[0]
    case ReportError => OutputErrorGrows(t);
    case DeliverResult(results) => GetResultGrows(t, results);
  }

  lemma EventGrows(s: State)
    ensures Grows(s, HandleEvent(s))
  {
    match s.status
    case Connecting => ContinueConnectGrows(s);
    case Ok => HandleCmdGrows(Overtake(s));
    case SettingCharacterSet => ContinueCharsetGrows(s);
    case _ =>
  }

  lemma TimeoutGrows(s: State)
    requires s.timers > 0
    ensures Grows(s, HandleTimeout(s))
  {
    var t := s.(timers := s.timers - 1);
    match s.status
    case Connecting => ContinueConnectGrows(t);
    case SettingCharacterSet => ContinueCharsetGrows(t);
    case _ =>
  }

  lemma StepGrows(s: State, a: Action)
    requires Enabled(s, a)
    ensures Grows(s, Apply(s, a))
  {
    match a
    case Connect => InitGrows(s);
    case Event => EventGrows(s);
    case Timeout => TimeoutGrows(s);
    case Command => ExecSqlGrows(s);
    case Continue => ContinuationGrows(s);
  }

  /** In every run the trace is what the user is told in the dialogue. */
  lemma {:induction false} TraceIsRecorded(charset: bool, script: seq<Reply>, run: seq<Action>, s: State)
    requires Exec(Initial(charset, script), run) == Some(s)
    ensures Callbacks(s.steps) == s.trace
  {
    if run != [] {
      var s0 := Exec(Initial(charset, script), run[..|run| - 1]).value;
      TraceIsRecorded(charset, script, run[..|run| - 1], s0);
      StepGrows(s0, run[|run| - 1]);
    }
  }
}
