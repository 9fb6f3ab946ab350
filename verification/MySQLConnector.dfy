/** The connector object of MySQLImpl/MySQLConnector.cpp.  Each handler assigns the fields as the
    source does and is proved to take the step that module MySQLState describes; the five methods the
    loop and the user call keep the object on a run of that machine, so that all that module
    MySQLProtocol proves of runs holds of the object. */
module MySQLConnector {
  import opened CommandTrace
  import opened LibraryDialogue
  import opened MySQLDialogue
  import opened MySQLOutcomes
  import opened MySQLProtocol
  import opened MySQLState
  import opened Options
  import opened Placeholders

  class Connector {
    const charset: bool
    var status: Status
    var exec: ExecStatus
    var wait: Wait
    var working: bool
    var sql: string
    /** Whether the dispatcher exists, and its interest. */
    var dispatcher: bool
    var reading: bool
    var writing: bool
    /** Timeouts and functions left with the loop. */
    var timers: nat
    var queue: seq<Continuation>
    var lib: Library
    var accepted: nat
    /** Every status so far; user code knows from it whether `okCallback_` has been called. */
    var path: seq<Status>
    ghost var trace: seq<Event>
    ghost var overtaken: bool
    ghost var crossed: bool
    ghost var steps: seq<Step>
    /** What the environment will answer, and the steps taken so far. */
    ghost const start: seq<Reply>
    ghost var history: seq<Action>

    ghost function S(): State
      reads this
    {
      State(status, exec, wait, working, charset, dispatcher, reading, writing, timers, queue, lib,
            accepted, path, trace, overtaken, crossed, steps)
    }

    /** The object is where the steps recorded in `history` lead. */
    ghost predicate Valid()
      reads this
    {
      Reaches(charset, start, history, S())
    }

    /** A step `a` was taken, and neither the user nor the library has seen anything against the protocol. */
    twostate predicate Stepped(a: Action)
      reads this
    {
      && Valid() && history == old(history) + [a]
      && Follows(trace) && (working <==> PhaseOf(trace).value.job.Busy?)
      && (!crossed ==> Orderly(trace)) && (!overtaken ==> SessionOf(charset, steps).Some?)
    }

    lemma StepTaken(h: seq<Action>, s: State, a: Action)
      requires Reaches(charset, start, h, s) && Enabled(s, a) && S() == Apply(s, a)
      ensures Reaches(charset, start, h + [a], S()) && Inv(s)
      ensures Follows(trace) && (working <==> PhaseOf(trace).value.job.Busy?) && (!crossed ==> Orderly(trace))
      ensures !overtaken ==> SessionOf(charset, steps).Some?
    {
      RunInv(charset, start, h);
      Extend(Initial(charset, start), h, s, a, S());
      RunInv(charset, start, h + [a]);
      if !overtaken {
        KeepsTheDialogue(charset, start, h + [a], S());
      }
    }

    constructor (charset: bool, script: seq<Reply>)
      ensures Valid() && S() == Initial(charset, script)
    {
      this.charset, start, history := charset, script, [];
      status, exec, wait, working, sql := Unconnected, Nothing, NO_WAIT, false, "";
      dispatcher, reading, writing, timers, queue := false, false, false, 0, [];
      lib, accepted := Library(script, 0, 0, 0, 0, 0), 0;
      path, trace, overtaken, crossed, steps := [Unconnected], [], false, false, [];
    }

    // ---------------------------------------------------------------- the environment

    method Choose() returns (yes: bool)
      modifies this
      ensures yes == Head(old(S())).yes && S() == Chosen(old(S()))
    {
      yes := lib.script != [] && lib.script[0].yes;
      lib := lib.(script := if lib.script == [] then [] else lib.script[1..]);
    }

    /** `waitStatus_` is assigned what a library call returns. */
    method CallLibrary(call: Call, first: bool) returns (r: Reply)
      modifies this
      ensures r == Head(old(S())) && S() == Called(old(S()), call, first)
    {
      steps := steps + [Asked(call, first, AnswerOf(call, first, Head(S())))];
      r := if lib.script == [] then DEFAULT else lib.script[0];
      wait := r.wait;
      lib := lib.(script := if lib.script == [] then [] else lib.script[1..], errno := r.errno);
    }

    /** Whether `mysql_get_socket` returns a socket. */
    method GetSocket() returns (found: bool)
      modifies this
      ensures found == Head(old(S())).yes && S() == Socketed(old(S()))
    {
      steps := steps + [Asked(SocketCall, true, if Head(S()).yes then Completes(0) else Fails(0))];
      found := Choose();
    }

    method Notify(e: Event)
      modifies this
      ensures S() == Log(old(S()), e)
    {
      trace, steps := trace + [e], steps + [Told(e)];
    }

    method SetStatus(newStatus: Status)
      modifies this
      ensures S() == Enter(old(S()), newStatus)
    {
      status := newStatus;
      path := path + [newStatus];
    }

    method SetExec(newExec: ExecStatus)
      modifies this
      ensures S() == old(S()).(exec := newExec)
    {
      exec := newExec;
    }

    /** The first library call of its kind on behalf of a command, which is then in the given state. */
    method CallFor(call: Call, newExec: ExecStatus) returns (r: Reply)
      modifies this
      ensures r == Head(old(S())) && S() == Called(old(S()), call, true).(exec := newExec)
    {
      SetExec(newExec);
      r := CallLibrary(call, true);
    }

    method StopWorking()
      modifies this
      ensures S() == old(S()).(working := false)
    {
      working := false;
    }

    method Enqueue(c: Continuation)
      modifies this
      ensures S() == old(S()).(queue := old(queue) + [c])
    {
      queue := queue + [c];
    }

    /** The library's own bookkeeping. */
    method LibrarySent()
      modifies this
      ensures S() == Sent(old(S()))
    {
      lib := lib.(query := if accepted == 0 then 0 else accepted - 1, index := 0);
    }

    method LibraryExecuted(sets: nat)
      modifies this
      ensures S() == Executed(old(S()), sets)
    {
      lib := lib.(remaining := sets, total := sets + 1, index := 0);
    }

    method LibraryAdvanced()
      modifies this
      ensures S() == Advanced(old(S()))
    {
      lib := lib.(remaining := Less(lib.remaining), index := lib.index + 1);
    }

    // ---------------------------------------------------------------- the handlers

    method SetEventDispatcher()
      modifies this
      ensures S() == MySQLState.SetEventDispatcher(old(S()))
    {
      WaitToRead();
      WaitToWrite();
      if wait.timeout {
        timers := timers + 1;
      }
    }

    method WaitToRead()
      modifies this
      ensures S() == old(S()).(reading := old(reading || wait.read || wait.except))
    {
      if wait.read || wait.except {
        if !reading {
          reading := true;
        }
      }
    }

    method WaitToWrite()
      modifies this
      ensures S() == old(S()).(writing := old(wait.write))
    {
      if wait.write {
        if !writing {
          writing := true;
        }
      } else {
        if writing {
          writing := false;
        }
      }
    }

    method HandleClosed()
      modifies this
      ensures S() == MySQLState.HandleClosed(old(S()))
      decreases 0, 0, 8
    {
      if status == Bad {
        return;
      }
      Close();
      UserTurn();
    }

    method Close()
      modifies this
      ensures S() == Closing(old(S()))
    {
      SetStatus(Bad);
      DisableAll();
      Notify(Closed);
    }

    /** User code in `idleCb_`, `okCallback_` and `closeCallback_`. */
    method UserTurn()
      modifies this
      ensures S() == MySQLState.UserTurn(old(S()))
      decreases 0, 0, 7
    {
      var yes := Choose();
      if yes && Ok in path && !working {
        assert "x" != "" && Substitute("x", []).Some?;
        var text, params :| text != "" && Substitute(text, params).Some?;
        var _ := Execute(text, params);
      }
    }

    /** The callbacks are stored and `isWorking_` is set. */
    method Accept()
      modifies this
      ensures S() == MySQLState.Accept(old(S()))
    {
      var cmd := accepted;
      TakeOn();
      Notify(Accepted(cmd));
    }

    method TakeOn()
      modifies this
      ensures S() == old(S()).(working := true, accepted := old(accepted) + 1, crossed := old(crossed || queue != []))
    {
      working := true;
      crossed := crossed || queue != [];
      accepted := accepted + 1;
    }

    /** The body of `execSqlInLoop`; it aborts the process on a parameter of unrecognized format. */
    method Execute(text: string, params: seq<Param>) returns (aborted: bool)
      requires !working && text != ""
      modifies this
      ensures aborted <==> Substitute(text, params) == None
      ensures S() == if aborted then MySQLState.Accept(old(S())) else MySQLState.ExecSql(old(S()))
      decreases 0, 0, 6
    {
      Accept();
      var prepared := PrepareSql(text, params);
      if prepared == None {
        return true;
      }
      Submit(prepared.value);
      return false;
    }

    method Submit(text: string)
      modifies this
      ensures S() == MySQLState.SetEventDispatcher(MySQLState.StartQuery(old(S())))
      decreases 0, 0, 5, 2
    {
      ghost var s := S();
      sql := text;
      assert S() == s;
      StartQuery();
      SetEventDispatcher();
    }

    method StartQuery()
      modifies this
      ensures S() == MySQLState.StartQuery(old(S()))
      decreases 0, 0, 5, 1
    {
      var r := SendQuery();
      if wait == NO_WAIT {
        QueryDone(r.err, r.sets);
      }
    }

    method SendQuery() returns (r: Reply)
      modifies this
      ensures r == Head(old(S())) && S() == QuerySent(old(S()))
    {
      r := CallFor(QueryCall, RealQuery);
      LibrarySent();
    }

    method QueryDone(err: bool, sets: nat)
      modifies this
      ensures S() == MySQLState.QueryDone(old(S()), err, sets)
      decreases 0, 0, 5, 0
    {
      if err {
        Enqueue(ReportError);
        return;
      }
      LibraryExecuted(sets);
      StartStoreResult(true);
    }

    method StartStoreResult(queueInLoop: bool)
      modifies this
      ensures S() == MySQLState.StartStoreResult(old(S()), queueInLoop)
      decreases if queueInLoop then 0 else 1, if queueInLoop then 0 else lib.remaining, 4
    {
      var r := CallFor(StoreCall, StoreResult);
      if wait == NO_WAIT {
        SetExec(Nothing);
        Stored(queueInLoop, r.ret);
      }
    }

    method Stored(queueInLoop: bool, ret: bool)
      modifies this
      ensures S() == MySQLState.Stored(old(S()), queueInLoop, ret)
      decreases if queueInLoop then 0 else 1, if queueInLoop then 0 else lib.remaining, 3
    {
      if !ret && lib.errno != 0 {
        if queueInLoop {
          Enqueue(ReportError);
        } else {
          OutputError();
        }
        return;
      }
      var results := ResultSet(lib.query, lib.index, lib.total);
      if queueInLoop {
        Enqueue(DeliverResult(results));
      } else {
        GetResult(results);
      }
    }

    method GetResult(results: ResultSet)
      modifies this
      ensures S() == MySQLState.GetResult(old(S()), results)
      decreases 1, lib.remaining, 2
    {
      if working {
        Notify(Delivered(results));
        if lib.remaining == 0 {
          StopWorking();
          Notify(Idle);
          UserTurn();
        } else {
          MoreResults();
        }
      }
    }

    method MoreResults()
      requires lib.remaining > 0
      modifies this
      ensures S() == MySQLState.MoreResults(old(S()))
      decreases 1, lib.remaining, 1
    {
      var r := CallFor(NextCall, NextResult);
      if wait == NO_WAIT {
        NextReady(r.err);
      }
    }

    method NextReady(err: bool)
      requires lib.remaining > 0
      modifies this
      ensures S() == MySQLState.NextReady(old(S()), err)
      decreases 1, lib.remaining, 0
    {
      if err {
        SetExec(Nothing);
        OutputError();
        return;
      }
      LibraryAdvanced();
      StartStoreResult(false);
    }

    method DisableAll()
      modifies this
      ensures S() == old(S()).(reading := false, writing := false)
    {
      reading, writing := false, false;
    }

    method OutputError()
      modifies this
      ensures S() == MySQLState.OutputError(old(S()))
      decreases 0, 0, 9
    {
      DisableAll();
      var errorNo := lib.errno;
      var lost := errorNo == CR_SERVER_GONE_ERROR || errorNo == CR_SERVER_LOST;
      if working {
        ReportFailure(lost);
        if !lost {
          Notify(Idle);
          UserTurn();
        }
      }
      if lost {
        HandleClosed();
      }
    }

    /** The exception callback, and the end of the command. */
    method ReportFailure(lost: bool)
      modifies this
      ensures S() == Log(old(S()), Failed(lost)).(working := false)
    {
      Notify(Failed(lost));
      working := false;
    }

    /** The cases of the switch in `handleCmd`. */
    method ContinueQuery()
      requires exec == RealQuery
      modifies this
      ensures S() == MySQLState.ContinueQuery(old(S()))
    {
      ghost var s := S();
      var r := CallLibrary(QueryCall, false);
      if wait == NO_WAIT {
        if r.err {
          SetExec(Nothing);
          OutputError();
          return;
        }
        LibraryExecuted(r.sets);
        StartStoreResult(false);
        assert S() == MySQLState.StartStoreResult(Executed(Called(s, QueryCall, false), r.sets), false);
      }
      SetEventDispatcher();
    }

    method ContinueStore()
      requires exec == StoreResult
      modifies this
      ensures S() == MySQLState.ContinueStore(old(S()))
    {
      ghost var s := S();
      var r := CallLibrary(StoreCall, false);
      if wait == NO_WAIT {
        if !r.ret && lib.errno != 0 {
          SetExec(Nothing);
          OutputError();
          return;
        }
        var results := ResultSet(lib.query, lib.index, lib.total);
        GetResult(results);
        assert S() == MySQLState.GetResult(Called(s, StoreCall, false), results);
      }
      SetEventDispatcher();
    }

    method ContinueNext()
      requires exec == NextResult
      modifies this
      ensures S() == MySQLState.ContinueNext(old(S()))
    {
      ghost var s := S();
      var r := CallLibrary(NextCall, false);
      if wait == NO_WAIT {
        if r.err {
          SetExec(Nothing);
          OutputError();
          return;
        }
        LibraryAdvanced();
        StartStoreResult(false);
        assert S() == MySQLState.StartStoreResult(Advanced(Called(s, NextCall, false)), false);
      }
      SetEventDispatcher();
    }

    method HandleCmd()
      modifies this
      ensures S() == MySQLState.HandleCmd(old(S()))
    {
      match exec
      case RealQuery => ContinueQuery();
      case StoreResult => ContinueStore();
      case NextResult => ContinueNext();
      case Nothing =>
        if wait == NO_WAIT {
          HandleClosed();
        }
    }

    method BecomeOk()
      modifies this
      ensures S() == MySQLState.BecomeOk(old(S()))
    {
      SetStatus(Ok);
      Notify(Opened);
      UserTurn();
    }

    method StartSetCharacterSet()
      modifies this
      ensures S() == MySQLState.StartSetCharacterSet(old(S()))
    {
      var r := CallLibrary(CharsetCall, true);
      if wait == NO_WAIT {
        if r.err {
          HandleClosed();
          return;
        }
        BecomeOk();
      } else {
        SetStatus(SettingCharacterSet);
      }
      SetEventDispatcher();
    }

    method ContinueSetCharacterSet()
      modifies this
      ensures S() == MySQLState.ContinueSetCharacterSet(old(S()))
    {
      var r := CallLibrary(CharsetCall, false);
      if wait == NO_WAIT {
        if r.err {
          HandleClosed();
          return;
        }
        BecomeOk();
      }
      SetEventDispatcher();
    }

    method ContinueConnect()
      modifies this
      ensures S() == MySQLState.ContinueConnect(old(S()))
    {
      var r := CallLibrary(ConnectCall, false);
      if wait == NO_WAIT {
        if !r.ret && lib.errno != 0 {
          HandleClosed();
          return;
        }
        if charset {
          StartSetCharacterSet();
          return;
        }
        BecomeOk();
      }
      SetEventDispatcher();
    }

    // ---------------------------------------------------------------- what the loop and the user call

    /** The function `init` queues. */
    method Init()
      requires Valid() && status == Unconnected
      modifies this
      ensures S() == MySQLState.Init(old(S()))
      ensures Started(old(S()), S(), old(!(Head(S()).wait == NO_WAIT && Head(S()).errno != 0) && Second(S()).yes))
      ensures Stepped(Connect) && Fresh(S())
    {
      ghost var h, s := history, S();
      StartConnect();
      history := h + [Connect];
      StepTaken(h, s, Connect);
      StepFresh(s, Connect);
      InitOutcome(s);
    }

    method StartConnect()
      modifies this
      ensures S() == MySQLState.Init(old(S()))
    {
      SetStatus(Connecting);
      var _ := CallLibrary(ConnectCall, true);
      if wait == NO_WAIT && lib.errno != 0 {
        Notify(Closed);
        return;
      }
      TakeSocket();
    }

    method TakeSocket()
      modifies this
      ensures S() == MySQLState.TakeSocket(old(S()))
    {
      var found := GetSocket();
      if !found {
        Notify(Closed);
        return;
      }
      CreateDispatcher();
      SetEventDispatcher();
    }

    method CreateDispatcher()
      modifies this
      ensures S() == old(S()).(dispatcher := true)
    {
      dispatcher := true;
    }

    /** Called by the dispatcher, which does so only while it has some interest. */
    method HandleEvent()
      requires Valid() && dispatcher && (reading || writing)
      modifies this
      ensures S() == MySQLState.HandleEvent(old(S()))
      ensures old(status) in {Connecting, SettingCharacterSet} ==>
                ComesOut(old(trace), S(), old(Decided(status, charset, Head(S()), Second(S()))))
      ensures Stepped(Event) && Fresh(S())
    {
      ghost var h, s := history, S();
      DispatchEvent();
      history := h + [Event];
      StepTaken(h, s, Event);
      StepFresh(s, Event);
      if s.status in {Connecting, SettingCharacterSet} {
        ConnectOutcome(s, Event);
      }
    }

    /** The event comes before whatever is queued. */
    ghost method NoteOvertaking()
      modifies this
      ensures S() == Overtake(old(S()))
    {
      overtaken, crossed := overtaken || queue != [], crossed || (queue != [] && exec == Nothing);
    }

    method DispatchEvent()
      modifies this
      ensures S() == MySQLState.HandleEvent(old(S()))
    {
      if status == Connecting {
        ContinueConnect();
      } else if status == Ok {
        NoteOvertaking();
        HandleCmd();
      } else if status == SettingCharacterSet {
        ContinueSetCharacterSet();
      }
    }

    method HandleTimeout()
      requires Valid() && timers > 0
      modifies this
      ensures S() == MySQLState.HandleTimeout(old(S()))
      ensures old(status) in {Connecting, SettingCharacterSet} ==>
                ComesOut(old(trace), S(), old(Decided(status, charset, Head(S()), Second(S()))))
      ensures Stepped(Timeout) && (old(Fresh(S())) ==> Fresh(S()))
    {
      ghost var h, s := history, S();
      DispatchTimeout();
      history := h + [Timeout];
      StepTaken(h, s, Timeout);
      if Fresh(s) {
        StepFresh(s, Timeout);
      }
      if s.status in {Connecting, SettingCharacterSet} {
        ConnectOutcome(s, Timeout);
      }
    }

    method TimerFires()
      requires timers > 0
      modifies this
      ensures S() == old(S()).(timers := old(timers) - 1)
    {
      timers := timers - 1;
    }

    method DispatchTimeout()
      requires timers > 0
      modifies this
      ensures S() == MySQLState.HandleTimeout(old(S()))
    {
      TimerFires();
      if status == Connecting {
        ContinueConnect();
      } else if status == SettingCharacterSet {
        ContinueSetCharacterSet();
      }
    }

    /** A command of the user, on an open connection or one that has been closed since; after an abort
        there is no process, so nothing more is said of it. */
    method ExecSqlInLoop(text: string, params: seq<Param>) returns (aborted: bool)
      requires Valid() && Ok in path && !working && text != ""
      modifies this
      ensures aborted <==> Substitute(text, params) == None
      ensures !aborted ==> S() == MySQLState.ExecSql(old(S())) && Stepped(Command) && Fresh(S())
    {
      ghost var h, s := history, S();
      aborted := Execute(text, params);
      if !aborted {
        history := h + [Command];
        StepTaken(h, s, Command);
        StepFresh(s, Command);
      }
    }

    /** A function the connector queued in the loop; unless it was overtaken, the interest is right
        afterwards exactly when the command has ended or it happens to suit the new wait. */
    method RunContinuation()
      requires Valid() && queue != []
      modifies this
      ensures S() == MySQLState.RunContinuation(old(S()))
      ensures Stepped(MySQLState.Continue)
      ensures !old(overtaken) ==>
                (Fresh(S()) <==> status == Bad || !working || accepted > old(accepted) || Suits(old(S()), wait))
    {
      ghost var h, s := history, S();
      RunQueued();
      history := h + [MySQLState.Continue];
      StepTaken(h, s, MySQLState.Continue);
      if !s.overtaken {
        ContinuationInRuns(charset, start, h, s);
      }
    }

    method Dequeue() returns (next: Continuation)
      requires queue != []
      modifies this
      ensures next == old(queue[0]) && S() == old(S()).(queue := old(queue[1..]))
    {
      next := queue[0];
      queue := queue[1..];
    }

    method RunQueued()
      requires queue != []
      modifies this
      ensures S() == MySQLState.RunContinuation(old(S()))
    {
      var next := Dequeue();
      match next
      case ReportError => OutputError();
      case DeliverResult(results) => GetResult(results);
    }
  }
}
