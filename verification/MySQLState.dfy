/** The connection and command state machine of MySQLImpl/MySQLConnector.cpp as functions on values.

    The client library is an adversary: a script holds what it will answer, call by call, and for
    every script the functions say what the connector does.  `ABSL_LOG(FATAL)` is taken to log and
    return, as the code behind it expects.  A user starts commands once `okCallback_` has been
    called and while no command is running, from outside or inside the callbacks, and even after the
    connection was closed: nothing in the connector refuses that. */
module MySQLState {
  import opened CommandTrace
  import opened LibraryDialogue
  import opened Options

  datatype Status = Unconnected | Connecting | SettingCharacterSet | Ok | Bad

  datatype ExecStatus = Nothing | RealQuery | StoreResult | NextResult

  /** The MYSQL_WAIT_* bits of `waitStatus_`. */
  datatype Wait = Wait(read: bool, write: bool, except: bool, timeout: bool)

  const NO_WAIT := Wait(false, false, false, false)

  const CR_SERVER_GONE_ERROR: nat := 2006
  const CR_SERVER_LOST: nat := 2013

  /** One answer of the environment: what a library call returns (`ret` tells a non-null result,
      `sets` how many further result sets a finished query has), or `yes` for a choice. */
  datatype Reply = Reply(wait: Wait, err: bool, ret: bool, errno: nat, sets: nat, yes: bool)

  /** Once the script is used up, every call would block. */
  const DEFAULT := Reply(Wait(true, false, false, false), false, false, 0, 0, false)

  /** `query` is the command whose query was sent last, `index` the result set the library is at,
      with `remaining` more of the `total` it announced. */
  datatype Library = Library(script: seq<Reply>, errno: nat, remaining: nat, total: nat, query: nat, index: nat)

  /** Functions the connector has queued in the loop. */
  datatype Continuation = ReportError | DeliverResult(results: ResultSet)

  /** `path` is every value `status_` has had.  `overtaken` records that an event was handled while
      a continuation was still queued, `crossed` that this closed the connection, or that a command was
      accepted while a continuation was still queued.  `steps` is the trace with the library's answers
      in between. */
  datatype State = State(
    status: Status, exec: ExecStatus, wait: Wait, working: bool,
    charset: bool, dispatcher: bool, reading: bool, writing: bool, timers: nat,
    queue: seq<Continuation>, lib: Library,
    accepted: nat, path: seq<Status>, trace: seq<Event>, overtaken: bool, crossed: bool,
    steps: seq<Step>)

  function Initial(charset: bool, script: seq<Reply>): State {
    State(Unconnected, Nothing, NO_WAIT, false, charset, false, false, false, 0, [],
          Library(script, 0, 0, 0, 0, 0), 0, [Unconnected], [], false, false, [])
  }

  // ------------------------------------------------------------------ the environment

  function Head(s: State): Reply {
    if s.lib.script == [] then DEFAULT else s.lib.script[0]
  }

  /** A choice has been made. */
  function Chosen(s: State): State {
    s.(lib := s.lib.(script := if s.lib.script == [] then [] else s.lib.script[1..]))
  }

  /** What a reply means for the call it answers. */
  function AnswerOf(call: Call, first: bool, r: Reply): Answer {
    if r.wait != NO_WAIT then Waits else
    match call
    case ConnectCall => if (first || !r.ret) && r.errno != 0 then Fails(r.errno) else Completes(0)
    case SocketCall => if r.yes then Completes(0) else Fails(0)
    case CharsetCall => if r.err then Fails(r.errno) else Completes(0)
    case QueryCall => if r.err then Fails(r.errno) else Completes(r.sets)
    case StoreCall => if !r.ret && r.errno != 0 then Fails(r.errno) else Completes(0)
    case NextCall => if r.err then Fails(r.errno) else Completes(0)
  }

  /** A library call has returned: `first` tells a `_start` from a `_cont`. */
  function Called(s: State, call: Call, first: bool): State {
    s.(wait := Head(s).wait, lib := Chosen(s).lib.(errno := Head(s).errno),
       steps := s.steps + [Asked(call, first, AnswerOf(call, first, Head(s)))])
  }

  /** `mysql_get_socket` has returned; it answers by a choice. */
  function Socketed(s: State): State {
    Chosen(s).(steps := s.steps + [Asked(SocketCall, true, if Head(s).yes then Completes(0) else Fails(0))])
  }

  /** The query of the command just accepted has been sent. */
  function Sent(s: State): State {
    s.(lib := s.lib.(query := if s.accepted == 0 then 0 else s.accepted - 1, index := 0))
  }

  /** A query has been executed completely, with its result sets still to be fetched. */
  function Executed(s: State, sets: nat): State {
    s.(lib := s.lib.(remaining := sets, total := sets + 1, index := 0))
  }

  /** The library has moved on to the next result set. */
  function Advanced(s: State): State {
    s.(lib := s.lib.(remaining := Less(s.lib.remaining), index := s.lib.index + 1))
  }

  function Less(n: nat): nat {
    if n == 0 then 0 else n - 1
  }

  function Log(s: State, e: Event): State {
    s.(trace := s.trace + [e], steps := s.steps + [Told(e)])
  }

  function Enter(s: State, status: Status): State {
    s.(status := status, path := s.path + [status])
  }

  predicate Lost(errno: nat) {
    errno == CR_SERVER_GONE_ERROR || errno == CR_SERVER_LOST
  }

  // ------------------------------------------------------------------ the connector

  function SetEventDispatcher(s: State): (r: State)
    ensures r.overtaken == s.overtaken && r.crossed == s.crossed && r.accepted == s.accepted
  {
    s.(reading := s.reading || s.wait.read || s.wait.except,
       writing := s.wait.write,
       timers := s.timers + if s.wait.timeout then 1 else 0)
  }

  function Closing(s: State): State {
    Log(Enter(s, Bad).(reading := false, writing := false), Closed)
  }

  function HandleClosed(s: State): (r: State)
    ensures r.dispatcher == s.dispatcher && r.overtaken == s.overtaken && r.accepted >= s.accepted
    ensures r.accepted == s.accepted ==> r.crossed == s.crossed
    ensures r.status == Bad && (s.status == Bad || s.working ==> r.accepted == s.accepted)
    ensures !s.working ==> !r.working || r.accepted > s.accepted
    decreases 0, 0, 8
  {
    if s.status == Bad then s else UserTurn(Closing(s))
  }

  /** The user's part of `idleCb_`, `okCallback_` and `closeCallback_`. */
  function UserTurn(s: State): (r: State)
    ensures r.dispatcher == s.dispatcher && r.overtaken == s.overtaken && r.accepted >= s.accepted
    ensures r.accepted == s.accepted ==> r.crossed == s.crossed
    ensures r.status == s.status || (r.status == Bad && (!r.working || r.accepted > s.accepted))
    ensures !s.working ==> !r.working || r.accepted > s.accepted
    decreases 0, 0, 7
  {
    var t := Chosen(s);
    if Head(s).yes && MayStart(s) then ExecSql(t) else t
  }

  predicate MayStart(s: State) {
    Ok in s.path && !s.working
  }

  /** A command is taken on. */
  function Accept(s: State): State {
    Log(s.(working := true, accepted := s.accepted + 1, crossed := s.crossed || s.queue != []), Accepted(s.accepted))
  }

  function ExecSql(s: State): (r: State)
    ensures r.dispatcher == s.dispatcher && r.overtaken == s.overtaken && r.accepted >= s.accepted
    ensures r.accepted == s.accepted ==> r.crossed == s.crossed
    ensures r.status == s.status || (r.status == Bad && (!r.working || r.accepted > s.accepted))
    ensures r.accepted == s.accepted + 1
    decreases 0, 0, 6
  {
    SetEventDispatcher(StartQuery(Accept(s)))
  }

  /** The first call of a query has returned. */
  function QuerySent(s: State): (r: State)
    ensures r.dispatcher == s.dispatcher && r.overtaken == s.overtaken && r.crossed == s.crossed
    ensures r.accepted == s.accepted && r.status == s.status && r.path == s.path && r.trace == s.trace
  {
    Sent(Called(s, QueryCall, true).(exec := RealQuery))
  }

  function StartQuery(s: State): (r: State)
    ensures r.dispatcher == s.dispatcher && r.overtaken == s.overtaken && r.accepted >= s.accepted
    ensures r.accepted == s.accepted ==> r.crossed == s.crossed
    ensures r.status == s.status || (r.status == Bad && (!r.working || r.accepted > s.accepted))
    ensures r.accepted == s.accepted
    ensures r.status == s.status && r.path == s.path && r.trace == s.trace
    decreases 0, 0, 5, 1
  {
    var u := QuerySent(s);
    if u.wait != NO_WAIT then u else QueryDone(u, Head(s).err, Head(s).sets)
  }

  /** `mysql_real_query_start` has completed at once. */
  function QueryDone(s: State, err: bool, sets: nat): (r: State)
    ensures r.dispatcher == s.dispatcher && r.overtaken == s.overtaken && r.accepted >= s.accepted
    ensures r.accepted == s.accepted ==> r.crossed == s.crossed
    ensures r.status == s.status || (r.status == Bad && (!r.working || r.accepted > s.accepted))
    ensures r.accepted == s.accepted
    ensures r.status == s.status && r.path == s.path && r.trace == s.trace
    decreases 0, 0, 5, 0
  {
    if err then s.(queue := s.queue + [ReportError]) else StartStoreResult(Executed(s, sets), true)
  }

  function StartStoreResult(s: State, queueInLoop: bool): (r: State)
    ensures r.dispatcher == s.dispatcher && r.overtaken == s.overtaken && r.accepted >= s.accepted
    ensures r.accepted == s.accepted ==> r.crossed == s.crossed
    ensures r.status == s.status || (r.status == Bad && (!r.working || r.accepted > s.accepted))
    ensures queueInLoop ==> r.accepted == s.accepted
    ensures queueInLoop ==> r.status == s.status && r.path == s.path && r.trace == s.trace
    decreases if queueInLoop then 0 else 1, if queueInLoop then 0 else s.lib.remaining, 4
  {
    var t := Called(s, StoreCall, true).(exec := StoreResult);
    if t.wait != NO_WAIT then t else Stored(t.(exec := Nothing), queueInLoop, Head(s).ret)
  }

  /** `mysql_store_result_start` has completed at once. */
  function Stored(s: State, queueInLoop: bool, ret: bool): (r: State)
    ensures r.dispatcher == s.dispatcher && r.overtaken == s.overtaken && r.accepted >= s.accepted
    ensures r.accepted == s.accepted ==> r.crossed == s.crossed
    ensures r.status == s.status || (r.status == Bad && (!r.working || r.accepted > s.accepted))
    ensures queueInLoop ==> r.accepted == s.accepted
    ensures queueInLoop ==> r.status == s.status && r.path == s.path && r.trace == s.trace
    decreases if queueInLoop then 0 else 1, if queueInLoop then 0 else s.lib.remaining, 3
  {
    var results := ResultSet(s.lib.query, s.lib.index, s.lib.total);
    if !ret && s.lib.errno != 0
    then if queueInLoop then s.(queue := s.queue + [ReportError]) else OutputError(s)
    else if queueInLoop then s.(queue := s.queue + [DeliverResult(results)]) else GetResult(s, results)
  }

  function GetResult(s: State, results: ResultSet): (r: State)
    ensures r.dispatcher == s.dispatcher && r.overtaken == s.overtaken && r.accepted >= s.accepted
    ensures r.accepted == s.accepted ==> r.crossed == s.crossed
    ensures r.status == s.status || (r.status == Bad && (!r.working || r.accepted > s.accepted))
    decreases 1, s.lib.remaining, 2
  {
    if !s.working then s else
    var t := Log(s, Delivered(results));
    if t.lib.remaining == 0 then UserTurn(Log(t.(working := false), Idle)) else MoreResults(t)
  }

  /** `mysql_next_result_start` behind a result that is not the last. */
  function MoreResults(s: State): (r: State)
    requires s.lib.remaining > 0
    ensures r.dispatcher == s.dispatcher && r.overtaken == s.overtaken && r.accepted >= s.accepted
    ensures r.accepted == s.accepted ==> r.crossed == s.crossed
    ensures r.status == s.status || (r.status == Bad && (!r.working || r.accepted > s.accepted))
    decreases 1, s.lib.remaining, 1
  {
    var u := Called(s, NextCall, true).(exec := NextResult);
    if u.wait != NO_WAIT then u else NextReady(u, Head(s).err)
  }

  /** `mysql_next_result_start` has completed at once. */
  function NextReady(s: State, err: bool): (r: State)
    requires s.lib.remaining > 0
    ensures r.dispatcher == s.dispatcher && r.overtaken == s.overtaken && r.accepted >= s.accepted
    ensures r.accepted == s.accepted ==> r.crossed == s.crossed
    ensures r.status == s.status || (r.status == Bad && (!r.working || r.accepted > s.accepted))
    decreases 1, s.lib.remaining, 0
  {
    if err then OutputError(s.(exec := Nothing)) else StartStoreResult(Advanced(s), false)
  }

  function OutputError(s: State): (r: State)
    ensures r.dispatcher == s.dispatcher && r.overtaken == s.overtaken && r.accepted >= s.accepted
    ensures r.accepted == s.accepted ==> r.crossed == s.crossed
    ensures r.status == s.status || (r.status == Bad && (!r.working || r.accepted > s.accepted))
    decreases 0, 0, 9
  {
    var t := s.(reading := false, writing := false);
    var lost := Lost(s.lib.errno);
    var u :=
      if !s.working then t else
      var v := Log(t, Failed(lost)).(working := false);
      if lost then v else UserTurn(Log(v, Idle));
    if lost then HandleClosed(u) else u
  }

  /** A library call behind an event has failed. */
  function GiveUp(s: State): (r: State)
    ensures r.overtaken == s.overtaken && (r.accepted == s.accepted ==> r.crossed == s.crossed)
    ensures r.status == s.status || (r.status == Bad && (!r.working || r.accepted > s.accepted))
  {
    OutputError(s.(exec := Nothing))
  }

  /** The next result set is fetched behind an event. */
  function Fetch(s: State): (r: State)
    ensures r.overtaken == s.overtaken && (r.accepted == s.accepted ==> r.crossed == s.crossed)
    ensures r.status == s.status || (r.status == Bad && (!r.working || r.accepted > s.accepted))
  {
    SetEventDispatcher(StartStoreResult(s, false))
  }

  function ContinueQuery(s: State): (r: State)
    ensures r.overtaken == s.overtaken && (r.accepted == s.accepted ==> r.crossed == s.crossed)
    ensures r.status == s.status || (r.status == Bad && (!r.working || r.accepted > s.accepted))
  {
    var t := Called(s, QueryCall, false);
    if t.wait != NO_WAIT then SetEventDispatcher(t)
    else if Head(s).err then GiveUp(t)
    else Fetch(Executed(t, Head(s).sets))
  }

  function ContinueStore(s: State): (r: State)
    ensures r.overtaken == s.overtaken && (r.accepted == s.accepted ==> r.crossed == s.crossed)
    ensures r.status == s.status || (r.status == Bad && (!r.working || r.accepted > s.accepted))
  {
    var t := Called(s, StoreCall, false);
    if t.wait != NO_WAIT then SetEventDispatcher(t)
    else if !Head(s).ret && t.lib.errno != 0 then GiveUp(t)
    else SetEventDispatcher(GetResult(t, ResultSet(t.lib.query, t.lib.index, t.lib.total)))
  }

  function ContinueNext(s: State): (r: State)
    ensures r.overtaken == s.overtaken && (r.accepted == s.accepted ==> r.crossed == s.crossed)
    ensures r.status == s.status || (r.status == Bad && (!r.working || r.accepted > s.accepted))
  {
    var t := Called(s, NextCall, false);
    if t.wait != NO_WAIT then SetEventDispatcher(t)
    else if Head(s).err then GiveUp(t)
    else Fetch(Advanced(t))
  }

  function HandleCmd(s: State): (r: State)
    ensures r.overtaken == s.overtaken && (r.accepted == s.accepted ==> r.crossed == s.crossed)
  {
    match s.exec
    case RealQuery => ContinueQuery(s)
    case StoreResult => ContinueStore(s)
    case NextResult => ContinueNext(s)
    case Nothing => if s.wait == NO_WAIT then HandleClosed(s) else s
  }

  /** `status_ = Ok` and the callback of it. */
  function BecomeOk(s: State): (r: State)
    ensures r.overtaken == s.overtaken
  {
    UserTurn(Log(Enter(s, Ok), Opened))
  }

  function StartSetCharacterSet(s: State): (r: State)
    ensures r.overtaken == s.overtaken
  {
    var t := Called(s, CharsetCall, true);
    if t.wait != NO_WAIT then SetEventDispatcher(Enter(t, SettingCharacterSet))
    else if Head(s).err then HandleClosed(t)
    else SetEventDispatcher(BecomeOk(t))
  }

  function ContinueSetCharacterSet(s: State): (r: State)
    ensures r.overtaken == s.overtaken
  {
    var t := Called(s, CharsetCall, false);
    if t.wait != NO_WAIT then SetEventDispatcher(t)
    else if Head(s).err then HandleClosed(t)
    else SetEventDispatcher(BecomeOk(t))
  }

  /** The Connecting branch, the same in `handleEvent` and `handleTimeout`. */
  function ContinueConnect(s: State): (r: State)
    ensures r.overtaken == s.overtaken
  {
    var t := Called(s, ConnectCall, false);
    if t.wait != NO_WAIT then SetEventDispatcher(t)
    else if !Head(s).ret && t.lib.errno != 0 then HandleClosed(t)
    else if s.charset then StartSetCharacterSet(t)
    else SetEventDispatcher(BecomeOk(t))
  }

  /** The event overtakes whatever continuation is queued. */
  function Overtake(s: State): State {
    s.(overtaken := s.overtaken || s.queue != [], crossed := s.crossed || (s.queue != [] && s.exec == Nothing))
  }

  function HandleEvent(s: State): (r: State)
    ensures s.overtaken ==> r.overtaken
  {
    match s.status
    case Connecting => ContinueConnect(s)
    case Ok => HandleCmd(Overtake(s))
    case SettingCharacterSet => ContinueSetCharacterSet(s)
    case _ => s
  }

  function HandleTimeout(s: State): (r: State)
    requires s.timers > 0
    ensures r.overtaken == s.overtaken
  {
    var t := s.(timers := s.timers - 1);
    match s.status
    case Connecting => ContinueConnect(t)
    case SettingCharacterSet => ContinueSetCharacterSet(t)
    case _ => t
  }

  /** The rest of it, from `mysql_get_socket` on. */
  function TakeSocket(s: State): (r: State)
    ensures r.overtaken == s.overtaken
  {
    var t := Socketed(s);
    if !Head(s).yes then Log(t, Closed) else SetEventDispatcher(t.(dispatcher := true))
  }

  /** The function `init` queues. */
  function Init(s: State): (r: State)
    ensures r.overtaken == s.overtaken
  {
    var t := Called(Enter(s, Connecting), ConnectCall, true);
    if t.wait == NO_WAIT && t.lib.errno != 0 then Log(t, Closed) else TakeSocket(t)
  }

  function RunContinuation(s: State): (r: State)
    requires s.queue != []
    ensures r.overtaken == s.overtaken
  {
    var t := s.(queue := s.queue[1..]);
    match s.queue[0]
    case ReportError => OutputError(t)
    case DeliverResult(results) => GetResult(t, results)
  }

  // ------------------------------------------------------------------ runs

  datatype Action = Connect | Event | Timeout | Command | Continue

  /** The dispatcher calls `handleEvent` only while it has some interest. */
  predicate Enabled(s: State, a: Action) {
    match a
    case Connect => s.status == Unconnected
    case Event => s.dispatcher && (s.reading || s.writing)
    case Timeout => s.timers > 0
    case Command => MayStart(s)
    case Continue => s.queue != []
  }

  function Apply(s: State, a: Action): State
    requires Enabled(s, a)
  {
    match a
    case Connect => Init(s)
    case Event => HandleEvent(s)
    case Timeout => HandleTimeout(s)
    case Command => ExecSql(s)
    case Continue => RunContinuation(s)
  }

  function Exec(s: State, run: seq<Action>): Option<State> {
    if run == [] then Some(s) else
    match Exec(s, run[..|run| - 1])
    case None => None
    case Some(t) => if Enabled(t, run[|run| - 1]) then Some(Apply(t, run[|run| - 1])) else None
  }

  lemma Extend(s0: State, run: seq<Action>, s: State, a: Action, t: State)
    requires Exec(s0, run) == Some(s) && Enabled(s, a) && Apply(s, a) == t
    ensures Exec(s0, run + [a]) == Some(t)
  {
    assert (run + [a])[..|run|] == run;
  }
}
