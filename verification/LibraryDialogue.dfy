/** The connector between the client library and the user: what the library answers to each call, and
    what the user is told, in one sequence.  The protocol is an automaton over it: a call that has to
    wait is continued by a call of its own kind, a failure is reported, and nothing is reported that
    did not happen. */
module LibraryDialogue {
  import opened CommandTrace
  import opened Options

  /** The asynchronous calls, each with a start and a continuation, and `mysql_get_socket`. */
  datatype Call = ConnectCall | SocketCall | CharsetCall | QueryCall | StoreCall | NextCall

  /** `more` is how many further result sets a finished query has. */
  datatype Answer = Waits | Fails(errno: nat) | Completes(more: nat)

  datatype Step = Asked(call: Call, first: bool, answer: Answer) | Told(event: Event)

  /** What is due next; between commands that is the user's next command.  `Report(errno)` is a failed
      command, `Refused` a connection to
      be given up, `Excused` a command whose exception was delivered, `Parting` one that went down with the
      connection; `Over` is a connection that never came up. */
  datatype Point =
    | Offline | AskFor(call: Call) | AwaitFor(call: Call) | Stranded | Opening | Refused | Over
    | Resting | Report(errno: nat) | Deliver | Finish | Excused | Parting

  /** `waits` tells whether the first connect call has to wait, `remaining` counts the result sets
      behind the one the library is at, and `closed` that the user was told of a close.  `stale` tells
      that the last store had to wait: then the connector goes on continuing it between commands. */
  datatype Session = Session(point: Point, waits: bool, remaining: nat, closed: bool, stale: bool)

  const BEGINNING := Session(Offline, false, 0, false, false)

  /** CR_SERVER_GONE_ERROR and CR_SERVER_LOST. */
  predicate Gone(errno: nat) {
    errno == 2006 || errno == 2013
  }

  predicate OfCommand(call: Call) {
    call in {QueryCall, StoreCall, NextCall}
  }

  /** The library has answered the call that was due. */
  function Answered(charset: bool, m: Session, call: Call, first: bool, answer: Answer): Session {
    match answer
    case Waits => if call == SocketCall then m.(point := Refused) else m.(point := AwaitFor(call), stale := false)
    case Fails(errno) => m.(point := if OfCommand(call) then Report(errno) else Refused, stale := false)
    case Completes(more) =>
      match call
      case ConnectCall => m.(point := if charset then AskFor(CharsetCall) else Opening)
      case SocketCall => m.(point := if m.waits then AwaitFor(ConnectCall) else Stranded)
      case CharsetCall => m.(point := Opening)
      case QueryCall => m.(point := AskFor(StoreCall), remaining := more, stale := false)
      case StoreCall => m.(point := Deliver, stale := !first)
      case NextCall => m.(point := AskFor(StoreCall), remaining := if m.remaining == 0 then 0 else m.remaining - 1, stale := false)
  }

  /** A store was continued that nobody asked for: only the loss of the connection matters. */
  function Disturbed(m: Session, answer: Answer): Session {
    if answer.Fails? then m.(stale := false, point := if Gone(answer.errno) && !m.closed then Parting else Resting) else m
  }

  function After(charset: bool, m: Session, x: Step): Option<Session> {
    match x
    case Asked(call, first, answer) =>
      if m.point == Offline then
        if call != ConnectCall || !first then None
        else if answer.Fails? then Some(m.(point := Refused))
        else Some(m.(point := AskFor(SocketCall), waits := answer.Waits?))
      else if m.point == (if first then AskFor(call) else AwaitFor(call)) then Some(Answered(charset, m, call, first, answer))
      else if m.point == Resting && m.stale && !m.closed && call == StoreCall && !first then Some(Disturbed(m, answer))
      else None
    case Told(event) =>
      match event
      case Opened => if m.point == Opening then Some(m.(point := Resting)) else None
      case Accepted(_) => if m.point == Resting then Some(m.(point := AskFor(QueryCall))) else None
      case Delivered(_) =>
        if m.point == Deliver then Some(m.(point := if m.remaining == 0 then Finish else AskFor(NextCall))) else None
      case Failed(lost) =>
        if m.point.Report? && (lost <==> Gone(m.point.errno))
        then Some(m.(point := if !lost then Excused else if m.closed then Resting else Parting)) else None
      case Idle => if m.point in {Finish, Excused} then Some(m.(point := Resting)) else None
      case Closed =>
        if m.point == Refused then Some(m.(point := Over, closed := true))
        else if m.point in {Resting, Parting} && !m.closed then Some(m.(point := Resting, closed := true))
        else None
  }

  /** Where the dialogue stands; None when it breaks the protocol. */
  function SessionOf(charset: bool, steps: seq<Step>): Option<Session> {
    if steps == [] then Some(BEGINNING) else
    match SessionOf(charset, steps[..|steps| - 1])
    case None => None
    case Some(m) => After(charset, m, steps[|steps| - 1])
  }

  lemma SessionAppend(charset: bool, steps: seq<Step>, x: Step)
    ensures SessionOf(charset, steps + [x]) == match SessionOf(charset, steps) case None => None case Some(m) => After(charset, m, x)
  {
    assert (steps + [x])[..|steps|] == steps;
  }

  lemma {:induction false} PrefixFollows(charset: bool, steps: seq<Step>, k: nat)
    requires SessionOf(charset, steps).Some? && k <= |steps|
    ensures SessionOf(charset, steps[..k]).Some?
  {
    if k < |steps| {
      PrefixFollows(charset, steps[..|steps| - 1], k);
      assert steps[..|steps| - 1][..k] == steps[..k];
    } else {
      assert steps[..k] == steps;
    }
  }

  lemma SessionStep(charset: bool, steps: seq<Step>, k: nat)
    requires SessionOf(charset, steps).Some? && k < |steps|
    ensures SessionOf(charset, steps[..k]).Some?
    ensures SessionOf(charset, steps[..k + 1]) == After(charset, SessionOf(charset, steps[..k]).value, steps[k])
    ensures SessionOf(charset, steps[..k + 1]).Some?
  {
    PrefixFollows(charset, steps, k);
    PrefixFollows(charset, steps, k + 1);
    assert steps[..k + 1][..k] == steps[..k];
  }

  /** The trace of callbacks inside the dialogue. */
  function Callbacks(steps: seq<Step>): seq<Event> {
    if steps == [] then [] else
    var last := steps[|steps| - 1];
    Callbacks(steps[..|steps| - 1]) + if last.Told? then [last.event] else []
  }

  lemma CallbacksAppend(steps: seq<Step>, x: Step)
    ensures Callbacks(steps + [x]) == Callbacks(steps) + if x.Told? then [x.event] else []
  {
    assert (steps + [x])[..|steps|] == steps;
  }

  // ------------------------------------------------------------------ what follows what

  /** The connector may be idle behind `x`: a command has ended, or a stale store was continued. */
  predicate Idles(x: Step) {
    x == Told(Idle) || (x.Asked? && x.call == StoreCall && !x.first)
  }

  /** `x` may come directly before `y`. */
  predicate Leads(charset: bool, x: Step, y: Step) {
    match y
    case Asked(call, first, _) =>
      if !first then
        || (x.Asked? && x.call == call && x.answer == Waits)
        || (call == ConnectCall && x.Asked? && x.call == SocketCall)
        || (call == StoreCall && Idles(x))
      else (match call
            case ConnectCall => false
            case SocketCall => x.Asked? && x.call == ConnectCall && x.first && !x.answer.Fails?
            case CharsetCall => charset && x.Asked? && x.call == ConnectCall && !x.first && x.answer.Completes?
            case QueryCall => x.Told? && x.event.Accepted?
            case StoreCall => x.Asked? && x.call in {QueryCall, NextCall} && x.answer.Completes?
            case NextCall => x.Told? && x.event.Delivered?)
    case Told(event) =>
      match event
      case Opened => x.Asked? && x.answer.Completes? && x.call == (if charset then CharsetCall else ConnectCall)
      case Accepted(_) => Idles(x) || (x.Told? && (x.event in {Opened, Closed} || x.event == Failed(true)))
      case Delivered(_) => x.Asked? && x.call == StoreCall && x.answer.Completes?
      case Failed(lost) => x.Asked? && OfCommand(x.call) && x.answer.Fails? && (lost <==> Gone(x.answer.errno))
      case Idle => x.Told? && (x.event.Delivered? || x.event == Failed(false))
      case Closed =>
        || (x.Asked? && !OfCommand(x.call) && !x.answer.Completes? && (x.answer == Waits ==> x.call == SocketCall))
        || (x.Told? && (x.event == Opened || x.event == Failed(true)))
        || Idles(x)
  }

  /** After step `x` only sessions that it leads to are possible. */
  predicate Behind(charset: bool, x: Step, m: Session) {
    match m.point
    case Offline => false
    case AskFor(call) =>
      (match call
       case ConnectCall => false
       case SocketCall => x.Asked? && x.call == ConnectCall && x.first && !x.answer.Fails?
       case CharsetCall => charset && x.Asked? && x.call == ConnectCall && !x.first && x.answer.Completes?
       case QueryCall => x.Told? && x.event.Accepted?
       case StoreCall => x.Asked? && x.call in {QueryCall, NextCall} && x.answer.Completes?
       case NextCall => x.Told? && x.event.Delivered?)
    case AwaitFor(call) => x.Asked? && ((x.call == call && x.answer == Waits) || (call == ConnectCall && x.call == SocketCall))
    case Stranded => x.Asked? && x.call == SocketCall
    case Opening => x.Asked? && x.answer.Completes? && x.call == (if charset then CharsetCall else ConnectCall)
    case Refused => x.Asked? && !OfCommand(x.call) && !x.answer.Completes? && (x.answer == Waits ==> x.call == SocketCall)
    case Over => x == Told(Closed)
    case Resting => Idles(x) || (x == Told(Opened) && !m.stale) || (m.closed && (x == Told(Closed) || x == Told(Failed(true))))
    case Report(errno) => x.Asked? && OfCommand(x.call) && x.answer == Fails(errno)
    case Deliver => x.Asked? && x.call == StoreCall && x.answer.Completes?
    case Finish => x.Told? && x.event.Delivered?
    case Excused => x == Told(Failed(false))
    case Parting => x == Told(Failed(true)) || Idles(x)
  }

  /** Only with a character set is one set, and a store is stale only behind its result, up to the
      next query. */
  predicate Sound(charset: bool, m: Session) {
    && (m.point == AskFor(CharsetCall) || m.point == AwaitFor(CharsetCall) ==> charset) && m.point != AskFor(ConnectCall)
    && (m.stale ==> m.point in {Deliver, Finish, AskFor(NextCall), Resting, AskFor(QueryCall)})
  }

  lemma AnsweredBehind(charset: bool, m: Session, call: Call, first: bool, answer: Answer)
    requires Sound(charset, m) && m.point == (if first then AskFor(call) else AwaitFor(call))
    ensures var m' := Answered(charset, m, call, first, answer);
            Behind(charset, Asked(call, first, answer), m') && Sound(charset, m')
  {
    match answer
    case Waits =>
    case Fails(_) =>
    case Completes(_) =>
      match call
      case ConnectCall =>
      case SocketCall =>
      case CharsetCall =>
      case QueryCall =>
      case StoreCall =>
      case NextCall =>
  }

  lemma ToldBehind(charset: bool, m: Session, event: Event)
    requires Sound(charset, m) && After(charset, m, Told(event)).Some?
    ensures var m' := After(charset, m, Told(event)).value;
            Behind(charset, Told(event), m') && Sound(charset, m')
  {
  }

  lemma AfterBehind(charset: bool, m: Session, x: Step)
    requires After(charset, m, x).Some? && Sound(charset, m)
    ensures var m' := After(charset, m, x).value; Behind(charset, x, m') && Sound(charset, m')
  {
    match x
    case Told(event) => ToldBehind(charset, m, event);
    case Asked(call, first, answer) =>
      if m.point == (if first then AskFor(call) else AwaitFor(call)) {
        AnsweredBehind(charset, m, call, first, answer);
      }
  }

  lemma {:induction false} PointAfter(charset: bool, steps: seq<Step>)
    requires SessionOf(charset, steps).Some?
    ensures var m := SessionOf(charset, steps).value;
            && (steps != [] ==> Behind(charset, steps[|steps| - 1], m))
            && Sound(charset, m) && (m.point == Offline ==> steps == [])
  {
    if steps != [] {
      PointAfter(charset, steps[..|steps| - 1]);
      AfterBehind(charset, SessionOf(charset, steps[..|steps| - 1]).value, steps[|steps| - 1]);
    }
  }

  lemma AskedLeads(charset: bool, m: Session, x: Step, call: Call, first: bool, answer: Answer)
    requires m.point != Offline && Sound(charset, m) && Behind(charset, x, m)
    requires After(charset, m, Asked(call, first, answer)).Some?
    ensures Leads(charset, x, Asked(call, first, answer))
  {
    if m.point == (if first then AskFor(call) else AwaitFor(call)) {
      match call
      case ConnectCall =>
      case SocketCall =>
      case CharsetCall =>
      case QueryCall =>
      case StoreCall =>
      case NextCall =>
    }
  }

  lemma ToldLeads(charset: bool, m: Session, x: Step, event: Event)
    requires Behind(charset, x, m) && After(charset, m, Told(event)).Some?
    ensures Leads(charset, x, Told(event))
  {
    match event
    case Opened =>
    case Accepted(_) =>
    case Delivered(_) =>
    case Failed(_) =>
    case Idle =>
    case Closed =>
  }

  /** In every dialogue that follows the protocol each step is earned by the one directly before it:
      a continuation by a call of its kind that had to wait, an opening by the completion of the last
      connection call, a result by the completion of its store, an exception by the failure of a call
      of its command, and lost exactly for the two error numbers of a lost connection. */
  lemma EachStepIsEarned(charset: bool, steps: seq<Step>, k: nat)
    requires SessionOf(charset, steps).Some? && k + 1 < |steps|
    ensures Leads(charset, steps[k], steps[k + 1])
  {
    SessionStep(charset, steps, k);
    SessionStep(charset, steps, k + 1);
    PointAfter(charset, steps[..k + 1]);
    match steps[k + 1]
    case Asked(call, first, answer) => AskedLeads(charset, SessionOf(charset, steps[..k + 1]).value, steps[k], call, first, answer);
    case Told(event) => ToldLeads(charset, SessionOf(charset, steps[..k + 1]).value, steps[k], event);
  }

  /** What may come directly behind the answer to a call that was due. */
  predicate Heeds(call: Call, first: bool, answer: Answer, y: Step) {
    match answer
    case Waits => y.Asked? && if call == ConnectCall && first then y.call == SocketCall else !y.first && y.call == call
    case Fails(errno) => y == Told(if OfCommand(call) then Failed(Gone(errno)) else Closed)
    case Completes(_) => call == StoreCall ==> y.Told? && y.event.Delivered?
  }

  lemma AnswerCounts(charset: bool, m: Session, call: Call, first: bool, answer: Answer, m': Session, y: Step)
    requires After(charset, m, Asked(call, first, answer)) == Some(m') && m.point != Resting && call != SocketCall
    requires Sound(charset, m)
    requires After(charset, m', y).Some?
    ensures Heeds(call, first, answer, y)
  {
    if m.point == Offline {
      assert m'.point in {Refused, AskFor(SocketCall)};
    } else {
      assert m' == Answered(charset, m, call, first, answer);
      match answer
      case Waits => assert m'.point == AwaitFor(call);
      case Fails(errno) => assert m'.point == if OfCommand(call) then Report(errno) else Refused;
      case Completes(_) => assert call == StoreCall ==> m'.point == Deliver;
    }
  }

  /** And every answer has its consequence: a call that waits is continued and nothing else, a failed
      one is reported as the exception of its command, or as the close of a connection that never
      came up.  Between commands the one call made is the continuation of a stale store. */
  lemma EachAnswerCounts(charset: bool, steps: seq<Step>, k: nat)
    requires SessionOf(charset, steps).Some? && k + 1 < |steps| && steps[k].Asked? && steps[k].call != SocketCall
    requires SessionOf(charset, steps[..k]) != None && SessionOf(charset, steps[..k]).value.point != Resting
    ensures Heeds(steps[k].call, steps[k].first, steps[k].answer, steps[k + 1])
  {
    SessionStep(charset, steps, k);
    SessionStep(charset, steps, k + 1);
    PointAfter(charset, steps[..k]);
    var m, m' := SessionOf(charset, steps[..k]).value, SessionOf(charset, steps[..k + 1]).value;
    AnswerCounts(charset, m, steps[k].call, steps[k].first, steps[k].answer, m', steps[k + 1]);
  }
}
