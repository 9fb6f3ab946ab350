/** The three-promise handshake of event/EventLoopThread.cpp around one EventLoop.

    The owner constructs the object, may call `run()`, and destroys it; the thread it starts creates
    the loop, queues the function that fulfils `promiseForLoop_`, publishes the loop, waits for
    `promiseForRun_` and calls `loop()` once.  Every other thread, and user code on the loop thread,
    may queue functions and call `quit()` as soon as the loop is published. */
module EventLoopThread {
  import opened Options
  import L = EventLoop
  import Mpsc = MpscQueue

  /** The function that sets `promiseForLoop_`; user functions carry other numbers. */
  const PROMISE: L.Func := 0
  const OWNER: L.Tid := 1

  datatype ThreadPc = Starting | Created | AwaitingRun | InLoop | Leaving | Finished

  /** `InRun(destroying)` waits for `promiseForLoop_` inside `run()`, called directly or by the destructor. */
  datatype OwnerPc =
    | Constructing | Ready | InRun(destroying: bool) | Ran | Destroying | HasLoop | Quitting | Joining | Joined

  datatype State = State(
    loop: L.State, thread: ThreadPc, owner: OwnerPc,
    pointerSet: bool, runSet: bool, loopSet: bool, loopNull: bool)

  datatype Action =
    | Inner(a: L.Action)
    | FinishCreate | Publish | Begin | ClearPointer
    | GetPointer | CallRun(destroying: bool) | ReturnFromRun | Destruct | ReadLoop | QuitStore | QuitWrite | Join

  function Initial(dummy: Mpsc.Addr): State {
    State(L.Initial(dummy), Starting, Constructing, false, false, false, true)
  }

  /** Which steps of the event loop other threads and the loop thread may take at this point. */
  predicate InnerAllowed(s: State, a: L.Action) {
    match a
    case Exchange(t, _, f) =>
      if t == L.LOOP
      then if s.thread == Starting then f == PROMISE && s.loop.h.enqueued == [] else s.thread in {InLoop, Leaving} && f != PROMISE
      else t != OWNER && s.pointerSet && f != PROMISE
    case StoreQuit(t) => if t == L.LOOP then s.thread in {InLoop, Leaving} else t != OWNER && s.pointerSet
    case LinkNext(_) => true
    case FinishQueue(_) => true
    case FinishQuit(t) => t != OWNER
    case Enter => false
    case _ => s.thread == InLoop
  }

  predicate Enabled(s: State, a: Action) {
    match a
    case Inner(b) => InnerAllowed(s, b) && L.Enabled(s.loop, b)
    case FinishCreate => s.thread == Starting && s.loop.h.enqueued == [PROMISE] && L.PcOf(s.loop, L.LOOP) == L.Idle
    case Publish => s.thread == Created
    case Begin => s.thread == AwaitingRun && s.runSet && L.Enabled(s.loop, L.Enter)
    case ClearPointer => s.thread == Leaving && L.PcOf(s.loop, L.LOOP) == L.Idle
    case GetPointer => s.owner == Constructing && s.pointerSet
    case CallRun(_) => s.owner == Ready
    case ReturnFromRun => s.owner.InRun? && s.loopSet
    case Destruct => s.owner == Ran
    case ReadLoop => s.owner == Destroying
    case QuitStore => s.owner == HasLoop && L.Enabled(s.loop, L.StoreQuit(OWNER))
    case QuitWrite => s.owner == Quitting && L.Enabled(s.loop, L.FinishQuit(OWNER))
    case Join => s.owner == Joining && s.thread == Finished
  }

  function Apply(s: State, a: Action): State
    requires Enabled(s, a)
  {
    match a
    case Inner(b) =>
      s.(loop := L.Apply(s.loop, b),
         loopSet := s.loopSet || (b.FinishFunc? && s.loop.loc == L.Running(PROMISE)),
         thread := if b.TestQuit? && s.loop.quit then Leaving else s.thread)
    case FinishCreate => s.(thread := Created)
    case Publish => s.(thread := AwaitingRun, pointerSet := true)
    case Begin => s.(thread := InLoop, loop := L.Apply(s.loop, L.Enter))
    case ClearPointer => s.(thread := Finished, loopNull := true)
    case GetPointer => s.(owner := Ready, loopNull := false)
    case CallRun(destroying) => s.(owner := InRun(destroying), runSet := true)
    case ReturnFromRun => s.(owner := if s.owner.destroying then Destroying else Ran)
    case Destruct => s.(owner := Destroying)
    case ReadLoop => s.(owner := if s.loopNull then Joining else HasLoop)
    case QuitStore => s.(owner := Quitting, loop := L.Apply(s.loop, L.StoreQuit(OWNER)))
    case QuitWrite => s.(owner := Joining, loop := L.Apply(s.loop, L.FinishQuit(OWNER)))
    case Join => s.(owner := Joined)
  }

  function Exec(s: State, run: seq<Action>): Option<State> {
    if run == [] then Some(s) else
    match Exec(s, run[..|run| - 1])
    case None => None
    case Some(s') => if Enabled(s', run[|run| - 1]) then Some(Apply(s', run[|run| - 1])) else None
  }

  // ------------------------------------------------------------------ invariant

  /** Who has passed which promise. */
  predicate Promises(s: State) {
    && (s.pointerSet <==> s.thread !in {Starting, Created})
    && (s.owner != Constructing ==> s.pointerSet)
    && (s.runSet <==> s.owner !in {Constructing, Ready})
    && (s.thread in {InLoop, Leaving, Finished} ==> s.runSet)
    && (s.loopSet ==> s.thread in {InLoop, Leaving, Finished} && s.loop.loc != L.Entered)
    && (s.owner in {Ran, Destroying, HasLoop, Quitting, Joining, Joined} ==> s.loopSet)
    && (s.owner != Constructing ==> (s.loopNull <==> s.thread == Finished))
    && (s.loop.loc != L.Outside <==> s.thread == InLoop)
  }

  /** Before publication only the loop thread touches the loop. */
  ghost predicate Private(s: State) {
    s.thread == Starting ==>
      && (forall t :: t in s.loop.pcs && t != L.LOOP ==> s.loop.pcs[t] == L.Idle)
      && L.PcOf(s.loop, L.LOOP) != L.QuitStored
      && s.loop.h.dequeued == []
      && (s.loop.h.enqueued == [] || s.loop.h.enqueued == [PROMISE])
      && (s.loop.h.enqueued == [PROMISE] && L.PcOf(s.loop, L.LOOP) == L.Idle ==> s.loop.eventfd > 0)
  }

  /** The promise function heads the queue, fully linked, until it runs; and while it waits for a
      drain the eventfd is readable. */
  ghost predicate PromiseQueued(s: State) {
    s.thread != Starting ==>
      && 0 < |s.loop.h.enqueued| && s.loop.h.enqueued[0] == PROMISE
      && (forall i :: 0 < i < |s.loop.h.enqueued| ==> s.loop.h.enqueued[i] != PROMISE)
      && (s.loop.h.dequeued == [] ==> Mpsc.Load(s.loop.q).1 != None)
      && (s.loop.h.dequeued == [] && L.Resting(s.loop.loc) ==> s.loop.eventfd > 0)
      && (s.loop.h.dequeued != [] && !s.loopSet ==> s.loop.loc == L.Running(PROMISE))
  }

  /** The destructor's `quit()` is in force, and its wakeup is still there if the loop is polling. */
  predicate QuitDue(s: State) {
    && (s.owner == Quitting ==> s.loop.quit && L.PcOf(s.loop, OWNER) == L.QuitStored)
    && (s.owner !in {Quitting} ==> L.PcOf(s.loop, OWNER) == L.Idle)
    && (s.owner == Joining ==>
          s.thread == Finished || (s.loop.quit && (s.loop.loc == L.Polling ==> s.loop.eventfd > 0)))
    && (s.owner == Joined ==> s.thread == Finished)
  }

  ghost predicate Inv(s: State) {
    Promises(s) && Private(s) && PromiseQueued(s) && QuitDue(s)
  }

  // ------------------------------------------------------------------ projection to the event loop

  /** The event-loop step inside an action, if there is one. */
  function InnerOf(a: Action): seq<L.Action> {
    match a
    case Inner(b) => [b]
    case Begin => [L.Enter]
    case QuitStore => [L.StoreQuit(OWNER)]
    case QuitWrite => [L.FinishQuit(OWNER)]
    case _ => []
  }

  function InnersOf(run: seq<Action>): seq<L.Action> {
    if run == [] then [] else InnersOf(run[..|run| - 1]) + InnerOf(run[|run| - 1])
  }

  lemma Peel(s: State, run: seq<Action>, s': State) returns (s0: State, last: Action)
    requires Exec(s, run) == Some(s') && run != []
    ensures Exec(s, run[..|run| - 1]) == Some(s0) && last == run[|run| - 1]
    ensures Enabled(s0, last) && s' == Apply(s0, last)
  {
    s0, last := Exec(s, run[..|run| - 1]).value, run[|run| - 1];
  }

  /** Every run of the handshake is, seen from the loop, a run of the event loop. */
  lemma {:induction false} Projection(dummy: Mpsc.Addr, run: seq<Action>, s: State)
    requires Exec(Initial(dummy), run) == Some(s)
    ensures L.Exec(L.Initial(dummy), InnersOf(run)) == Some(s.loop)
    ensures L.Inv(s.loop)
  {
    if run == [] {
      L.Reachable(dummy, [], s.loop);
    } else {
      var s0, last := Peel(Initial(dummy), run, s);
      Projection(dummy, run[..|run| - 1], s0);
      if InnerOf(last) != [] {
        L.Extend(L.Initial(dummy), InnersOf(run[..|run| - 1]), s0.loop, InnerOf(last)[0]);
      } else {
        assert InnersOf(run) == InnersOf(run[..|run| - 1]);
      }
      L.Reachable(dummy, InnersOf(run), s.loop);
    }
  }

  // ------------------------------------------------------------------ preservation

  ghost predicate Facts(s: State, a: Action) {
    && Enabled(s, a)
    && L.LoopOk(s.loop)
    && (InnerOf(a) != [] ==> L.StepFact(s.loop, InnerOf(a)[0], Apply(s, a).loop))
    && (s.loop.pending == map[] && s.loop.h.dequeued != s.loop.h.enqueued ==> Mpsc.Load(s.loop.q).1 != None)
    && ((forall t :: t in s.loop.pcs ==> s.loop.pcs[t] == L.Idle) ==> s.loop.pending == map[])
  }

  lemma GetFacts(s: State, a: Action)
    requires L.Inv(s.loop) && Enabled(s, a)
    ensures Facts(s, a)
  {
    if InnerOf(a) != [] {
      L.StepFacts(s.loop, InnerOf(a)[0]);
    }
    Mpsc.LoadMeaning(s.loop.q, s.loop.h, s.loop.pending);
  }

  /** A step of `queueInLoop` or `quit` changes the loop, and of the handshake at most where the
      destructor stands in its own `quit()`. */
  lemma UserFrame(s: State, a: Action)
    requires Enabled(s, a) && InnerOf(a) != [] && !L.LoopEnabled(s.loop, InnerOf(a)[0])
    ensures var t, b := Apply(s, a), InnerOf(a)[0];
            && L.Enabled(s.loop, b) && t.loop == L.Apply(s.loop, b)
            && t.loop.loc == s.loop.loc && t.loop.h.dequeued == s.loop.h.dequeued
            && t == s.(loop := t.loop, owner := t.owner)
            && t.owner == (if a.QuitStore? then Quitting else if a.QuitWrite? then Joining else s.owner)
  {
  }

  lemma PromisesOwn(s: State, a: Action)
    requires Promises(s) && PromiseQueued(s) && QuitDue(s) && Facts(s, a)
    requires InnerOf(a) == []
    ensures Promises(Apply(s, a))
  {
  }

  lemma PromisesUser(s: State, a: Action)
    requires Promises(s) && PromiseQueued(s) && QuitDue(s) && Facts(s, a)
    requires InnerOf(a) != [] && !L.LoopEnabled(s.loop, InnerOf(a)[0])
    ensures Promises(Apply(s, a))
  {
    UserFrame(s, a);
  }

  lemma PromisesLoop(s: State, a: Action)
    requires Promises(s) && PromiseQueued(s) && QuitDue(s) && Facts(s, a)
    requires InnerOf(a) != [] && L.LoopEnabled(s.loop, InnerOf(a)[0])
    ensures Promises(Apply(s, a))
  {
  }

  lemma PrivateOwn(s: State, a: Action)
    requires Promises(s) && Private(s) && Facts(s, a)
    requires InnerOf(a) == []
    ensures Private(Apply(s, a))
  {
  }

  lemma PrivateUser(s: State, a: Action)
    requires Promises(s) && Private(s) && Facts(s, a)
    requires InnerOf(a) != [] && !L.LoopEnabled(s.loop, InnerOf(a)[0])
    ensures Private(Apply(s, a))
  {
    UserFrame(s, a);
  }

  lemma PrivateLoop(s: State, a: Action)
    requires Promises(s) && Private(s) && Facts(s, a)
    requires InnerOf(a) != [] && L.LoopEnabled(s.loop, InnerOf(a)[0])
    ensures Private(Apply(s, a))
  {
  }

  lemma PromiseQueuedOwn(s: State, a: Action)
    requires Promises(s) && Private(s) && PromiseQueued(s) && Facts(s, a)
    requires InnerOf(a) == []
    ensures PromiseQueued(Apply(s, a))
  {
  }

  lemma PromiseQueuedUser(s: State, a: Action)
    requires Promises(s) && Private(s) && PromiseQueued(s) && Facts(s, a)
    requires InnerOf(a) != [] && !L.LoopEnabled(s.loop, InnerOf(a)[0])
    ensures PromiseQueued(Apply(s, a))
  {
    UserFrame(s, a);
  }

  lemma PromiseQueuedLoop(s: State, a: Action)
    requires Promises(s) && Private(s) && PromiseQueued(s) && Facts(s, a)
    requires InnerOf(a) != [] && L.LoopEnabled(s.loop, InnerOf(a)[0])
    ensures PromiseQueued(Apply(s, a))
  {
  }

  lemma QuitDueOwn(s: State, a: Action)
    requires Promises(s) && QuitDue(s) && Facts(s, a)
    requires InnerOf(a) == []
    ensures QuitDue(Apply(s, a))
  {
  }

  lemma QuitDueUser(s: State, a: Action)
    requires Promises(s) && QuitDue(s) && Facts(s, a)
    requires InnerOf(a) != [] && !L.LoopEnabled(s.loop, InnerOf(a)[0])
    ensures QuitDue(Apply(s, a))
  {
    UserFrame(s, a);
  }

  lemma QuitDueLoop(s: State, a: Action)
    requires Promises(s) && QuitDue(s) && Facts(s, a)
    requires InnerOf(a) != [] && L.LoopEnabled(s.loop, InnerOf(a)[0])
    ensures QuitDue(Apply(s, a))
  {
  }

  lemma {:induction false} Reachable(dummy: Mpsc.Addr, run: seq<Action>, s: State)
    requires Exec(Initial(dummy), run) == Some(s)
    ensures Inv(s) && L.Inv(s.loop)
  {
    Projection(dummy, run, s);
    if run != [] {
      var s0, last := Peel(Initial(dummy), run, s);
      Reachable(dummy, run[..|run| - 1], s0);
      GetFacts(s0, last);
      if InnerOf(last) == [] {
        PrivateOwn(s0, last);
        PromisesOwn(s0, last);
        PromiseQueuedOwn(s0, last);
        QuitDueOwn(s0, last);
      } else if L.LoopEnabled(s0.loop, InnerOf(last)[0]) {
        PrivateLoop(s0, last);
        PromisesLoop(s0, last);
        PromiseQueuedLoop(s0, last);
        QuitDueLoop(s0, last);
      } else {
        PrivateUser(s0, last);
        PromisesUser(s0, last);
        PromiseQueuedUser(s0, last);
        QuitDueUser(s0, last);
      }
    }
  }

  // ------------------------------------------------------------------ shutdown

  /** The owner sits in a future's `get()` or in `join()`. */
  predicate OwnerWaits(s: State) {
    || (s.owner == Constructing && !s.pointerSet)
    || (s.owner.InRun? && !s.loopSet)
    || (s.owner == Joining && s.thread != Finished)
  }

  /** The loop thread sits in a future's `get()`, or in `poll` with nothing to wake it. */
  predicate LoopBlocked(s: State) {
    || (s.thread == AwaitingRun && !s.runSet)
    || (s.thread == InLoop && s.loop.loc == L.Polling && s.loop.eventfd == 0)
  }

  /** The step the loop thread takes next on its own account, without waiting for a poll timeout. */
  function NextStep(s: State): Action {
    match L.PcOf(s.loop, L.LOOP)
    case Exchanged(_, _) => Inner(L.LinkNext(L.LOOP))
    case Queued => Inner(L.FinishQueue(L.LOOP))
    case QuitStored => Inner(L.FinishQuit(L.LOOP))
    case Idle =>
      match s.thread
      case Starting =>
        if s.loop.h.enqueued == [] then Inner(L.Exchange(L.LOOP, s.loop.q.head + 1, PROMISE)) else FinishCreate
      case Created => Publish
      case AwaitingRun => Begin
      case Leaving => ClearPointer
      case Finished => ClearPointer
      case InLoop =>
        match s.loop.loc
        case Entered => Inner(L.ClearQuit)
        case CheckQuit => Inner(L.TestQuit)
        case Polling => Inner(L.PollReturn(true))
        case Handling(wakeup) => Inner(if wakeup then L.ReadEventfd else L.EndHandling)
        case DrainCheck => Inner(L.TestEmpty)
        case DrainLoad => Inner(L.LoadNext)
        case DrainTake(_) => Inner(L.TakeNode)
        case Running(_) => Inner(L.FinishFunc)
        case Outside => Begin
  }

  /** Whenever the owner waits for the loop thread, the loop thread is not blocked and has a step to
      take; the one exception is a thread that has left its loop before the promise function ran. */
  lemma OwnerNeverWaitsForABlockedLoop(dummy: Mpsc.Addr, run: seq<Action>, s: State)
    requires Exec(Initial(dummy), run) == Some(s) && OwnerWaits(s)
    ensures !LoopBlocked(s)
    ensures s.thread == Finished || Enabled(s, NextStep(s))
    ensures s.thread == Finished ==> s.owner.InRun? && !s.loopSet
  {
    Reachable(dummy, run, s);
    if s.thread == Starting && s.loop.h.enqueued == [] {
      assert |s.loop.h.chain| == 1;
    }
    if s.thread != Finished {
      NextStepEnabled(s);
    }
  }

  lemma NextStepEnabled(s: State)
    requires Promises(s) && Private(s) && L.LoopOk(s.loop)
    requires OwnerWaits(s) && !LoopBlocked(s) && s.thread != Finished
    requires s.thread == Starting && s.loop.h.enqueued == [] ==> s.loop.q.head + 1 !in s.loop.q.next
    ensures Enabled(s, NextStep(s))
  {
  }

  /** `loop()` has stored `quit_ = false`. */
  predicate Cleared(s: State) {
    (s.thread == InLoop && s.loop.loc != L.Entered) || s.thread in {Leaving, Finished}
  }

  lemma ClearedStep(s: State, a: Action)
    requires Enabled(s, a) && Promises(s)
    ensures Cleared(Apply(s, a)) <==> Cleared(s) || a == Inner(L.ClearQuit)
  {
  }

  lemma {:induction false} PastClear(dummy: Mpsc.Addr, run: seq<Action>, s: State)
    requires Exec(Initial(dummy), run) == Some(s)
    ensures Cleared(s) <==> L.ClearQuit in InnersOf(run)
  {
    if run != [] {
      var s0, last := Peel(Initial(dummy), run, s);
      PastClear(dummy, run[..|run| - 1], s0);
      Reachable(dummy, run[..|run| - 1], s0);
      ClearedStep(s0, last);
      assert L.ClearQuit in InnersOf(run) <==> L.ClearQuit in InnersOf(run[..|run| - 1]) || last == Inner(L.ClearQuit);
    }
  }

  /** The destructor stores `quit_ = true` only after `loop()` stored `quit_ = false`, so the store is
      never lost: at `join` it is the last store to the flag, or the thread is already done. */
  lemma DestructorQuitIsNotLost(dummy: Mpsc.Addr, run: seq<Action>, s: State)
    requires Exec(Initial(dummy), run) == Some(s)
    ensures s.owner in {Destroying, HasLoop, Quitting, Joining, Joined} ==> L.ClearQuit in InnersOf(run)
    ensures s.owner in {Quitting, Joining} && s.thread != Finished ==> L.LastStore(InnersOf(run))
  {
    Reachable(dummy, run, s);
    PastClear(dummy, run, s);
    Projection(dummy, run, s);
    L.QuitInForce(dummy, InnersOf(run), s.loop);
  }

  /** Before, at and after the first test of the flag in `loop()`. */
  predicate FirstPass(s: State, test: Option<bool>) {
    match test
    case None => !s.loopSet && (s.thread == InLoop ==> s.loop.loc in {L.Entered, L.CheckQuit}) && s.thread !in {Leaving, Finished}
    case Some(true) => !s.loopSet && s.thread in {Leaving, Finished}
    case Some(false) => s.loopSet || (s.thread == InLoop && s.loop.loc !in {L.Entered, L.CheckQuit})
  }

  lemma {:induction false} FirstPassHolds(dummy: Mpsc.Addr, run: seq<Action>, s: State)
    requires Exec(Initial(dummy), run) == Some(s)
    ensures FirstPass(s, L.FirstTest(InnersOf(run)))
  {
    if run != [] {
      var s0, last := Peel(Initial(dummy), run, s);
      FirstPassHolds(dummy, run[..|run| - 1], s0);
      Reachable(dummy, run[..|run| - 1], s0);
      Projection(dummy, run[..|run| - 1], s0);
      L.QuitInForce(dummy, InnersOf(run[..|run| - 1]), s0.loop);
      FirstTestGrows(InnersOf(run[..|run| - 1]), last);
      FirstPassStep(s0, last, L.FirstTest(InnersOf(run[..|run| - 1])));
    }
  }

  lemma FirstTestGrows(inners: seq<L.Action>, a: Action)
    ensures L.FirstTest(inners + InnerOf(a)) ==
            if L.FirstTest(inners) == None && a == Inner(L.TestQuit) then Some(L.LastStore(inners)) else L.FirstTest(inners)
  {
    if InnerOf(a) == [] {
      assert inners + [] == inners;
    } else {
      assert (inners + InnerOf(a))[..|inners|] == inners;
    }
  }

  lemma FirstPassOther(s: State, a: Action, test: Option<bool>)
    requires Enabled(s, a) && FirstPass(s, test) && Promises(s) && a != Inner(L.TestQuit)
    requires InnerOf(a) == [] || !L.LoopEnabled(s.loop, InnerOf(a)[0])
    ensures FirstPass(Apply(s, a), test)
  {
  }

  lemma FirstPassLoop(s: State, a: Action, test: Option<bool>)
    requires Enabled(s, a) && FirstPass(s, test) && Promises(s) && PromiseQueued(s)
    requires InnerOf(a) != [] && L.LoopEnabled(s.loop, InnerOf(a)[0])
    ensures FirstPass(Apply(s, a), if test == None && a == Inner(L.TestQuit) then Some(s.loop.quit) else test)
  {
  }

  lemma FirstPassStep(s: State, a: Action, test: Option<bool>)
    requires Enabled(s, a) && FirstPass(s, test) && Promises(s) && PromiseQueued(s)
    ensures FirstPass(Apply(s, a), if test == None && a == Inner(L.TestQuit) then Some(s.loop.quit) else test)
  {
    if InnerOf(a) != [] && L.LoopEnabled(s.loop, InnerOf(a)[0]) {
      FirstPassLoop(s, a, test);
    } else {
      FirstPassOther(s, a, test);
    }
  }

  /** The exception, exactly: `run()` (and with it the destructor) is stuck for good if and only if
      the first test of `quit_` in `loop()` reads a `quit()` that someone issued between the store
      of false and that test. */
  lemma RacedQuitStrandsRun(dummy: Mpsc.Addr, run: seq<Action>, s: State)
    requires Exec(Initial(dummy), run) == Some(s)
    ensures s.thread in {Leaving, Finished} && !s.loopSet <==> L.FirstTest(InnersOf(run)) == Some(true)
  {
    FirstPassHolds(dummy, run, s);
    Reachable(dummy, run, s);
  }

  lemma {:induction false} StrandedForGood(dummy: Mpsc.Addr, run: seq<Action>, s: State, k: nat, stuck: State)
    requires Exec(Initial(dummy), run) == Some(s) && k <= |run| && Exec(Initial(dummy), run[..k]) == Some(stuck)
    requires stuck.owner.InRun? && L.FirstTest(InnersOf(run[..k])) == Some(true)
    ensures s.owner == stuck.owner && L.FirstTest(InnersOf(run)) == Some(true)
  {
    if k == |run| {
      assert run[..k] == run;
    } else {
      var prefix := run[..|run| - 1];
      assert prefix[..k] == run[..k];
      var s0, last := Peel(Initial(dummy), run, s);
      StrandedForGood(dummy, prefix, s0, k, stuck);
      RacedQuitStrandsRun(dummy, prefix, s0);
      FirstTestGrows(InnersOf(prefix), last);
      OwnerStuck(s0, last);
    }
  }

  lemma OwnerStuck(s: State, a: Action)
    requires Enabled(s, a) && s.owner.InRun? && !s.loopSet
    ensures Apply(s, a).owner == s.owner
  {
  }

  lemma Then(dummy: Mpsc.Addr, run: seq<Action>, s: State, a: Action) returns (run': seq<Action>, s': State)
    requires Exec(Initial(dummy), run) == Some(s) && Enabled(s, a)
    ensures run' == run + [a] && s' == Apply(s, a) && Exec(Initial(dummy), run') == Some(s')
  {
    run', s' := run + [a], Apply(s, a);
    assert run'[..|run|] == run;
  }

  /** A thread that has published its loop, and nobody else has done anything yet. */
  lemma PromiseQueuedState() returns (run: seq<Action>, s: State)
    ensures Exec(Initial(0), run) == Some(s)
    ensures s.thread == Starting && s.owner == Constructing && !s.runSet && !s.loopSet && s.loop.h.enqueued == [PROMISE]
    ensures s.loop.loc == L.Outside && L.PcOf(s.loop, L.LOOP) == L.Idle && L.PcOf(s.loop, 2) == L.Idle
  {
    run, s := [], Initial(0);
    run, s := Then(0, run, s, Inner(L.Exchange(L.LOOP, 1, PROMISE)));
    run, s := Then(0, run, s, Inner(L.LinkNext(L.LOOP)));
    run, s := Then(0, run, s, Inner(L.FinishQueue(L.LOOP)));
  }

  lemma PublishedState() returns (run: seq<Action>, s: State)
    ensures Exec(Initial(0), run) == Some(s)
    ensures s.thread == AwaitingRun && s.pointerSet && s.owner == Constructing && !s.runSet && !s.loopSet
    ensures s.loop.loc == L.Outside && L.PcOf(s.loop, L.LOOP) == L.Idle && L.PcOf(s.loop, 2) == L.Idle
  {
    run, s := PromiseQueuedState();
    run, s := Then(0, run, s, FinishCreate);
    run, s := Then(0, run, s, Publish);
  }

  /** The destructor waits in `run()`, and the loop has been entered. */
  lemma DestructorWaiting() returns (run: seq<Action>, s: State)
    ensures Exec(Initial(0), run) == Some(s)
    ensures s.owner == InRun(true) && s.pointerSet && !s.loopSet && s.thread == InLoop && s.loop.loc == L.Entered
    ensures L.PcOf(s.loop, L.LOOP) == L.Idle && L.PcOf(s.loop, 2) == L.Idle
  {
    run, s := PublishedState();
    run, s := Then(0, run, s, GetPointer);
    run, s := Then(0, run, s, CallRun(true));
    run, s := Then(0, run, s, Begin);
  }

  /** The stranded destructor is reachable: thread 2 calls `quit()` right after `loop()` clears the flag. */
  lemma StrandedDestructor() returns (run: seq<Action>, s: State)
    ensures Exec(Initial(0), run) == Some(s)
    ensures s.owner == InRun(true) && !s.loopSet && s.thread == Leaving
  {
    run, s := DestructorWaiting();
    run, s := Then(0, run, s, Inner(L.ClearQuit));
    run, s := Then(0, run, s, Inner(L.StoreQuit(2)));
    run, s := Then(0, run, s, Inner(L.TestQuit));
  }
}
