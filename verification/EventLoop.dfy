/** The wakeup protocol of event/EventLoop.cpp as an interleaving of atomic steps.

    Any number of threads call `queueInLoop` and `quit`; thread LOOP is the one that runs `loop()`.
    Handlers and queued functions may themselves call both, so LOOP has a program counter like any
    other thread, and the loop proper only moves while that counter is Idle. */
module EventLoop {
  import opened Options
  import Mpsc = MpscQueue

  type Tid = nat
  type Func = nat

  const LOOP: Tid := 0

  /** The largest value an eventfd holds; a write that would exceed it fails with EAGAIN, which `wakeup` ignores. */
  const EVENTFD_MAX: nat := 0xFFFF_FFFF_FFFF_FFFE

  /** Where a thread stands inside `queueInLoop` (Exchanged, Queued) or `quit` (QuitStored). */
  datatype Pc = Idle | Exchanged(prev: Mpsc.Addr, node: Mpsc.Addr) | Queued | QuitStored

  /** Where the loop stands; `Handling(true)` still has the wakeup dispatcher in the active list. */
  datatype Loc =
    | Outside | Entered | CheckQuit | Polling | Handling(wakeup: bool)
    | DrainCheck | DrainLoad | DrainTake(node: Mpsc.Addr) | Running(f: Func)

  datatype State = State(
    q: Mpsc.State<Func>, h: Mpsc.History<Func>, pending: map<Mpsc.Addr, Mpsc.Addr>,
    pcs: map<Tid, Pc>, loc: Loc, looping: bool, quit: bool, eventfd: nat)

  datatype Action =
    | Exchange(t: Tid, node: Mpsc.Addr, f: Func) | LinkNext(t: Tid) | FinishQueue(t: Tid)
    | StoreQuit(t: Tid) | FinishQuit(t: Tid)
    | Enter | ClearQuit | TestQuit | PollReturn(wakeup: bool) | ReadEventfd | EndHandling
    | TestEmpty | LoadNext | TakeNode | FinishFunc

  function Initial(dummy: Mpsc.Addr): State {
    State(Mpsc.Empty(dummy), Mpsc.History([dummy], [], []), map[], map[], Outside, false, false, 0)
  }

  function PcOf(s: State, t: Tid): Pc {
    if t in s.pcs then s.pcs[t] else Idle
  }

  function Wakeup(s: State): State {
    if s.eventfd < EVENTFD_MAX then s.(eventfd := s.eventfd + 1) else s
  }

  /** User code on the loop thread runs before or after `loop()`, in event handlers and in queued functions. */
  predicate UserCode(loc: Loc) {
    loc.Outside? || loc.Handling? || loc.Running?
  }

  predicate Enabled(s: State, a: Action) {
    match a
    case Exchange(t, node, f) => PcOf(s, t) == Idle && node !in s.q.next && (t == LOOP ==> UserCode(s.loc))
    case LinkNext(t) => PcOf(s, t).Exchanged?
    case FinishQueue(t) => PcOf(s, t) == Queued
    case StoreQuit(t) => PcOf(s, t) == Idle && (t == LOOP ==> UserCode(s.loc))
    case FinishQuit(t) => PcOf(s, t) == QuitStored
    case _ => PcOf(s, LOOP) == Idle && LoopEnabled(s, a)
  }

  predicate LoopEnabled(s: State, a: Action) {
    match a
    case Enter => s.loc == Outside
    case ClearQuit => s.loc == Entered
    case TestQuit => s.loc == CheckQuit
    case PollReturn(wakeup) => s.loc == Polling && (wakeup ==> s.eventfd > 0)
    case ReadEventfd => s.loc == Handling(true)
    case EndHandling => s.loc == Handling(false)
    case TestEmpty => s.loc == DrainCheck
    case LoadNext => s.loc == DrainLoad
    case TakeNode => s.loc.DrainTake?
    case FinishFunc => s.loc.Running?
    case _ => false
  }

  function Apply(s: State, a: Action): State
    requires Enabled(s, a)
  {
    match a
    case Exchange(t, node, f) =>
      s.(q := Mpsc.Exchange(s.q, node, f), h := Mpsc.AfterExchange(s.h, node, f),
         pending := s.pending[s.q.head := node], pcs := s.pcs[t := Exchanged(s.q.head, node)])
    case LinkNext(t) =>
      var pc := PcOf(s, t);
      s.(q := Mpsc.Link(s.q, pc.prev, pc.node), pending := s.pending - {pc.prev}, pcs := s.pcs[t := Queued])
    case FinishQueue(t) =>
      (if t != LOOP || !s.looping then Wakeup(s) else s).(pcs := s.pcs[t := Idle])
    case StoreQuit(t) => s.(quit := true, pcs := s.pcs[t := QuitStored])
    case FinishQuit(t) => (if t != LOOP then Wakeup(s) else s).(pcs := s.pcs[t := Idle])
    case _ => ApplyLoop(s, a)
  }

  function ApplyLoop(s: State, a: Action): State
    requires LoopEnabled(s, a)
  {
    match a
    case Enter => s.(looping := true, loc := Entered)
    case ClearQuit => s.(quit := false, loc := CheckQuit)
    case TestQuit => if s.quit then s.(looping := false, loc := Outside) else s.(loc := Polling)
    case PollReturn(wakeup) => s.(loc := Handling(wakeup))
    case ReadEventfd => s.(eventfd := 0, loc := Handling(false))
    case EndHandling => s.(loc := DrainCheck)
    case TestEmpty =>
      var (q, n) := Mpsc.Load(s.q);
      s.(q := q, loc := if n == None then CheckQuit else DrainLoad)
    case LoadNext =>
      var (q, n) := Mpsc.Load(s.q);
      s.(q := q, loc := if n == None then DrainCheck else DrainTake(n.value))
    case TakeNode =>
      var n := s.loc.node;
      s.(q := Mpsc.Take(s.q, n), h := Mpsc.AfterTake(s.h),
         loc := Running(if n in s.q.boxes then s.q.boxes[n] else 0))
    case FinishFunc => s.(loc := DrainLoad)
  }

  /** The state after a run, or None when some action of the run was not enabled. */
  function Exec(s: State, run: seq<Action>): Option<State> {
    if run == [] then Some(s) else
    var prefix, last := run[..|run| - 1], run[|run| - 1];
    match Exec(s, prefix)
    case None => None
    case Some(s') => if Enabled(s', last) then Some(Apply(s', last)) else None
  }

  // ------------------------------------------------------------------ invariant

  /** Thread `t` has passed the head exchange of a `queueInLoop` and not yet reached the end of it. */
  predicate InFlight(s: State, t: Tid) {
    PcOf(s, t).Exchanged? || PcOf(s, t) == Queued
  }

  /** Each half-done enqueue belongs to exactly one thread. */
  ghost predicate Owners(pcs: map<Tid, Pc>, pending: map<Mpsc.Addr, Mpsc.Addr>) {
    && (forall t | t in pcs && pcs[t].Exchanged? :: pcs[t].prev in pending && pending[pcs[t].prev] == pcs[t].node)
    && (forall t, u | t in pcs && u in pcs && t != u && pcs[t].Exchanged? && pcs[u].Exchanged? :: pcs[t].prev != pcs[u].prev)
    && (forall a | a in pending :: exists t :: t in pcs && pcs[t] == Exchanged(a, pending[a]))
  }

  /** The loop is about to poll without another drain in between. */
  predicate Resting(loc: Loc) {
    loc.Outside? || loc.Entered? || loc.CheckQuit? || loc.Polling?
  }

  ghost predicate LoopOk(s: State) {
    && (!UserCode(s.loc) ==> PcOf(s, LOOP) == Idle)
    && (s.looping <==> s.loc != Outside)
    && (s.loc.DrainTake? ==> Mpsc.Load(s.q).1 == Some(s.loc.node))
  }

  /** Whatever is still queued will be noticed: the eventfd is readable, or some thread has yet to write it. */
  ghost predicate WakeupDue(s: State) {
    Resting(s.loc) && s.h.dequeued != s.h.enqueued ==> s.eventfd > 0 || exists t :: InFlight(s, t)
  }

  ghost predicate Inv(s: State) {
    Mpsc.Inv(s.q, s.h, s.pending) && Owners(s.pcs, s.pending) && LoopOk(s) && WakeupDue(s)
  }

  lemma OwnersExchange(pcs: map<Tid, Pc>, pending: map<Mpsc.Addr, Mpsc.Addr>, t: Tid, prev: Mpsc.Addr, node: Mpsc.Addr)
    requires Owners(pcs, pending) && prev !in pending && (t in pcs ==> pcs[t] == Idle)
    ensures Owners(pcs[t := Exchanged(prev, node)], pending[prev := node])
  {
    var pcs', pending' := pcs[t := Exchanged(prev, node)], pending[prev := node];
    assert pcs'[t] == Exchanged(prev, pending'[prev]);
    forall b | b in pending && b != prev
      ensures exists u :: u in pcs' && pcs'[u] == Exchanged(b, pending'[b])
    {
      var u :| u in pcs && pcs[u] == Exchanged(b, pending[b]);
      assert pcs'[u] == Exchanged(b, pending'[b]);
    }
  }

  /** Thread `t` moves to another counter and gives up the link it owed, if any. */
  lemma OwnersMove(pcs: map<Tid, Pc>, pending: map<Mpsc.Addr, Mpsc.Addr>, t: Tid, pc: Pc)
    requires Owners(pcs, pending) && !pc.Exchanged?
    ensures t in pcs && pcs[t].Exchanged? ==> Owners(pcs[t := pc], pending - {pcs[t].prev})
    ensures t in pcs && !pcs[t].Exchanged? ==> Owners(pcs[t := pc], pending)
    ensures t !in pcs ==> Owners(pcs[t := pc], pending)
  {
    var pcs' := pcs[t := pc];
    var pending' := if t in pcs && pcs[t].Exchanged? then pending - {pcs[t].prev} else pending;
    forall b | b in pending'
      ensures exists u :: u in pcs' && pcs'[u] == Exchanged(b, pending'[b])
    {
      var u :| u in pcs && pcs[u] == Exchanged(b, pending[b]);
      assert pcs'[u] == Exchanged(b, pending'[b]);
    }
  }

  lemma OwnersStep(s: State, a: Action)
    requires Owners(s.pcs, s.pending) && s.q.head !in s.pending && Enabled(s, a)
    ensures Owners(Apply(s, a).pcs, Apply(s, a).pending)
  {
    match a
    case Exchange(t, node, _) => OwnersExchange(s.pcs, s.pending, t, s.q.head, node);
    case LinkNext(t) => OwnersMove(s.pcs, s.pending, t, Queued);
    case FinishQueue(t) => OwnersMove(s.pcs, s.pending, t, Idle);
    case StoreQuit(t) => OwnersMove(s.pcs, s.pending, t, QuitStored);
    case FinishQuit(t) => OwnersMove(s.pcs, s.pending, t, Idle);
    case _ =>
  }

  lemma QueueStep(s: State, a: Action)
    requires Mpsc.Inv(s.q, s.h, s.pending) && Owners(s.pcs, s.pending) && Enabled(s, a)
    requires s.loc.DrainTake? ==> Mpsc.Load(s.q).1 == Some(s.loc.node)
    ensures Mpsc.Inv(Apply(s, a).q, Apply(s, a).h, Apply(s, a).pending)
  {
    match a
    case Exchange(_, node, f) => Mpsc.ExchangeInv(s.q, s.h, s.pending, node, f);
    case LinkNext(t) => Mpsc.LinkInv(s.q, s.h, s.pending, s.pcs[t].prev);
    case TakeNode => Mpsc.TakeInv(s.q, s.h, s.pending, s.loc.node);
    case TestEmpty => Mpsc.LoadMeaning(s.q, s.h, s.pending);
    case LoadNext => Mpsc.LoadMeaning(s.q, s.h, s.pending);
    case _ =>
  }

  /** What the consumer has loaded stays true whatever the producers do. */
  lemma LoadStable(s: State, a: Action)
    requires Mpsc.Inv(s.q, s.h, s.pending) && Owners(s.pcs, s.pending) && Enabled(s, a) && !LoopEnabled(s, a)
    requires Mpsc.Load(s.q).1 != None
    ensures Mpsc.Load(Apply(s, a).q).1 == Mpsc.Load(s.q).1
  {
    Mpsc.LoadMeaning(s.q, s.h, s.pending);
  }

  lemma LoopOkStep(s: State, a: Action)
    requires LoopOk(s) && Enabled(s, a)
    requires Mpsc.Load(s.q).1 != None && !LoopEnabled(s, a) ==> Mpsc.Load(Apply(s, a).q).1 == Mpsc.Load(s.q).1
    ensures LoopOk(Apply(s, a))
  {
  }

  /** A null `tail->next_` with work outstanding betrays a thread between its two enqueue steps. */
  lemma HiddenByUnlinked(s: State)
    requires Mpsc.Inv(s.q, s.h, s.pending) && Owners(s.pcs, s.pending)
    requires Mpsc.Load(s.q).1 == None && s.h.dequeued != s.h.enqueued
    ensures exists t :: InFlight(s, t) && PcOf(s, t).Exchanged? && PcOf(s, t).prev == s.q.tail
  {
    Mpsc.LoadMeaning(s.q, s.h, s.pending);
    assert s.q.tail in s.pending;
    var t :| t in s.pcs && s.pcs[t] == Exchanged(s.q.tail, s.pending[s.q.tail]);
    assert InFlight(s, t);
  }

  lemma WakeupStep(s: State, a: Action)
    requires Mpsc.Load(s.q).1 == None && s.h.dequeued != s.h.enqueued ==> exists t :: InFlight(s, t)
    requires LoopOk(s) && WakeupDue(s) && Enabled(s, a)
    ensures WakeupDue(Apply(s, a))
  {
    var s' := Apply(s, a);
    if Resting(s'.loc) && s'.h.dequeued != s'.h.enqueued && s'.eventfd == 0 {
      if a.Exchange? || a.LinkNext? {
        assert InFlight(s', a.t);
      } else {
        assert !a.TakeNode?;
        var t :| InFlight(s, t);
        assert InFlight(s', t);
      }
    }
  }

  lemma StepInv(s: State, a: Action)
    requires Inv(s) && Enabled(s, a)
    ensures Inv(Apply(s, a))
  {
    OwnersStep(s, a);
    QueueStep(s, a);
    if Mpsc.Load(s.q).1 != None && !LoopEnabled(s, a) {
      LoadStable(s, a);
    }
    LoopOkStep(s, a);
    if Mpsc.Load(s.q).1 == None && s.h.dequeued != s.h.enqueued {
      HiddenByUnlinked(s);
    }
    WakeupStep(s, a);
  }

  lemma Peel(s: State, run: seq<Action>, s': State) returns (s0: State, last: Action)
    requires Exec(s, run) == Some(s') && run != []
    ensures Exec(s, run[..|run| - 1]) == Some(s0) && last == run[|run| - 1]
    ensures Enabled(s0, last) && s' == Apply(s0, last)
  {
    s0, last := Exec(s, run[..|run| - 1]).value, run[|run| - 1];
  }

  lemma {:induction false} Reachable(dummy: Mpsc.Addr, run: seq<Action>, s: State)
    requires Exec(Initial(dummy), run) == Some(s)
    ensures Inv(s)
  {
    if run == [] {
      Mpsc.EmptyInv<Func>(dummy);
    } else {
      var s0, last := Peel(Initial(dummy), run, s);
      Reachable(dummy, run[..|run| - 1], s0);
      StepInv(s0, last);
    }
  }

  // ------------------------------------------------------------------ what a run shows

  /** The functions passed to `queueInLoop`, in the order of their head exchanges. */
  function QueuedFuncs(run: seq<Action>): seq<Func> {
    if run == [] then [] else
    var prefix, last := run[..|run| - 1], run[|run| - 1];
    QueuedFuncs(prefix) + if last.Exchange? then [last.f] else []
  }

  /** The functions the loop ran, in order. */
  function Ran(s: State, run: seq<Action>): seq<Func> {
    if run == [] then [] else
    var prefix, last := run[..|run| - 1], run[|run| - 1];
    Ran(s, prefix) +
    match Exec(s, run)
    case Some(s') => if last.TakeNode? && s'.loc.Running? then [s'.loc.f] else []
    case None => []
  }

  lemma HistoryStep(s: State, a: Action)
    requires Enabled(s, a)
    requires a.TakeNode? ==> |s.h.chain| > 1 && |s.h.dequeued| < |s.h.enqueued|
    requires a.TakeNode? ==> s.loc.node in s.q.boxes && s.q.boxes[s.loc.node] == s.h.enqueued[|s.h.dequeued|]
    ensures Apply(s, a).h.enqueued == s.h.enqueued + if a.Exchange? then [a.f] else []
    ensures a.TakeNode? ==> Apply(s, a).loc.Running? && Apply(s, a).h.dequeued == s.h.dequeued + [Apply(s, a).loc.f]
    ensures !a.TakeNode? ==> Apply(s, a).h.dequeued == s.h.dequeued
  {
  }

  /** What one step does to the histories and to what the consumer would load. */
  ghost predicate StepFact(s: State, a: Action, s': State) {
    && s'.h.enqueued == s.h.enqueued + (if a.Exchange? then [a.f] else [])
    && (a.TakeNode? ==>
          && |s.h.dequeued| < |s.h.enqueued|
          && s'.loc == Running(s.h.enqueued[|s.h.dequeued|])
          && s'.h.dequeued == s.h.dequeued + [s'.loc.f])
    && (!a.TakeNode? ==> s'.h.dequeued == s.h.dequeued)
    && (Mpsc.Load(s.q).1 != None && !a.TakeNode? ==> Mpsc.Load(s'.q).1 == Mpsc.Load(s.q).1)
  }

  lemma StepFacts(s: State, a: Action)
    requires Inv(s) && Enabled(s, a)
    ensures StepFact(s, a, Apply(s, a))
  {
    if a.TakeNode? {
      Mpsc.TakeInv(s.q, s.h, s.pending, s.loc.node);
    } else if Mpsc.Load(s.q).1 != None && !LoopEnabled(s, a) {
      LoadStable(s, a);
    }
    HistoryStep(s, a);
  }

  lemma {:induction false} HistoryIsObserved(dummy: Mpsc.Addr, run: seq<Action>, s: State)
    requires Exec(Initial(dummy), run) == Some(s)
    ensures s.h.enqueued == QueuedFuncs(run) && s.h.dequeued == Ran(Initial(dummy), run)
  {
    if run != [] {
      var s0, last := Peel(Initial(dummy), run, s);
      HistoryIsObserved(dummy, run[..|run| - 1], s0);
      Reachable(dummy, run[..|run| - 1], s0);
      StepFacts(s0, last);
    }
  }

  /** In every run the loop runs a prefix of what was queued, in head-exchange order and each once. */
  lemma Fifo(dummy: Mpsc.Addr, run: seq<Action>, s: State)
    requires Exec(Initial(dummy), run) == Some(s)
    ensures Ran(Initial(dummy), run) <= QueuedFuncs(run)
  {
    Reachable(dummy, run, s);
    HistoryIsObserved(dummy, run, s);
  }

  /** No thread ever touches, overwrites or deletes a freed node or box, and what is allocated is the
      dummy and the functions not run yet. */
  lemma MemorySafe(dummy: Mpsc.Addr, run: seq<Action>, s: State)
    requires Exec(Initial(dummy), run) == Some(s)
    ensures !s.q.fault
    ensures |s.q.next| == 1 + |QueuedFuncs(run)| - |Ran(Initial(dummy), run)|
    ensures |s.q.boxes| == |QueuedFuncs(run)| - |Ran(Initial(dummy), run)|
  {
    Reachable(dummy, run, s);
    HistoryIsObserved(dummy, run, s);
    Mpsc.Footprint(s.q, s.h, s.pending);
  }

  /** No lost wakeup: a loop that blocks in `poll` on an unwritten eventfd, with no `queueInLoop` in
      progress anywhere, has run everything that was ever queued. */
  lemma NoLostWakeup(dummy: Mpsc.Addr, run: seq<Action>, s: State)
    requires Exec(Initial(dummy), run) == Some(s)
    requires s.loc == Polling && s.eventfd == 0 && forall t :: !InFlight(s, t)
    ensures Ran(Initial(dummy), run) == QueuedFuncs(run)
  {
    Reachable(dummy, run, s);
    HistoryIsObserved(dummy, run, s);
  }

  /** `dequeue` and `empty` report empty exactly when everything was run, or the thread that owes the
      link out of the tail has exchanged the head and not stored the link. */
  lemma EmptyMeaning(dummy: Mpsc.Addr, run: seq<Action>, s: State)
    requires Exec(Initial(dummy), run) == Some(s)
    ensures Mpsc.Load(s.q).1 == None <==>
            || Ran(Initial(dummy), run) == QueuedFuncs(run)
            || exists t :: PcOf(s, t).Exchanged? && PcOf(s, t).prev == s.q.tail
  {
    Reachable(dummy, run, s);
    HistoryIsObserved(dummy, run, s);
    Mpsc.LoadMeaning(s.q, s.h, s.pending);
    if Mpsc.Load(s.q).1 == None && s.h.dequeued != s.h.enqueued {
      HiddenByUnlinked(s);
    }
  }

  lemma Extend(s: State, run: seq<Action>, s': State, a: Action)
    requires Exec(s, run) == Some(s') && Enabled(s', a)
    ensures Exec(s, run + [a]) == Some(Apply(s', a))
  {
    assert (run + [a])[..|run|] == run;
  }

  /** "Empty" is not linearizable: `dequeue` can fail although thread 2 finished its enqueue before
      the call and nothing was ever dequeued, because thread 1 is still between its two steps. */
  lemma EmptyIsNotLinearizable() returns (run: seq<Action>, s: State)
    ensures Exec(Initial(0), run) == Some(s)
    ensures PcOf(s, 2) == Queued && QueuedFuncs(run) == [10, 20] && Ran(Initial(0), run) == []
    ensures Mpsc.Load(s.q).1 == None
  {
    run, s := [], Initial(0);
    Extend(Initial(0), run, s, Exchange(1, 1, 10));
    run, s := run + [Exchange(1, 1, 10)], Apply(s, Exchange(1, 1, 10));
    Extend(Initial(0), run, s, Exchange(2, 2, 20));
    run, s := run + [Exchange(2, 2, 20)], Apply(s, Exchange(2, 2, 20));
    Extend(Initial(0), run, s, LinkNext(2));
    run, s := run + [LinkNext(2)], Apply(s, LinkNext(2));
    HistoryIsObserved(0, run, s);
  }

  /** The value the last store to `quit_` left behind. */
  function LastStore(run: seq<Action>): bool {
    if run == [] then false else
    match run[|run| - 1]
    case StoreQuit(_) => true
    case ClearQuit => false
    case _ => LastStore(run[..|run| - 1])
  }

  /** What the first test of `quit_` in the loop's while condition read, if it has happened. */
  function FirstTest(run: seq<Action>): Option<bool> {
    if run == [] then None else
    var prefix := run[..|run| - 1];
    if FirstTest(prefix) != None then FirstTest(prefix)
    else if run[|run| - 1].TestQuit? then Some(LastStore(prefix))
    else None
  }

  lemma QuitStep(s: State, a: Action)
    requires Enabled(s, a)
    ensures Apply(s, a).quit <==> a.StoreQuit? || (s.quit && !a.ClearQuit?)
    ensures s.quit && Apply(s, a).loc == Polling ==> s.loc == Polling && !a.PollReturn?
    ensures a.PollReturn? ==> s.loc == Polling
  {
  }

  /** A `quit()` stays in force exactly until the next entry of `loop()` clears the flag. */
  lemma {:induction false} QuitInForce(dummy: Mpsc.Addr, run: seq<Action>, s: State)
    requires Exec(Initial(dummy), run) == Some(s)
    ensures s.quit <==> LastStore(run)
  {
    if run != [] {
      var s0, last := Peel(Initial(dummy), run, s);
      QuitInForce(dummy, run[..|run| - 1], s0);
      QuitStep(s0, last);
    }
  }

  function Polls(run: seq<Action>): nat {
    if run == [] then 0 else Polls(run[..|run| - 1]) + if run[|run| - 1].PollReturn? then 1 else 0
  }

  /** From a state with the flag set, and as long as no entry of `loop()` clears it, the loop leaves
      the `poll` it may be in and never polls again. */
  lemma {:induction false} QuitEndsPolling(s: State, run: seq<Action>, s': State)
    requires Exec(s, run) == Some(s') && s.quit && ClearQuit !in run
    ensures s'.quit
    ensures Polls(run) + (if s'.loc == Polling then 1 else 0) <= if s.loc == Polling then 1 else 0
  {
    if run != [] {
      var s0, last := Peel(s, run, s');
      QuitEndsPolling(s, run[..|run| - 1], s0);
      QuitStep(s0, last);
    }
  }

  /** `loop()` forgets every `quit()` issued before it starts: whatever the flag was, the loop
      reaches `poll` with the flag clear. */
  lemma LoopEntryForgetsQuit(s: State)
    requires s.loc == Outside && PcOf(s, LOOP) == Idle
    ensures Exec(s, [Enter, ClearQuit, TestQuit]) == Some(s.(looping := true, quit := false, loc := Polling))
  {
    assert Exec(s, []) == Some(s);
    Extend(s, [], s, Enter);
    Extend(s, [Enter], Apply(s, Enter), ClearQuit);
    Extend(s, [Enter, ClearQuit], Apply(Apply(s, Enter), ClearQuit), TestQuit);
    assert [] + [Enter] == [Enter];
    assert [Enter] + [ClearQuit] == [Enter, ClearQuit];
    assert [Enter, ClearQuit] + [TestQuit] == [Enter, ClearQuit, TestQuit];
  }

  // ------------------------------------------------------------------ the eventfd

  /** The step writes the eventfd: the last step of a `queueInLoop` from another thread or outside
      `loop()`, or of a `quit()` from another thread. */
  predicate Writes(s: State, a: Action) {
    || (a.FinishQueue? && (a.t != LOOP || s.loc == Outside))
    || (a.FinishQuit? && a.t != LOOP)
  }

  /** The writes since the eventfd was last read. */
  function Unread(dummy: Mpsc.Addr, run: seq<Action>): nat {
    if run == [] then 0 else
    var front, last := run[..|run| - 1], run[|run| - 1];
    match Exec(Initial(dummy), front)
    case None => 0
    case Some(s) => if last == ReadEventfd then 0 else Unread(dummy, front) + if Writes(s, last) then 1 else 0
  }

  function AllWrites(dummy: Mpsc.Addr, run: seq<Action>): nat {
    if run == [] then 0 else
    var front, last := run[..|run| - 1], run[|run| - 1];
    match Exec(Initial(dummy), front)
    case None => 0
    case Some(s) => AllWrites(dummy, front) + if Writes(s, last) then 1 else 0
  }

  /** Polls that returned because of the eventfd. */
  function WakeupPolls(run: seq<Action>): nat {
    if run == [] then 0 else WakeupPolls(run[..|run| - 1]) + if run[|run| - 1] == PollReturn(true) then 1 else 0
  }

  lemma EventfdStep(s: State, a: Action)
    requires LoopOk(s) && Enabled(s, a)
    ensures Apply(s, a).eventfd ==
            if a == ReadEventfd then 0 else if Writes(s, a) && s.eventfd < EVENTFD_MAX then s.eventfd + 1 else s.eventfd
    ensures a == PollReturn(true) ==> s.eventfd > 0 && s.loc == Polling && Apply(s, a).loc == Handling(true)
    ensures s.loc == Handling(true) && a != ReadEventfd ==> Apply(s, a).loc == Handling(true)
    ensures a == ReadEventfd ==> s.loc == Handling(true) && Apply(s, a).loc == Handling(false)
  {
  }

  /** In every run the eventfd holds the number of writes since it was last read, up to its maximum. */
  lemma {:induction false} EventfdCounts(dummy: Mpsc.Addr, run: seq<Action>, s: State)
    requires Exec(Initial(dummy), run) == Some(s)
    ensures s.eventfd == if Unread(dummy, run) < EVENTFD_MAX then Unread(dummy, run) else EVENTFD_MAX
  {
    if run != [] {
      var s0, last := Peel(Initial(dummy), run, s);
      EventfdCounts(dummy, run[..|run| - 1], s0);
      Reachable(dummy, run[..|run| - 1], s0);
      EventfdStep(s0, last);
    }
  }

  /** Each wakeup of the loop stands for a write of its own: a write never wakes the loop twice. */
  lemma {:induction false} WakeupsAreWritten(dummy: Mpsc.Addr, run: seq<Action>, s: State)
    requires Exec(Initial(dummy), run) == Some(s)
    ensures WakeupPolls(run) + (if s.eventfd > 0 && s.loc != Handling(true) then 1 else 0) <= AllWrites(dummy, run)
  {
    if run != [] {
      var s0, last := Peel(Initial(dummy), run, s);
      WakeupsAreWritten(dummy, run[..|run| - 1], s0);
      Reachable(dummy, run[..|run| - 1], s0);
      EventfdStep(s0, last);
    }
  }

  /** The loop goes back to testing `quit_` only from its entry, or from a drain that `empty()` has
      ended; and a poll is always followed by a drain. */
  lemma DrainsUntilEmpty(s: State, a: Action)
    requires Enabled(s, a) && s.loc != Apply(s, a).loc
    ensures Apply(s, a).loc == CheckQuit ==> a == ClearQuit || (a == TestEmpty && Mpsc.Load(s.q).1 == None)
    ensures s.loc.Handling? && !Apply(s, a).loc.Handling? ==> Apply(s, a).loc == DrainCheck
    ensures a == LoadNext ==> (Apply(s, a).loc == DrainCheck <==> Mpsc.Load(s.q).1 == None)
    ensures a == FinishFunc ==> Apply(s, a).loc == DrainLoad
  {
  }
}
