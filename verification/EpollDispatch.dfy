/** Which callbacks an event reported by `epoll_wait` leads to: from the bits of the report to the
    callbacks that have run when its `handleEvent` is over. */
module EpollDispatch {
  import opened EpollPoller
  import opened Options

  // ------------------------------------------------------------------ from bits to callbacks

  predicate HangUp(revents: Mask) {
    revents & POLLHUP != 0 && revents & POLLIN == 0
  }

  predicate Fails(revents: Mask) {
    !HangUp(revents) && (revents & POLLNVAL != 0 || revents & POLLERR != 0)
  }

  /** The callback that is due for the reported bits. */
  predicate IsDue(c: Callback, revents: Mask, catchAll: bool) {
    match c
    case EventCallback => catchAll
    case CloseCallback => !catchAll && HangUp(revents)
    case ErrorCallback => !catchAll && Fails(revents)
    case ReadCallback =>
      && !catchAll && !HangUp(revents) && !Fails(revents)
      && (revents & POLLIN != 0 || revents & POLLPRI != 0 || revents & POLLRDHUP != 0)
    case WriteCallback => !catchAll && !HangUp(revents) && !Fails(revents) && revents & POLLOUT != 0
  }

  /** One `handleEvent` runs exactly the callbacks due, each once, and a read before a write. */
  lemma CallbacksDue(revents: Mask, catchAll: bool)
    ensures var cs := Callbacks(revents, catchAll);
            && (forall c :: c in cs <==> IsDue(c, revents, catchAll))
            && (|cs| <= 1 || cs == [ReadCallback, WriteCallback])
  {
    SplitBits(revents);
    forall c ensures c in Callbacks(revents, catchAll) <==> IsDue(c, revents, catchAll) {
    }
  }

  lemma SplitBits(revents: Mask)
    ensures revents & (POLLNVAL | POLLERR) != 0 <==> revents & POLLNVAL != 0 || revents & POLLERR != 0
    ensures revents & (POLLIN | POLLPRI | POLLRDHUP) != 0 <==>
            revents & POLLIN != 0 || revents & POLLPRI != 0 || revents & POLLRDHUP != 0
  {
  }

  // ------------------------------------------------------------------ what the last poll reported

  /** The bits of the last of these events that is reported on dispatcher `id`. */
  function BitsFor(kernel: map<nat, Entry<Id>>, ready: seq<Ready>, id: Id): Option<Mask> {
    if ready == [] then None else
    var e := ready[|ready| - 1];
    if e.fd in kernel && kernel[e.fd].owner == id then Some(e.revents) else BitsFor(kernel, ready[..|ready| - 1], id)
  }

  /** What the last poll of the run reported on `id`. */
  function LastReport(run: seq<Action>, id: Id): Option<Mask> {
    if run == [] then None else
    match run[|run| - 1]
    case Poll(ready) => (match Exec(run[..|run| - 1]) case None => None case Some(s) => BitsFor(s.kernel, ready, id))
    case _ => LastReport(run[..|run| - 1], id)
  }

  lemma {:induction false} OwnersInOrder(kernel: map<nat, Entry<Id>>, ready: seq<Ready>)
    requires forall i :: 0 <= i < |ready| ==> Reportable(kernel, ready[i])
    ensures |Owners(kernel, ready)| == |ready|
    ensures forall i :: 0 <= i < |ready| ==> ready[i].fd in kernel && Owners(kernel, ready)[i] == kernel[ready[i].fd].owner
  {
    if ready != [] {
      OwnersInOrder(kernel, ready[..|ready| - 1]);
      assert Reportable(kernel, ready[|ready| - 1]);
    }
  }

  /** The active list is the dispatchers reported, in the order of the events. */
  lemma ActiveList(s: State, ready: seq<Ready>)
    requires Enabled(s, Poll(ready))
    ensures var batch := Apply(s, Poll(ready)).batch;
            && |batch| == |ready|
            && forall i :: 0 <= i < |ready| ==> ready[i].fd in s.kernel && batch[i] == s.kernel[ready[i].fd].owner
  {
    OwnersInOrder(s.kernel, ready);
  }

  lemma {:induction false} FilledBits(revents: map<Id, Mask>, kernel: map<nat, Entry<Id>>, ready: seq<Ready>, id: Id)
    requires forall i :: 0 <= i < |ready| ==> Reportable(kernel, ready[i])
    ensures var filled := Fill(revents, kernel, ready);
            match BitsFor(kernel, ready, id)
            case Some(bits) => id in filled && filled[id] == bits
            case None => id !in Owners(kernel, ready)
  {
    if ready != [] {
      FilledBits(revents, kernel, ready[..|ready| - 1], id);
      assert Reportable(kernel, ready[|ready| - 1]);
    }
  }

  lemma SeenAfterPoll(s: State, ready: seq<Ready>, id: Id)
    requires Enabled(s, Poll(ready)) && id in Apply(s, Poll(ready)).batch
    ensures BitsFor(s.kernel, ready, id) == Some(Seen(Apply(s, Poll(ready)), id))
  {
    FilledBits(s.revents, s.kernel, ready, id);
  }

  /** `realEvents_` of every dispatcher still to be handled is what the last poll reported on it. */
  lemma {:induction false} SeenIsReported(run: seq<Action>, s: State, id: Id)
    requires Exec(run) == Some(s) && id in s.batch
    ensures LastReport(run, id) == Some(Seen(s, id))
  {
    var s0, last := Peel(run, s);
    match last
    case Poll(ready) =>
      SeenAfterPoll(s0, ready, id);
      assert LastReport(run, id) == BitsFor(s0.kernel, ready, id);
    case _ =>
      BatchShrinks(s0, last, id);
      SeenIsReported(run[..|run| - 1], s0, id);
  }

  lemma BatchShrinks(s: State, a: Action, id: Id)
    requires Enabled(s, a) && !a.Poll? && id in Apply(s, a).batch
    ensures id in s.batch && Apply(s, a).revents == s.revents
  {
    match a
    case Create(_, _, _) =>
    case Update(_, _) =>
    case Remove(_) =>
    case Destroy(_) =>
    case Dispatch => assert s.batch == [s.batch[0]] + s.batch[1..];
    case Continue =>
  }

  /** The run creates `id` with a catch-all callback. */
  predicate AskedForAll(run: seq<Action>, id: Id) {
    run != [] && (CreatesForAll(run[|run| - 1], id) || AskedForAll(run[..|run| - 1], id))
  }

  predicate CreatesForAll(a: Action, id: Id) {
    a.Create? && a.id == id && a.catchAll
  }

  lemma CatchAllStep(s: State, a: Action, id: Id)
    requires Enabled(s, a)
    ensures id in Apply(s, a).catchAll <==> id in s.catchAll || CreatesForAll(a, id)
  {
    match a
    case Create(_, _, _) =>
    case Poll(_) =>
    case _ =>
  }

  /** A dispatcher has a catch-all callback exactly if it was created with one. */
  lemma {:induction false} CatchAllAsCreated(run: seq<Action>, s: State, id: Id)
    requires Exec(run) == Some(s)
    ensures id in s.catchAll <==> AskedForAll(run, id)
  {
    if run != [] {
      var s0, last := Peel(run, s);
      CatchAllAsCreated(run[..|run| - 1], s0, id);
      CatchAllStep(s0, last, id);
    }
  }

  // ------------------------------------------------------------------ from a report to the callbacks run

  /** The callbacks that one `handleEvent` has run. */
  function TurnCalls(calls: seq<Call>, turn: nat): seq<Callback> {
    if calls == [] then [] else
    var last := calls[|calls| - 1];
    TurnCalls(calls[..|calls| - 1], turn) + if last.turn == turn then [last.callback] else []
  }

  lemma TurnCallsMore(calls: seq<Call>, c: Call, turn: nat)
    ensures TurnCalls(calls + [c], turn) == TurnCalls(calls, turn) + if c.turn == turn then [c.callback] else []
  {
    assert (calls + [c])[..|calls|] == calls;
  }

  lemma {:induction false} NoneYet(calls: seq<Call>, turn: nat)
    requires forall c :: c in calls ==> c.turn < turn
    ensures TurnCalls(calls, turn) == []
  {
    if calls != [] {
      assert calls[|calls| - 1] in calls;
      NoneYet(calls[..|calls| - 1], turn);
    }
  }

  lemma TurnsStep(s: State, a: Action)
    requires Enabled(s, a) && forall c :: c in s.calls ==> c.turn <= s.turns
    ensures forall c :: c in Apply(s, a).calls ==> c.turn <= Apply(s, a).turns
  {
  }

  lemma {:induction false} TurnsSoFar(run: seq<Action>, s: State)
    requires Exec(run) == Some(s)
    ensures forall c :: c in s.calls ==> c.turn <= s.turns
  {
    if run != [] {
      var s0, last := Peel(run, s);
      TurnsSoFar(run[..|run| - 1], s0);
      TurnsStep(s0, last);
    }
  }

  /** `cs` is what `handleEvent` number `turn` has run and is still to run. */
  predicate OnTheWay(s: State, turn: nat, cs: seq<Callback>) {
    turn <= s.turns && TurnCalls(s.calls, turn) + (if s.turns == turn then s.pending else []) == cs
  }

  lemma RunOnTheWay(s: State, id: Id, callbacks: seq<Callback>)
    requires id in s.interests
    ensures OnTheWay(Run(s, id, callbacks), s.turns, TurnCalls(s.calls, s.turns) + callbacks)
    ensures Run(s, id, callbacks).turns == s.turns
    ensures forall turn: nat :: turn < s.turns ==> TurnCalls(Run(s, id, callbacks).calls, turn) == TurnCalls(s.calls, turn)
  {
    if callbacks != [] {
      var c := Call(s.turns, id, callbacks[0], s.interests[id]);
      TurnCallsMore(s.calls, c, s.turns);
      Regroup(TurnCalls(s.calls, s.turns), callbacks);
      forall turn: nat | turn < s.turns ensures TurnCalls(s.calls + [c], turn) == TurnCalls(s.calls, turn) {
        TurnCallsMore(s.calls, c, turn);
      }
    }
  }

  lemma Regroup(done: seq<Callback>, cs: seq<Callback>)
    requires cs != []
    ensures done + [cs[0]] + cs[1..] == done + cs
  {
  }

  /** The first step of a `handleEvent`. */
  lemma DispatchStarts(run: seq<Action>, s: State)
    requires Exec(run) == Some(s) && Enabled(s, Dispatch)
    requires var id := s.batch[0]; id in s.interests && s.interests[id].events != NONE
    ensures OnTheWay(Apply(s, Dispatch), s.turns + 1, Callbacks(Seen(s, s.batch[0]), s.batch[0] in s.catchAll))
    ensures Apply(s, Dispatch).faults == s.faults
  {
    var id := s.batch[0];
    var t := s.(batch := s.batch[1..], userCode := false, turns := s.turns + 1);
    TurnsSoFar(run, s);
    NoneYet(s.calls, s.turns + 1);
    RunOnTheWay(t, id, Callbacks(Seen(s, id), id in s.catchAll));
  }

  lemma StepOnTheWay(s: State, a: Action, turn: nat, cs: seq<Callback>)
    requires OnTheWay(s, turn, cs) && Enabled(s, a) && Apply(s, a).faults == s.faults
    ensures OnTheWay(Apply(s, a), turn, cs)
  {
    match a
    case Dispatch => DispatchOnTheWay(s, turn, cs);
    case Continue => RunOnTheWay(s, s.current, s.pending);
    case _ =>
  }

  lemma DispatchOnTheWay(s: State, turn: nat, cs: seq<Callback>)
    requires OnTheWay(s, turn, cs) && Enabled(s, Dispatch) && Apply(s, Dispatch).faults == s.faults
    ensures OnTheWay(Apply(s, Dispatch), turn, cs)
  {
    var id := s.batch[0];
    assert TurnCalls(s.calls, turn) + [] == TurnCalls(s.calls, turn);
    if s.interests[id].events != NONE {
      RunOnTheWay(s.(batch := s.batch[1..], userCode := false, turns := s.turns + 1), id, Callbacks(Seen(s, id), id in s.catchAll));
    }
  }

  lemma FaultsGrow(s: State, a: Action)
    requires Enabled(s, a)
    ensures Apply(s, a).faults >= s.faults
  {
  }

  lemma {:induction false} StaysOnTheWay(run: seq<Action>, s: State, k: nat, s1: State, turn: nat, cs: seq<Callback>)
    requires Exec(run) == Some(s) && k <= |run| && Exec(run[..k]) == Some(s1) && OnTheWay(s1, turn, cs)
    ensures s.faults >= s1.faults && (s.faults == s1.faults ==> OnTheWay(s, turn, cs))
  {
    if k == |run| {
      assert run[..k] == run;
    } else {
      var front := run[..|run| - 1];
      var s0, last := Peel(run, s);
      assert front[..k] == run[..k];
      StaysOnTheWay(front, s0, k, s1, turn, cs);
      FaultsGrow(s0, last);
      if s.faults == s1.faults {
        StepOnTheWay(s0, last, turn, cs);
      }
    }
  }

  lemma {:induction false} StepAt(run: seq<Action>, s: State, k: nat, s0: State)
    requires Exec(run) == Some(s) && k < |run| && Exec(run[..k]) == Some(s0)
    ensures Enabled(s0, run[k]) && Exec(run[..k + 1]) == Some(Apply(s0, run[k]))
  {
    var front := run[..|run| - 1];
    var t, last := Peel(run, s);
    if k == |front| {
      assert run[..k] == front && run[..k + 1] == run;
    } else {
      assert front[..k] == run[..k] && front[..k + 1] == run[..k + 1];
      StepAt(front, t, k, s0);
    }
  }

  lemma HandledCalls(run: seq<Action>, s: State, k: nat, s0: State)
    requires Exec(run) == Some(s) && k < |run| && run[k] == Dispatch && Exec(run[..k]) == Some(s0) && Enabled(s0, Dispatch)
    requires var id := s0.batch[0]; id in s0.interests && s0.interests[id].events != NONE
    requires s.faults == s0.faults && (s.turns > s0.turns + 1 || s.pending == [])
    ensures TurnCalls(s.calls, s0.turns + 1) == Callbacks(Seen(s0, s0.batch[0]), s0.batch[0] in s0.catchAll)
  {
    StepAt(run, s, k, s0);
    DispatchStarts(run[..k], s0);
    StaysOnTheWay(run, s, k + 1, Apply(s0, Dispatch), s0.turns + 1, Callbacks(Seen(s0, s0.batch[0]), s0.batch[0] in s0.catchAll));
    assert TurnCalls(s.calls, s0.turns + 1) + [] == TurnCalls(s.calls, s0.turns + 1);
  }

  /** In every run, once the `handleEvent` that step `k` starts on an interested dispatcher is over, it
      has run exactly the callbacks due for the bits the last poll before it reported on the
      dispatcher, as long as no step since has used a destroyed one. */
  lemma HandledAsReported(run: seq<Action>, s: State, k: nat, s0: State)
    requires Exec(run) == Some(s) && k < |run| && run[k] == Dispatch && Exec(run[..k]) == Some(s0)
    requires s0.batch != [] ==> var id := s0.batch[0]; id in s0.interests && s0.interests[id].events != NONE
    requires s.faults == s0.faults && (s.turns > s0.turns + 1 || s.pending == [])
    ensures s0.batch != [] && LastReport(run[..k], s0.batch[0]).Some?
    ensures var id, cs := s0.batch[0], TurnCalls(s.calls, s0.turns + 1);
            && (forall c :: c in cs <==> IsDue(c, LastReport(run[..k], id).value, AskedForAll(run[..k], id)))
            && (|cs| <= 1 || cs == [ReadCallback, WriteCallback])
  {
    StepAt(run, s, k, s0);
    var id := s0.batch[0];
    SeenIsReported(run[..k], s0, id);
    CatchAllAsCreated(run[..k], s0, id);
    HandledCalls(run, s, k, s0);
    CallbacksDue(Seen(s0, id), id in s0.catchAll);
  }
}
