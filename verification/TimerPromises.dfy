/** What `addTimer` and `invalidateTimer` promise for the rest of the run. */
module TimerPromises {
  import opened Options
  import opened TimerQueue

  // ------------------------------------------------------------------ the runs of one timer

  function RunsOf(log: seq<Run>, id: TimerId): seq<Run> {
    if log == [] then [] else
    var last := log[|log| - 1];
    RunsOf(log[..|log| - 1], id) + if last.id == id then [last] else []
  }

  lemma RunsMore(log: seq<Run>, r: Run, id: TimerId)
    ensures RunsOf(log + [r], id) == RunsOf(log, id) + if r.id == id then [r] else []
  {
    assert (log + [r])[..|log|] == log;
  }

  lemma {:induction false} RunsMember(log: seq<Run>, id: TimerId)
    ensures RunsOf(log, id) == [] <==> forall r :: r in log ==> r.id != id
  {
    if log != [] {
      RunsMember(log[..|log| - 1], id);
      assert log == log[..|log| - 1] + [log[|log| - 1]];
    }
  }

  /** From its first run in the tail of a log on, a timer's last run is in that tail. */
  lemma {:induction false} LastRun(log: seq<Run>, m: nat, id: TimerId, now: Time)
    requires m < |log| && log[m].id == id && forall k :: m <= k < |log| ==> log[k].now == now
    ensures RunsOf(log, id) != [] && RunsOf(log, id)[|RunsOf(log, id)| - 1].now == now
  {
    if m < |log| - 1 {
      LastRun(log[..|log| - 1], m, id, now);
    }
  }

  /** The due time of the next run of a timer added for `due`, to be repeated every `every` microseconds. */
  function NextDue(runs: seq<Run>, due: Time, every: int): Time {
    if runs == [] then due else runs[|runs| - 1].now + every * 1000
  }

  /** Each run was due when it should: the first at the due time, the others an interval after the one before. */
  ghost predicate OnSchedule(runs: seq<Run>, due: Time, every: int) {
    forall j :: 0 <= j < |runs| ==> runs[j].due == NextDue(runs[..j], due, every)
  }

  lemma ScheduleMore(runs: seq<Run>, r: Run, due: Time, every: int)
    requires OnSchedule(runs, due, every) && r.due == NextDue(runs, due, every)
    ensures OnSchedule(runs + [r], due, every)
  {
    forall j | 0 <= j < |runs| + 1 ensures (runs + [r])[j].due == NextDue((runs + [r])[..j], due, every) {
      assert (runs + [r])[..j] == runs[..j];
      if j == |runs| {
        assert runs[..j] == runs;
      }
    }
  }

  // ------------------------------------------------------------------ a timer keeps its due time and interval

  /** Timer `id` is as it was added, and its next run is due when it should. */
  ghost predicate Faithful(s: State, id: TimerId, due: Time, every: int) {
    && id in s.when && id in s.interval && s.interval[id] == every
    && OnSchedule(RunsOf(s.log, id), due, every)
    && (MayRun(s, id) ==> s.when[id] == NextDue(RunsOf(s.log, id), due, every))
  }

  lemma FaithfulAdd(s: State, id: TimerId, due: Time, every: int, top: Option<TimerId>, arm: Arming)
    requires RunsOk(s) && PlacesOk(s) && id !in s.when
    ensures Faithful(AddTimer(s, id, due, every, top, arm), id, due, every)
  {
    RunsMember(s.log, id);
  }

  /** A timer that has started to run may not run again before it is restarted. */
  lemma RanOnce(s: State)
    requires PlacesOk(s) && BatchOk(s.b) && Enabled(s, Call) && s.b.expired[s.b.i] in s.live
    ensures MayRun(s, s.b.expired[s.b.i]) && !MayRun(CallTimer(s), s.b.expired[s.b.i])
  {
    var id := s.b.expired[s.b.i];
    CurrentIsOut(s);
    FrontSplit(s.b.expired, s.b.i, id);
  }

  lemma CallNarrows(s: State, id: TimerId)
    requires BatchOk(s.b) && Enabled(s, Call) && MayRun(CallTimer(s), id)
    ensures MayRun(s, id)
  {
    FrontSplit(s.b.expired, s.b.i, id);
  }

  /** Nothing of `id` has changed, and it may run no sooner than before. */
  lemma StaysFaithful(s: State, t: State, id: TimerId, due: Time, every: int)
    requires Faithful(s, id, due, every) && t.interval == s.interval && RunsOf(t.log, id) == RunsOf(s.log, id)
    requires id in t.when && t.when[id] == s.when[id] && (MayRun(t, id) ==> MayRun(s, id))
    ensures Faithful(t, id, due, every)
  {
  }

  lemma RunIsOnSchedule(s: State, due: Time, every: int)
    requires PlacesOk(s) && BatchOk(s.b) && Enabled(s, Call) && s.b.expired[s.b.i] in s.live
    requires Faithful(s, s.b.expired[s.b.i], due, every)
    ensures Faithful(CallTimer(s), s.b.expired[s.b.i], due, every)
  {
    var id := s.b.expired[s.b.i];
    var r := Run(id, DueOf(s, id), s.b.now);
    RanOnce(s);
    RunsMore(s.log, r, id);
    ScheduleMore(RunsOf(s.log, id), r, due, every);
    assert CallTimer(s).log == s.log + [r] && CallTimer(s).interval == s.interval && CallTimer(s).when == s.when;
  }

  lemma FaithfulCall(s: State, id: TimerId, due: Time, every: int)
    requires PlacesOk(s) && BatchOk(s.b) && Enabled(s, Call) && Faithful(s, id, due, every)
    ensures Faithful(CallTimer(s), id, due, every)
  {
    var cur := s.b.expired[s.b.i];
    if cur in s.live && cur == id {
      RunIsOnSchedule(s, due, every);
    } else {
      RunsMore(s.log, Run(cur, DueOf(s, cur), s.b.now), id);
      if MayRun(CallTimer(s), id) {
        CallNarrows(s, id);
      }
      StaysFaithful(s, CallTimer(s), id, due, every);
    }
  }

  /** A timer that is restarted has run last in this very batch. */
  lemma RestartedHasRun(s: State)
    requires RanOk(s) && Balanced(s) && BatchOk(s.b) && Enabled(s, Restart) && s.b.expired[s.b.i] in s.live
    ensures var runs := RunsOf(s.log, s.b.expired[s.b.i]); runs != [] && runs[|runs| - 1].now == s.b.now
  {
    var id, b := s.b.expired[s.b.i], s.b;
    CurrentIsOut(s);
    assert id in b.keep && id in b.ran;
    var k :| 0 <= k < |b.ran| && b.ran[k] == id;
    forall j | b.logAt + k <= j < |s.log| ensures s.log[j].now == b.now {
      var i := j - b.logAt;
      assert s.log[b.logAt + i].id == b.ran[i];
    }
    assert s.log[b.logAt + k].id == b.ran[k];
    LastRun(s.log, b.logAt + k, id, b.now);
  }

  lemma FaithfulRestart(s: State, id: TimerId, due: Time, every: int)
    requires RanOk(s) && Balanced(s) && PlacesOk(s) && BatchOk(s.b) && Enabled(s, Restart) && Faithful(s, id, due, every)
    ensures Faithful(RestartTimer(s), id, due, every)
  {
    var cur := s.b.expired[s.b.i];
    CurrentIsOut(s);
    RestartHeap(s);
    RestartBatch(s);
    if cur == id && id in s.live {
      RestartedHasRun(s);
    } else {
      StaysFaithful(s, RestartTimer(s), id, due, every);
    }
  }

  lemma FaithfulPop(s: State, top: TimerId, id: TimerId, due: Time, every: int)
    requires s.b.stage == Popping && top in s.heap && Faithful(s, id, due, every)
    ensures Faithful(PopTimer(s, top), id, due, every)
  {
  }

  lemma FaithfulEndPop(s: State, id: TimerId, due: Time, every: int)
    requires BatchOk(s.b) && s.b.stage == Popping && Faithful(s, id, due, every)
    ensures Faithful(s.(b := s.b.(stage := Calling)), id, due, every)
  {
    assert s.b.expired[0..] == s.b.expired;
  }

  lemma FaithfulOther(s: State, a: Action, id: TimerId, due: Time, every: int)
    requires Enabled(s, a) && Faithful(s, id, due, every)
    requires a.Cancel? || a.BeginRead? || a.EndCalls? || a.EndReset? || a.Recreate? || a.Return?
    ensures Faithful(Apply(s, a), id, due, every)
  {
    var t := Apply(s, a);
    assert t.log == s.log && t.when == s.when && t.interval == s.interval;
    assert MayRun(t, id) ==> MayRun(s, id);
  }

  lemma FaithfulStep(s: State, a: Action, id: TimerId, due: Time, every: int)
    requires Inv(s) && RanOk(s) && Enabled(s, a) && Faithful(s, id, due, every)
    ensures Faithful(Apply(s, a), id, due, every)
  {
    match a
    case Add(_, _, _, _, _) =>
    case Pop(top) => FaithfulPop(s, top.value, id, due, every);
    case EndPop(_) => FaithfulEndPop(s, id, due, every);
    case Call => FaithfulCall(s, id, due, every);
    case Restart => FaithfulRestart(s, id, due, every);
    case _ => FaithfulOther(s, a, id, due, every);
  }

  /** A timer keeps the interval it was added with, its first run is due at the time it was added for,
      and each later one an interval after the run before. */
  lemma {:induction false} AddedTimersKeepTheirTimes(clock: Time, run: seq<Action>, s: State, k: nat)
    requires Exec(Initial(clock), run) == Some(s) && k < |run| && run[k].Add?
    ensures Faithful(s, run[k].id, run[k].due, run[k].every)
  {
    var front := run[..|run| - 1];
    var s0, last := Peel(Initial(clock), run, s);
    RunInv(Initial(clock), front, s0);
    RanExactly(clock, front, s0);
    if k == |front| {
      FaithfulAdd(s0, last.id, last.due, last.every, last.top, last.arm);
    } else {
      AddedTimersKeepTheirTimes(clock, front, s0, k);
      FaithfulStep(s0, last, run[k].id, run[k].due, run[k].every);
    }
  }

  // ------------------------------------------------------------------ which timers are live

  /** A one-shot that has run, and is through with the batch it ran in. */
  predicate Spent(s: State, id: TimerId, every: int) {
    every <= 0 && RunsOf(s.log, id) != [] && id !in s.b.out
  }

  /** No one-shot that may still run has run before. */
  lemma WaitingIsUnspent(s: State, id: TimerId)
    requires NextOk(s) && MayRun(s, id) && EveryOf(s, id) <= 0
    ensures RunsOf(s.log, id) == []
  {
    RunsMember(s.log, id);
  }

  /** `id` is live exactly if it is not cancelled and not spent. */
  ghost predicate LiveIff(s: State, id: TimerId, every: int, cancelled: bool) {
    id in s.when && EveryOf(s, id) == every && (id in s.live <==> !cancelled && !Spent(s, id, every))
  }

  lemma LiveOther(s: State, a: Action)
    requires Enabled(s, a) && !a.Add? && !a.Pop? && !a.Call? && !a.Restart?
    ensures var t := Apply(s, a);
            && t.when == s.when && t.interval == s.interval && t.log == s.log
            && t.live == (if a.Cancel? then s.live - {a.id} else s.live)
            && (!a.BeginRead? ==> t.b.out == s.b.out)
  {
  }

  lemma LiveAdd(s: State, a: Action, id: TimerId, every: int, cancelled: bool)
    requires a.Add? && Enabled(s, a) && LiveIff(s, id, every, cancelled)
    ensures LiveIff(Apply(s, a), id, every, cancelled)
  {
    var t := Apply(s, a);
    assert a.id != id && t.log == s.log && t.b.out == s.b.out && t.live == s.live + {a.id};
  }

  lemma LiveAfterCall(s: State, id: TimerId, every: int, cancelled: bool)
    requires BatchOk(s.b) && Enabled(s, Call) && LiveIff(s, id, every, cancelled)
    ensures LiveIff(CallTimer(s), id, every, cancelled)
  {
    LiveCall(s, id);
    assert CallTimer(s).when == s.when;
  }

  lemma LiveAfterPop(s: State, top: TimerId, id: TimerId, every: int, cancelled: bool)
    requires NextOk(s) && s.b.stage == Popping && top in s.heap && LiveIff(s, id, every, cancelled)
    ensures LiveIff(PopTimer(s, top), id, every, cancelled)
  {
    WaitingPops(s, top, id);
  }

  lemma LiveAfterRestart(s: State, id: TimerId, every: int, cancelled: bool)
    requires RanOk(s) && Balanced(s) && PlacesOk(s) && BatchOk(s.b) && Enabled(s, Restart) && LiveIff(s, id, every, cancelled)
    ensures LiveIff(RestartTimer(s), id, every, cancelled)
  {
    LiveRestart(s, id);
    assert id in RestartTimer(s).when;
  }

  lemma LiveStep(s: State, a: Action, id: TimerId, every: int, cancelled: bool)
    requires Inv(s) && RanOk(s) && Enabled(s, a) && LiveIff(s, id, every, cancelled)
    ensures LiveIff(Apply(s, a), id, every, cancelled || a == Cancel(id))
  {
    match a
    case Add(_, _, _, _, _) => LiveAdd(s, a, id, every, cancelled);
    case Call => LiveAfterCall(s, id, every, cancelled);
    case Restart => LiveAfterRestart(s, id, every, cancelled);
    case Pop(top) => LiveAfterPop(s, top.value, id, every, cancelled);
    case BeginRead(_, _) => LiveAfterBegin(s, a, id, every, cancelled);
    case _ => LiveOther(s, a);
  }

  lemma LiveAfterBegin(s: State, a: Action, id: TimerId, every: int, cancelled: bool)
    requires BatchOk(s.b) && a.BeginRead? && Enabled(s, a) && LiveIff(s, id, every, cancelled)
    ensures LiveIff(Apply(s, a), id, every, cancelled)
  {
    LiveOther(s, a);
    assert s.b.out == {} && Apply(s, a).b.out == {};
  }

  lemma WaitingPops(s: State, top: TimerId, id: TimerId)
    requires NextOk(s) && s.b.stage == Popping && top in s.heap
    ensures Spent(PopTimer(s, top), id, EveryOf(s, id)) <==> Spent(s, id, EveryOf(s, id))
  {
    if top == id && EveryOf(s, id) <= 0 {
      WaitingIsUnspent(s, id);
    }
  }

  lemma LiveCall(s: State, id: TimerId)
    requires BatchOk(s.b) && Enabled(s, Call)
    ensures var t := CallTimer(s);
            && t.live == s.live && t.interval == s.interval
            && (Spent(t, id, EveryOf(s, id)) <==> Spent(s, id, EveryOf(s, id)))
  {
    var cur := s.b.expired[s.b.i];
    CurrentIsOut(s);
    if cur in s.live {
      RunsMore(s.log, Run(cur, DueOf(s, cur), s.b.now), id);
    }
  }

  lemma LiveRestart(s: State, id: TimerId)
    requires RanOk(s) && Balanced(s) && PlacesOk(s) && BatchOk(s.b) && Enabled(s, Restart)
    ensures var t, cur := RestartTimer(s), s.b.expired[s.b.i];
            && t.interval == s.interval && t.log == s.log && cur in s.b.out && t.b.out == s.b.out - {cur}
            && (id in t.live <==> id in s.live && !(Spent(t, id, EveryOf(s, id)) && !Spent(s, id, EveryOf(s, id))))
  {
    var cur := s.b.expired[s.b.i];
    CurrentIsOut(s);
    RestartBatch(s);
    assert RestartTimer(s).log == s.log;
    if cur in s.live {
      RestartedHasRun(s);
    }
  }

  lemma StartsLive(clock: Time, run: seq<Action>, s: State, a: Action)
    requires Exec(Initial(clock), run) == Some(s) && a.Add? && Enabled(s, a)
    ensures LiveIff(Apply(s, a), a.id, a.every, false)
  {
    RunInv(Initial(clock), run, s);
    RunsMember(s.log, a.id);
    assert Apply(s, a).log == s.log;
  }

  lemma LiveOnward(clock: Time, run: seq<Action>, s: State, a: Action, id: TimerId, every: int, cancelled: bool)
    requires Exec(Initial(clock), run) == Some(s) && Enabled(s, a) && LiveIff(s, id, every, cancelled)
    ensures LiveIff(Apply(s, a), id, every, cancelled || a == Cancel(id))
  {
    RunInv(Initial(clock), run, s);
    RanExactly(clock, run, s);
    LiveStep(s, a, id, every, cancelled);
  }

  lemma LastOrBefore(front: seq<Action>, last: Action, run: seq<Action>, k: nat, a: Action)
    requires run == front + [last] && k <= |front|
    ensures a in run[k..] <==> a in front[k..] || last == a
  {
    assert run[k..] == front[k..] + [last];
  }

  /** In every run a timer is live exactly if it was not invalidated after it was added, and is not a
      one-shot that has run. */
  lemma {:induction false} LiveExactly(clock: Time, run: seq<Action>, s: State, k: nat)
    requires Exec(Initial(clock), run) == Some(s) && k < |run| && run[k].Add?
    ensures LiveIff(s, run[k].id, run[k].every, Cancel(run[k].id) in run[k + 1..])
  {
    var front := run[..|run| - 1];
    var s0, last := Peel(Initial(clock), run, s);
    if k == |front| {
      StartsLive(clock, front, s0, last);
      assert run[k + 1..] == [];
    } else {
      LiveExactly(clock, front, s0, k);
      LiveOnward(clock, front, s0, last, run[k].id, run[k].every, Cancel(run[k].id) in front[k + 1..]);
      LastOrBefore(front, last, run, k + 1, Cancel(run[k].id));
    }
  }

  lemma {:induction false} PrefixRuns(s: State, run: seq<Action>, k: nat)
    requires Exec(s, run).Some? && k <= |run|
    ensures Exec(s, run[..k]).Some?
  {
    if k == |run| {
      assert run[..k] == run;
    } else {
      PrefixRuns(s, run[..|run| - 1], k);
      assert run[..|run| - 1][..k] == run[..k];
    }
  }

  lemma StepAt(s: State, run: seq<Action>, k: nat, mid: State)
    requires Exec(s, run).Some? && k < |run| && Exec(s, run[..k]) == Some(mid)
    ensures Enabled(mid, run[k]) && Exec(s, run[..k + 1]) == Some(Apply(mid, run[k]))
  {
    var prefix := run[..k + 1];
    PrefixRuns(s, run, k + 1);
    assert prefix[..|prefix| - 1] == run[..k];
    var s0, last := Peel(s, prefix, Exec(s, prefix).value);
    assert s0 == mid && last == run[k];
  }

  /** A timer invalidated after it was added never runs again, whatever follows. */
  lemma CancelIsFinal(clock: Time, run: seq<Action>, s: State, k: nat, s0: State, j: nat)
    requires Exec(Initial(clock), run) == Some(s) && j < k < |run| && Exec(Initial(clock), run[..k]) == Some(s0)
    requires run[j].Add? && run[k] == Cancel(run[j].id)
    ensures s0.log <= s.log && forall r :: r in s.log[|s0.log|..] ==> r.id != run[j].id
  {
    AddedTimersKeepTheirTimes(clock, run[..k], s0, j);
    StepAt(Initial(clock), run, k, s0);
    LiveOther(s0, run[k]);
    OnlyLiveTimersRun(clock, run[..k + 1], Apply(s0, run[k]), run, s);
  }
}
