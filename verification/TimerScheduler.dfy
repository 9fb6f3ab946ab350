/** The class of time/TimerQueue.cpp: fields updated in place, the clock and the callbacks arbitrary.
    Every method is a run of the step machine in module TimerQueue, so what holds of all its runs
    holds of the class. */
module TimerScheduler {
  import opened Options
  import T = TimerQueue

  lemma LeastKey(heap: T.Heap) returns (least: T.TimerId)
    requires heap != map[]
    ensures least in heap && forall j :: j in heap ==> heap[least] <= heap[j]
    decreases |heap|
  {
    var id :| id in heap;
    var rest := heap - {id};
    assert forall j :: j in heap ==> j == id || j in rest;
    if rest == map[] {
      least := id;
    } else {
      var other := LeastKey(rest);
      least := if heap[id] <= heap[other] then id else other;
    }
  }

  /** What a completed `handleRead` leaves behind. */
  lemma AfterHandleRead(start: T.Time, before: seq<T.Action>, s: T.State, after: seq<T.Action>, t: T.State)
    requires before <= after && t.b.stage == T.Idle
    requires T.Exec(T.Initial(start), before) == Some(s) && T.Exec(T.Initial(start), after) == Some(t)
    ensures t.live <= t.heap.Keys && t.heap.Keys <= t.when.Keys
    ensures t.heap != map[] ==> t.fd.Armed?
    ensures forall id :: id in t.heap ==> t.fd.Armed? && t.fd.expiry <= T.Deadline(T.DueIn(t.when, id), t.lastArm)
    ensures s.log <= t.log && forall r :: r in t.log[|s.log|..] ==> !(r.id in s.when && r.id !in s.live)
    ensures T.RanOk(t) && t.b.now <= t.clock && (t.fd.Armed? ==> t.fd.expiry > t.b.now)
  {
    T.RanExactly(start, after, t);
    T.RunInv(T.Initial(start), after, t);
    T.LiveTimersAreQueued(start, after, t);
    T.NeverStranded(start, after, t);
    T.OnlyLiveTimersRun(start, before, s, after, t);
  }

  class Scheduler {
    var timers: T.Heap
    var timerIds: set<T.TimerId>
    var when: map<T.TimerId, T.Time>
    var interval: map<T.TimerId, int>
    var timerfd: T.Fd
    var clock: T.Time
    ghost var lastArm: T.Arming
    ghost var batch: T.Batch
    ghost var log: seq<T.Run>
    ghost var twice: bool
    ghost const start: T.Time
    ghost var history: seq<T.Action>

    ghost function S(): T.State
      reads this
    {
      T.State(when, interval, timers, timerIds, timerfd, lastArm, clock, batch, log, twice)
    }

    /** The object is in a state the step machine reaches, by the steps recorded in `history`. */
    ghost predicate Valid()
      reads this
    {
      T.Exec(T.Initial(start), history) == Some(S())
    }

    constructor (now: T.Time)
      ensures Valid() && S() == T.Initial(now)
    {
      timers, timerIds, when, interval := map[], {}, map[], map[];
      timerfd, clock, lastArm := T.Disarmed, now, T.Arming(now, now);
      batch, log, twice := T.Initial(now).b, [], false;
      start, history := now, [];
    }

    /** `steady_clock::now()`. */
    method ReadClock() returns (t: T.Time)
      modifies this`clock
      ensures t == clock >= old(clock)
    {
      t := *;
      if t < clock {
        t := clock;
      }
      clock := t;
    }

    /** `timers_.top()`, or None when the heap is empty. */
    method Top() returns (top: Option<T.TimerId>)
      ensures T.IsTop(timers, top)
    {
      if timers == map[] {
        return None;
      }
      ghost var least := LeastKey(timers);
      var id :| id in timers && forall j :: j in timers ==> timers[id] <= timers[j];
      top := Some(id);
    }

    method ResetTimerfd(due: T.Time) returns (ghost arm: T.Arming)
      modifies this`timerfd, this`clock, this`lastArm
      ensures old(clock) <= arm.seen <= arm.armed && S() == T.Rearm(old(S()), due, arm)
    {
      var seen := ReadClock();
      var delay := T.HowMuchTimeFromNow(due, seen);
      var armed := ReadClock();
      timerfd := T.Armed(armed + delay.sec * 1_000_000_000 + delay.nsec);
      arm := T.Arming(seen, armed);
      lastArm := arm;
    }

    /** `insert`: whether the earliest timer changed. */
    method Insert(id: T.TimerId) returns (earliestChanged: bool, ghost top: Option<T.TimerId>)
      requires id in when && timers.Keys <= when.Keys
      modifies this`timers, this`twice
      ensures T.IsTop(old(timers), top)
      ensures earliestChanged <==> top.None? || when[id] < T.DueIn(when, top.value)
      ensures S() == T.Push(old(S()), id)
    {
      var t := Top();
      top := t;
      earliestChanged := t == None || when[id] < when[t.value];
      twice := twice || id in timers;
      timers := timers[id := when[id]];
    }

    method MakeLive(id: T.TimerId, due: T.Time, every: int)
      modifies this`timerIds, this`when, this`interval, this`batch
      ensures var s := old(S());
              S() == s.(live := s.live + {id}, when := s.when[id := due], interval := s.interval[id := every],
                        b := s.b.(added := s.b.added[id := due]))
    {
      timerIds := timerIds + {id};
      when, interval := when[id := due], interval[id := every];
      batch := batch.(added := batch.added[id := due]);
    }

    /** The body of `addTimerInLoop`. */
    method PlaceTimer(id: T.TimerId, due: T.Time, every: int) returns (ghost top: Option<T.TimerId>, ghost arm: T.Arming)
      requires timers.Keys <= when.Keys && id !in when
      modifies this
      ensures T.IsTop(old(timers), top) && T.Later(old(S()), arm)
      ensures S() == T.AddTimer(old(S()), id, due, every, top, arm) && history == old(history)
    {
      MakeLive(id, due, every);
      var earliestChanged, t := Insert(id);
      top, arm := t, T.Arming(clock, clock);
      if earliestChanged {
        arm := ResetTimerfd(due);
      }
      assert top.Some? ==> top.value in old(when);
    }

    /** `addTimerInLoop` of a timer object that was never added before. */
    method AddTimerInLoop(id: T.TimerId, due: T.Time, every: int) returns (ghost a: T.Action)
      requires Valid() && T.UserCode(batch) && id !in when
      modifies this
      ensures a.Add? && a.id == id && a.due == due && a.every == every
      ensures T.Enabled(old(S()), a) && S() == T.Apply(old(S()), a)
      ensures timerIds == old(timerIds) + {id} && timers == old(timers)[id := due]
      ensures when == old(when)[id := due] && interval == old(interval)[id := every]
      ensures Valid() && history == old(history) + [a]
    {
      ghost var s := S();
      T.KnownTimers(start, history, s);
      var top, arm := PlaceTimer(id, due, every);
      a := T.Add(id, due, every, top, arm);
      T.Extend(T.Initial(start), history, s, a);
      history := history + [a];
    }

    /** The function `invalidateTimer` runs in the loop. */
    method InvalidateTimer(id: T.TimerId)
      requires Valid() && T.UserCode(batch)
      modifies this`timerIds, this`history
      ensures T.Enabled(old(S()), T.Cancel(id)) && S() == T.Apply(old(S()), T.Cancel(id))
      ensures timerIds == old(timerIds) - {id}
      ensures Valid() && history == old(history) + [T.Cancel(id)]
    {
      T.Extend(T.Initial(start), history, S(), T.Cancel(id));
      timerIds := timerIds - {id};
      history := history + [T.Cancel(id)];
    }

    /** A user callback: it adds and invalidates any timers it likes, any number of times. */
    method UserCallback()
      requires Valid() && T.UserCode(batch)
      modifies this
      ensures Valid() && old(history) <= history && T.SameBatch(old(batch), batch)
    {
      var steps: nat := *;
      while steps > 0
        invariant Valid() && old(history) <= history && T.SameBatch(old(batch), batch)
      {
        var id: nat, due: int, every: int := *, *, *;
        var add: bool := *;
        if add && id !in when {
          ghost var _ := AddTimerInLoop(id, due, every);
        } else {
          InvalidateTimer(id);
        }
        steps := steps - 1;
      }
    }

    /** `getExpired(now)`. */
    method GetExpired(now: T.Time) returns (expired: seq<T.TimerId>)
      requires Valid() && batch.stage == T.Popping && batch.now == now && batch.expired == []
      modifies this`timers, this`batch, this`history
      ensures Valid() && old(history) <= history
      ensures batch.stage == T.Calling && batch.i == 0 && !batch.inCallback && batch.now == now && batch.expired == expired
      ensures batch.base == old(batch.base) && batch.logAt == old(batch.logAt)
      ensures T.DueBatch(batch.base, expired, now)
    {
      T.KnownTimers(start, history, S());
      expired := [];
      var top := Top();
      while top != None && when[top.value] <= now
        invariant Valid() && old(history) <= history && T.IsTop(timers, top) && timers.Keys <= when.Keys
        invariant batch.stage == T.Popping && batch.i == 0 && !batch.inCallback && batch.expired == expired && batch.now == now
        invariant batch.base == old(batch.base) && batch.logAt == old(batch.logAt)
        decreases |timers|
      {
        expired := expired + [top.value];
        PopTop(top);
        top := Top();
      }
      StopPopping(top);
    }

    /** The test of `getExpired`'s loop fails. */
    ghost method StopPopping(top: Option<T.TimerId>)
      requires Valid() && T.Enabled(S(), T.EndPop(top))
      modifies this`batch, this`history
      ensures Valid() && history == old(history) + [T.EndPop(top)]
      ensures batch == old(batch).(stage := T.Calling)
      ensures T.DueBatch(batch.base, batch.expired, batch.now)
    {
      T.ExpiredExactly(start, history, S(), top);
      T.Extend(T.Initial(start), history, S(), T.EndPop(top));
      batch := batch.(stage := T.Calling);
      history := history + [T.EndPop(top)];
    }

    /** `timers_.pop()`. */
    method PopTop(top: Option<T.TimerId>)
      requires Valid() && T.Enabled(S(), T.Pop(top))
      modifies this`timers, this`batch, this`history
      ensures Valid() && history == old(history) + [T.Pop(top)]
      ensures S() == T.PopTimer(old(S()), top.value) && timers.Keys < old(timers.Keys) && |timers| < |old(timers)|
    {
      T.Extend(T.Initial(start), history, S(), T.Pop(top));
      batch := batch.(expired := batch.expired + [top.value], out := batch.out + {top.value});
      timers := timers - {top.value};
      history := history + [T.Pop(top)];
      assert timers.Keys == old(timers.Keys) - {top.value};
      assert |timers.Keys| == |timers| && |old(timers.Keys)| == |old(timers)|;
    }

    /** The test in `handleRead`'s loop: the callback starts if the timer is still live. */
    method StartCallback(id: T.TimerId) returns (started: bool)
      requires Valid() && T.Enabled(S(), T.Call) && batch.expired[batch.i] == id
      modifies this`log, this`batch, this`history
      ensures Valid() && history == old(history) + [T.Call] && started == (id in timerIds)
      ensures batch == if started then old(batch).(inCallback := true, ran := old(batch.ran) + [id])
                       else old(batch).(i := old(batch).i + 1)
    {
      T.Extend(T.Initial(start), history, S(), T.Call);
      history := history + [T.Call];
      started := TestLive(id);
    }

    method TestLive(id: T.TimerId) returns (live: bool)
      requires batch.i < |batch.expired| && batch.expired[batch.i] == id
      modifies this`log, this`batch
      ensures live == (id in timerIds) && S() == T.CallTimer(old(S()))
      ensures batch == if live then old(batch).(inCallback := true, ran := old(batch.ran) + [id])
                       else old(batch).(i := old(batch).i + 1)
    {
      live := id in timerIds;
      if live {
        log := log + [T.Run(id, T.DueIn(when, id), batch.now)];
        batch := batch.(inCallback := true, ran := batch.ran + [id]);
      } else {
        batch := batch.(i := batch.i + 1);
      }
    }

    /** One round of `handleRead`'s loop. */
    method CallTimer(id: T.TimerId)
      requires Valid() && T.Enabled(S(), T.Call) && batch.expired[batch.i] == id
      modifies this
      ensures Valid() && old(history) <= history
      ensures T.SameBatch(old(batch).(i := old(batch).i + 1, ran := batch.ran), batch)
    {
      var started := StartCallback(id);
      if started {
        UserCallback();
        ReturnFromCallback();
      }
    }

    ghost method ReturnFromCallback()
      requires Valid() && T.Enabled(S(), T.Return)
      modifies this`batch, this`history
      ensures Valid() && history == old(history) + [T.Return]
      ensures batch == old(batch).(i := old(batch).i + 1, inCallback := false)
    {
      ghost var s := S();
      T.Extend(T.Initial(start), history, s, T.Return);
      T.ReturnStep(s);
      batch := batch.(i := batch.i + 1, inCallback := false);
      assert S() == T.Apply(s, T.Return);
      history := history + [T.Return];
    }

    /** The body of `reset`'s loop. */
    method RestartTimer(id: T.TimerId, now: T.Time)
      requires batch.i < |batch.expired| && batch.expired[batch.i] == id && batch.now == now
      requires timers.Keys <= when.Keys && timerIds <= interval.Keys && when.Keys == interval.Keys
      modifies this`timers, this`timerIds, this`when, this`batch, this`twice
      ensures S() == T.RestartTimer(old(S()))
    {
      batch := batch.(i := batch.i + 1, out := batch.out - {id});
      if id in timerIds {
        if interval[id] > 0 {
          when := when[id := now + interval[id] * 1000];
          ghost var _, _ := Insert(id);
        } else {
          timerIds := timerIds - {id};
        }
      }
    }

    method Restart(id: T.TimerId, now: T.Time)
      requires Valid() && T.Enabled(S(), T.Restart) && batch.expired[batch.i] == id && batch.now == now
      modifies this`timers, this`timerIds, this`when, this`batch, this`twice, this`history
      ensures Valid() && history == old(history) + [T.Restart] && S() == T.RestartTimer(old(S()))
      ensures batch == old(batch).(i := old(batch.i) + 1, out := old(batch.out) - {id})
    {
      T.RestartBatch(S());
      T.KnownTimers(start, history, S());
      T.Extend(T.Initial(start), history, S(), T.Restart);
      history := history + [T.Restart];
      RestartTimer(id, now);
    }

    /** `reset(expired, now)`. */
    method ResetExpired(expired: seq<T.TimerId>, now: T.Time)
      requires Valid() && batch.stage == T.Resetting && batch.i == 0 && batch.expired == expired && batch.now == now
      modifies this
      ensures Valid() && old(history) <= history && batch == old(batch).(stage := T.Idle, i := |expired|, out := batch.out)
      ensures T.Conserved(timers, batch, interval)
    {
      for i := 0 to |expired|
        invariant Valid() && old(history) <= history
        invariant batch == old(batch).(i := i, out := batch.out)
      {
        Restart(expired[i], now);
      }
      ArmEarliest();
    }

    /** The end of `reset`: arm the timerfd for the earliest timer, if there is one. */
    method ArmEarliest()
      requires Valid() && batch.stage == T.Resetting && batch.i >= |batch.expired|
      modifies this
      ensures Valid() && old(history) <= history && batch == old(batch).(stage := T.Idle)
      ensures T.Conserved(timers, batch, interval)
    {
      ghost var s := S();
      T.HandleReadConserves(start, history, s);
      T.KnownTimers(start, history, s);
      var top := Top();
      ghost var arm := T.Arming(clock, clock);
      batch := batch.(stage := T.Idle);
      if top != None {
        arm := ResetTimerfd(when[top.value]);
      }
      T.Extend(T.Initial(start), history, s, T.EndReset(top, arm));
      history := history + [T.EndReset(top, arm)];
    }

    /** `handleRead` up to the read of the timerfd. */
    method ReadTimerfd() returns (now: T.Time)
      requires Valid() && batch.stage == T.Idle
      modifies this`clock, this`timerfd, this`batch, this`history
      ensures Valid() && old(history) <= history
      ensures batch.stage == T.Popping && batch.now == now && batch.expired == [] && batch.base == old(timers)
      ensures batch.logAt == |old(log)| && old(clock) <= now
    {
      ghost var s := S();
      now := ReadClock();
      var readAt := ReadClock();
      if timerfd.Armed? && timerfd.expiry <= readAt {
        timerfd := T.Disarmed;
      }
      batch := T.BeginBatch(s, now, readAt).b;
      T.Extend(T.Initial(start), history, s, T.BeginRead(now, readAt));
      history := history + [T.BeginRead(now, readAt)];
    }

    /** `handleRead`, whatever the callbacks and the clock do.  The batch is exactly the timers due, in
        order; those run are a part of it in the same order, and whatever of it is live when the
        callbacks are over (`batch.keep`) has run. */
    method HandleRead()
      requires Valid() && batch.stage == T.Idle
      modifies this
      ensures Valid() && old(history) <= history && batch.stage == T.Idle
      ensures batch.base == old(timers) && T.Conserved(timers, batch, interval)
      ensures timerIds <= timers.Keys && timers.Keys <= when.Keys
      ensures timers != map[] ==> timerfd.Armed?
      ensures forall id :: id in timers ==> timerfd.Armed? && timerfd.expiry <= T.Deadline(T.DueIn(when, id), lastArm)
      ensures timerfd.Armed? ==> timerfd.expiry > batch.now
      ensures old(log) <= log
      ensures forall r :: r in log[|old(log)|..] ==> !old(r.id in when && r.id !in timerIds)
      ensures old(clock) <= batch.now <= clock && T.DueBatch(old(timers), batch.expired, batch.now)
      ensures T.LogOk(log, |old(log)|, batch.ran, batch.now)
      ensures T.Within(batch.ran, batch.expired)
      ensures forall id :: id in batch.expired && id in batch.keep ==> id in batch.ran
    {
      ghost var before := S();
      var now := ReadTimerfd();
      var expired := GetExpired(now);
      CallExpired(expired, now);
      ResetExpired(expired, now);
      AfterHandleRead(start, old(history), before, history, S());
      assert batch.expired[..|batch.expired|] == batch.expired;
    }

    /** The loop over the expired timers. */
    method CallExpired(expired: seq<T.TimerId>, now: T.Time)
      requires Valid() && batch.stage == T.Calling && batch.i == 0 && !batch.inCallback
      requires batch.expired == expired && batch.now == now
      modifies this
      ensures Valid() && old(history) <= history
      ensures batch.stage == T.Resetting && batch.i == 0 && batch.expired == expired && batch.now == now
      ensures batch.base == old(batch.base) && batch.logAt == old(batch.logAt) && batch.keep == timerIds
    {
      for i := 0 to |expired|
        invariant Valid() && old(history) <= history
        invariant batch.stage == T.Calling && batch.i == i && !batch.inCallback && batch.expired == expired && batch.now == now
        invariant batch.base == old(batch.base) && batch.logAt == old(batch.logAt)
      {
        CallTimer(expired[i]);
      }
      T.Extend(T.Initial(start), history, S(), T.EndCalls);
      batch := batch.(stage := T.Resetting, i := 0, keep := timerIds);
      history := history + [T.EndCalls];
    }

    /** `reset()`, which replaces the timerfd by a new one and arms it for the earliest timer. */
    method Recreate()
      requires Valid() && batch.stage == T.Idle
      modifies this`timerfd, this`clock, this`lastArm, this`history
      ensures Valid() && old(history) <= history && batch.stage == T.Idle
      ensures timers == map[] ==> timerfd == T.Disarmed
      ensures forall id :: id in timers ==> timerfd.Armed? && timerfd.expiry <= T.Deadline(T.DueIn(when, id), lastArm)
    {
      ghost var s := S();
      T.KnownTimers(start, history, s);
      timerfd := T.Disarmed;
      var top := Top();
      ghost var arm := T.Arming(clock, clock);
      if top != None {
        arm := ResetTimerfd(when[top.value]);
      }
      T.Extend(T.Initial(start), history, s, T.Recreate(top, arm));
      history := history + [T.Recreate(top, arm)];
      T.NeverStranded(start, history, S());
    }
  }
}
