/** The timer scheduler of time/TimerQueue.cpp and time/Timer.cpp, on the loop thread.

    Times are integer nanoseconds of the steady clock, intervals integer microseconds.  The priority
    queue is abstract: it maps each timer in it to the key it was ordered by when it was pushed, and
    its top is any timer of least key.  `when` holds the mutable `when_` of every timer ever added.
    Pushing a timer that is already in the heap sets `twice`. */
module TimerQueue {
  import opened Options

  type TimerId = nat
  type Time = int

  type Heap = map<TimerId, Time>

  /** One execution of a callback: the timer, its due time, and the `now` of the `handleRead` that ran it. */
  datatype Run = Run(id: TimerId, due: Time, now: Time)

  datatype Fd = Disarmed | Armed(expiry: Time)

  /** The clock readings of the last arming: in `howMuchTimeFromNow`, and inside `timerfd_settime`. */
  datatype Arming = Arming(seen: Time, armed: Time)

  // ------------------------------------------------------------------ arming the timerfd

  datatype Timespec = Timespec(sec: int, nsec: int)

  /** Integer division of C++: it truncates toward zero. */
  function TruncDiv(a: int, b: int): int
    requires b > 0
  {
    if a >= 0 then a / b else -((-a) / b)
  }

  function HowMuchTimeFromNow(when: Time, now: Time): Timespec {
    var micros := TruncDiv(when - now, 1000);
    var atLeast := if micros < 100 then 100 else micros;
    Timespec(atLeast / 1_000_000, (atLeast % 1_000_000) * 1000)
  }

  function Nanos(ts: Timespec): int {
    ts.sec * 1_000_000_000 + ts.nsec
  }

  /** The relative time handed to the kernel is well formed, never the zero that would disarm the
      timer, and overshoots neither the due time nor the 100 microsecond minimum. */
  lemma ArmingDelay(when: Time, now: Time)
    ensures var ts := HowMuchTimeFromNow(when, now);
            && ts.sec >= 0 && 0 <= ts.nsec < 1_000_000_000
            && 100_000 <= Nanos(ts)
            && now + Nanos(ts) <= (if when <= now + 100_000 then now + 100_000 else when)
            && (when >= now + 100_000 ==> when < now + Nanos(ts) + 1000)
  {
    var micros := TruncDiv(when - now, 1000);
    var atLeast := if micros < 100 then 100 else micros;
    assert Nanos(HowMuchTimeFromNow(when, now)) == atLeast * 1000;
  }

  /** Latest expiry an arming made at `a` may have for a timer due at `key`: the due time or the
      minimum delay, plus the time that passed between the two clock readings. */
  function Deadline(key: Time, a: Arming): Time {
    (if key <= a.seen + 100_000 then a.seen + 100_000 else key) + (a.armed - a.seen)
  }

  // ------------------------------------------------------------------ state and steps

  datatype Stage = Idle | Popping | Calling | Resetting

  /** Where `handleRead` stands, and what it holds: the timers taken out of the heap, the position of
      the loop over them, and those (`out`) `reset` has not dealt with yet.  For the record it also
      keeps the heap it found, what callbacks have pushed since, the live ids when the reset loop
      began, the length of the log when it started and the timers it has run. */
  datatype Batch = Batch(
    stage: Stage, now: Time, expired: seq<TimerId>, i: nat, inCallback: bool,
    out: set<TimerId>, base: Heap, added: Heap, keep: set<TimerId>, logAt: nat, ran: seq<TimerId>)

  datatype State = State(
    when: map<TimerId, Time>, interval: map<TimerId, int>, heap: Heap, live: set<TimerId>,
    fd: Fd, lastArm: Arming, clock: Time, b: Batch, log: seq<Run>, twice: bool)

  datatype Action =
    | Add(id: TimerId, due: Time, every: int, top: Option<TimerId>, arm: Arming)
    | Cancel(id: TimerId)
    | BeginRead(now: Time, readAt: Time)
    | Pop(top: Option<TimerId>)
    | EndPop(top: Option<TimerId>)
    | Call | Return | EndCalls
    | Restart
    | EndReset(top: Option<TimerId>, arm: Arming)
    | Recreate(top: Option<TimerId>, arm: Arming)

  function Initial(clock: Time): State {
    State(map[], map[], map[], {}, Disarmed, Arming(clock, clock), clock,
          Batch(Idle, clock, [], 0, false, {}, map[], map[], {}, 0, []), [], false)
  }

  ghost predicate IsTop(heap: Heap, top: Option<TimerId>) {
    match top
    case None => heap == map[]
    case Some(id) => id in heap && forall j :: j in heap ==> heap[id] <= heap[j]
  }

  /** `when()` of a timer, and its interval. */
  function DueIn(when: map<TimerId, Time>, id: TimerId): Time {
    if id in when then when[id] else 0
  }

  function DueOf(s: State, id: TimerId): Time {
    DueIn(s.when, id)
  }

  function EveryOf(s: State, id: TimerId): int {
    if id in s.interval then s.interval[id] else 0
  }

  function Rearm(s: State, due: Time, arm: Arming): State {
    s.(fd := Armed(arm.armed + Nanos(HowMuchTimeFromNow(due, arm.seen))), lastArm := arm, clock := arm.armed)
  }

  function ArmTop(s: State, top: Option<TimerId>, arm: Arming): State {
    if top.Some? then Rearm(s, DueOf(s, top.value), arm) else s
  }

  function Push(s: State, id: TimerId): State {
    s.(heap := s.heap[id := DueOf(s, id)], twice := s.twice || id in s.heap)
  }

  predicate Later(s: State, arm: Arming) {
    s.clock <= arm.seen <= arm.armed
  }

  /** User code runs on the loop outside `handleRead`, or inside one of its callbacks. */
  predicate UserCode(b: Batch) {
    b.stage == Idle || (b.stage == Calling && b.inCallback)
  }

  ghost predicate Enabled(s: State, a: Action) {
    match a
    case Add(id, _, _, top, arm) => UserCode(s.b) && id !in s.when && IsTop(s.heap, top) && Later(s, arm)
    case Cancel(_) => UserCode(s.b)
    case BeginRead(now, readAt) => s.b.stage == Idle && s.clock <= now <= readAt
    case Pop(top) => s.b.stage == Popping && IsTop(s.heap, top) && top.Some? && DueOf(s, top.value) <= s.b.now
    case EndPop(top) => s.b.stage == Popping && IsTop(s.heap, top) && (top.Some? ==> DueOf(s, top.value) > s.b.now)
    case Call => s.b.stage == Calling && !s.b.inCallback && s.b.i < |s.b.expired|
    case Return => s.b.stage == Calling && s.b.inCallback
    case EndCalls => s.b.stage == Calling && !s.b.inCallback && s.b.i >= |s.b.expired|
    case Restart => s.b.stage == Resetting && s.b.i < |s.b.expired|
    case EndReset(top, arm) => s.b.stage == Resetting && s.b.i >= |s.b.expired| && IsTop(s.heap, top) && Later(s, arm)
    case Recreate(top, arm) => s.b.stage == Idle && IsTop(s.heap, top) && Later(s, arm)
  }

  /** `addTimerInLoop`: insert, and arm the timerfd when the new timer is the earliest. */
  function AddTimer(s: State, id: TimerId, due: Time, every: int, top: Option<TimerId>, arm: Arming): State {
    var s' := Push(s.(live := s.live + {id}, when := s.when[id := due], interval := s.interval[id := every],
                      b := s.b.(added := s.b.added[id := due])), id);
    if top.None? || due < DueOf(s, top.value) then Rearm(s', due, arm) else s'
  }

  /** `handleRead` up to the read of the timerfd, which clears a timer that has expired by then. */
  function BeginBatch(s: State, now: Time, readAt: Time): State {
    s.(clock := readAt, b := Batch(Popping, now, [], 0, false, {}, s.heap, map[], {}, |s.log|, []),
       fd := if s.fd.Armed? && s.fd.expiry <= readAt then Disarmed else s.fd)
  }

  /** One round of `getExpired`'s loop. */
  function PopTimer(s: State, id: TimerId): State {
    s.(heap := s.heap - {id}, b := s.b.(expired := s.b.expired + [id], out := s.b.out + {id}))
  }

  /** One round of `handleRead`'s loop, up to the start of the callback if the timer is still live. */
  function CallTimer(s: State): State
    requires s.b.i < |s.b.expired|
  {
    var id := s.b.expired[s.b.i];
    if id in s.live
    then s.(log := s.log + [Run(id, DueOf(s, id), s.b.now)], b := s.b.(inCallback := true, ran := s.b.ran + [id]))
    else s.(b := s.b.(i := s.b.i + 1))
  }

  /** One round of `reset`'s loop: a live repeating timer is restarted and pushed again, a live one-shot is dropped. */
  function RestartTimer(s: State): State
    requires s.b.i < |s.b.expired|
  {
    var id := s.b.expired[s.b.i];
    var s' := s.(b := s.b.(i := s.b.i + 1, out := s.b.out - {id}));
    if id !in s.live then s'
    else if EveryOf(s, id) > 0 then Push(s'.(when := s.when[id := s.b.now + EveryOf(s, id) * 1000]), id)
    else s'.(live := s.live - {id})
  }

  ghost function Apply(s: State, a: Action): State
    requires Enabled(s, a)
  {
    match a
    case Add(id, due, every, top, arm) => AddTimer(s, id, due, every, top, arm)
    case Cancel(id) => s.(live := s.live - {id})
    case BeginRead(now, readAt) => BeginBatch(s, now, readAt)
    case Pop(top) => PopTimer(s, top.value)
    case EndPop(_) => s.(b := s.b.(stage := Calling))
    case Call => CallTimer(s)
    case Return => s.(b := s.b.(i := s.b.i + 1, inCallback := false))
    case EndCalls => s.(b := s.b.(stage := Resetting, i := 0, keep := s.live))
    case Restart => RestartTimer(s)
    case EndReset(top, arm) => ArmTop(s.(b := s.b.(stage := Idle)), top, arm)
    case Recreate(top, arm) => ArmTop(s.(fd := Disarmed), top, arm)
  }

  ghost function Exec(s: State, run: seq<Action>): Option<State> {
    if run == [] then Some(s) else
    match Exec(s, run[..|run| - 1])
    case None => None
    case Some(s') => if Enabled(s', run[|run| - 1]) then Some(Apply(s', run[|run| - 1])) else None
  }

  // ------------------------------------------------------------------ invariant

  /** No timer is pushed twice or while it is in a batch, its key in the heap is its due time still
      (keys are mutated only outside the heap), and every live timer is in exactly one place. */
  ghost predicate PlacesOk(s: State) {
    && !s.twice
    && s.when.Keys == s.interval.Keys
    && (forall id :: id in s.heap ==> id in s.when && s.heap[id] == s.when[id])
    && s.heap.Keys !! s.b.out
    && s.b.out <= s.when.Keys
    && s.live <= s.heap.Keys + s.b.out
  }

  ghost predicate NoRepeats(ids: seq<TimerId>) {
    forall j, k :: 0 <= j < k < |ids| ==> ids[j] != ids[k]
  }

  /** The first member of the batch `reset` has not dealt with. */
  function Front(b: Batch): nat {
    if b.stage == Resetting then b.i else 0
  }

  ghost predicate BatchOk(b: Batch) {
    if b.stage == Idle then b.out == {} else
      && NoRepeats(b.expired)
      && (b.stage == Popping ==> b.i == 0 && !b.inCallback)
      && b.i + (if b.stage == Calling && b.inCallback then 1 else 0) <= |b.expired|
      && forall id :: id in b.out <==> id in b.expired[Front(b)..]
  }

  /** The batch is due and in nondecreasing order, ahead of everything left in the heap. */
  ghost predicate SortedOk(s: State) {
    && (s.b.stage == Popping || s.b.stage == Calling ==> Sorted(s.when, s.b.expired, s.b.now))
    && (s.b.stage == Popping ==> Ahead(s.when, s.b.expired, s.heap))
  }

  ghost predicate Sorted(when: map<TimerId, Time>, ids: seq<TimerId>, now: Time) {
    forall j, k :: 0 <= j <= k < |ids| ==> DueIn(when, ids[j]) <= DueIn(when, ids[k]) <= now
  }

  ghost predicate Ahead(when: map<TimerId, Time>, ids: seq<TimerId>, heap: Heap) {
    forall j, id :: 0 <= j < |ids| && id in heap ==> DueIn(when, ids[j]) <= heap[id]
  }

  /** Armed for the earliest timer: by every deadline, and less than a microsecond ahead of one. */
  ghost predicate ArmedOk(heap: Heap, fd: Fd, a: Arming) {
    heap != map[] ==>
      && fd.Armed? && (forall id :: id in heap ==> fd.expiry <= Deadline(heap[id], a))
      && (exists id :: id in heap && Deadline(heap[id], a) < fd.expiry + 1000)
  }

  /** And an expiry that a `handleRead` has seen is gone from the timerfd. */
  ghost predicate FdOk(s: State) {
    && (s.b.stage == Idle ==> ArmedOk(s.heap, s.fd, s.lastArm))
    && (s.fd.Armed? ==> s.fd.expiry > s.b.now)
  }

  /** A run of timer `id` at `now` allows another one at `later`. */
  predicate Spaced(interval: map<TimerId, int>, id: TimerId, now: Time, later: Time) {
    id in interval && interval[id] > 0 && now + interval[id] * 1000 <= later
  }

  /** Every logged run was due, and no run is later than the batch in progress. */
  ghost predicate RunsOk(s: State) {
    && s.b.now <= s.clock
    && forall r :: r in s.log ==> r.id in s.interval && r.due <= r.now <= (if s.b.stage == Idle then s.clock else s.b.now)
  }

  ghost predicate Apart(log: seq<Run>, interval: map<TimerId, int>) {
    forall j, k :: 0 <= j < k < |log| && log[j].id == log[k].id ==> Spaced(interval, log[j].id, log[j].now, log[k].now)
  }

  /** The timers that may still run: those in the heap, and the batch from the next callback on. */
  predicate MayRun(s: State, id: TimerId) {
    id in s.heap || (s.b.stage == Popping && id in s.b.out) ||
    (s.b.stage == Calling && id in s.b.expired[Min(if s.b.inCallback then s.b.i + 1 else s.b.i, |s.b.expired|)..])
  }

  function Min(a: nat, b: nat): nat {
    if a < b then a else b
  }

  /** Whatever may still run is due an interval after its last run. */
  ghost predicate NextOk(s: State) {
    forall r :: r in s.log && MayRun(s, r.id) ==> Spaced(s.interval, r.id, r.now, DueOf(s, r.id))
  }

  /** The timers of `ids` that `reset` pushes back, with their new due times. */
  function Renewed(ids: set<TimerId>, keep: set<TimerId>, interval: map<TimerId, int>, now: Time): Heap {
    map id | id in ids && id in keep && id in interval && interval[id] > 0 :: now + interval[id] * 1000
  }

  function Members(ids: seq<TimerId>): set<TimerId> {
    set id | id in ids
  }

  /** The heap at any point of `handleRead`, from the heap it found. */
  ghost predicate Balanced(s: State) {
    var b := s.b;
    match b.stage
    case Idle => true
    case Popping =>
      && b.out <= b.base.Keys && s.heap == b.base - b.out && b.added == map[]
      && forall id :: id in b.base ==> b.base[id] == DueOf(s, id)
    case Calling => b.out <= b.base.Keys && b.added.Keys !! b.base.Keys && s.heap == (b.base - b.out) + b.added
    case Resetting =>
      && s.heap == (b.base - Members(b.expired)) + b.added + Renewed(Members(b.expired) - b.out, b.keep, s.interval, b.now)
      && forall id :: id in b.out ==> (id in s.live <==> id in b.keep)
  }

  ghost predicate Inv(s: State) {
    PlacesOk(s) && BatchOk(s.b) && SortedOk(s) && FdOk(s) && RunsOk(s) && Apart(s.log, s.interval) && NextOk(s) && Balanced(s)
  }

  // ---- the members of the batch

  /** The batch members still owed a reset are the first one and the rest. */
  lemma FrontSplit(ids: seq<TimerId>, i: nat, id: TimerId)
    requires i < |ids| && NoRepeats(ids)
    ensures id in ids[i..] <==> id == ids[i] || id in ids[i + 1..]
    ensures id in ids[i + 1..] ==> id != ids[i]
  {
    assert ids[i..] == [ids[i]] + ids[i + 1..];
    if id in ids[i + 1..] {
      var k :| i + 1 <= k < |ids| && ids[k] == id;
    }
  }

  lemma CurrentIsOut(s: State)
    requires BatchOk(s.b) && s.b.stage != Idle && Front(s.b) <= s.b.i < |s.b.expired|
    ensures s.b.expired[s.b.i] in s.b.out
  {
    assert s.b.expired[Front(s.b)..][s.b.i - Front(s.b)] == s.b.expired[s.b.i];
  }

  lemma RestartBatch(s: State)
    requires s.b.i < |s.b.expired|
    ensures RestartTimer(s).b == s.b.(i := s.b.i + 1, out := s.b.out - {s.b.expired[s.b.i]})
    ensures RestartTimer(s).interval == s.interval
  {
    var id := s.b.expired[s.b.i];
    var b := s.b.(i := s.b.i + 1, out := s.b.out - {id});
    if id !in s.live {
      assert RestartTimer(s) == s.(b := b);
    } else if EveryOf(s, id) > 0 {
      assert RestartTimer(s) == Push(s.(b := b, when := s.when[id := s.b.now + EveryOf(s, id) * 1000]), id);
    } else {
      assert RestartTimer(s) == s.(b := b, live := s.live - {id});
    }
  }

  // ---- each part of the invariant, for the steps that touch it

  lemma PlacesAdd(s: State, id: TimerId, due: Time, every: int, top: Option<TimerId>, arm: Arming)
    requires PlacesOk(s) && id !in s.when
    ensures PlacesOk(AddTimer(s, id, due, every, top, arm))
  {
  }

  lemma PlacesPop(s: State, id: TimerId)
    requires PlacesOk(s) && id in s.heap
    ensures PlacesOk(PopTimer(s, id))
  {
  }

  lemma PlacesRestart(s: State)
    requires PlacesOk(s) && s.b.i < |s.b.expired| && s.b.expired[s.b.i] in s.b.out
    ensures PlacesOk(RestartTimer(s))
  {
  }

  lemma PlacesStep(s: State, a: Action)
    requires PlacesOk(s) && BatchOk(s.b) && Enabled(s, a)
    ensures PlacesOk(Apply(s, a))
  {
    match a
    case Add(id, due, every, top, arm) => PlacesAdd(s, id, due, every, top, arm);
    case Pop(top) => PlacesPop(s, top.value);
    case Restart =>
      CurrentIsOut(s);
      PlacesRestart(s);
    case _ =>
  }

  lemma BatchPop(s: State, id: TimerId)
    requires PlacesOk(s) && BatchOk(s.b) && s.b.stage == Popping && id in s.heap
    ensures BatchOk(PopTimer(s, id).b)
  {
    assert s.b.expired[0..] == s.b.expired;
  }

  lemma BatchRestart(s: State)
    requires BatchOk(s.b) && s.b.stage == Resetting && s.b.i < |s.b.expired|
    ensures BatchOk(RestartTimer(s).b)
  {
    RestartBatch(s);
    var b' := RestartTimer(s).b;
    forall id ensures id in b'.out <==> id in b'.expired[b'.i..] {
      FrontSplit(s.b.expired, s.b.i, id);
    }
  }

  lemma BatchStep(s: State, a: Action)
    requires PlacesOk(s) && BatchOk(s.b) && Enabled(s, a)
    ensures BatchOk(Apply(s, a).b)
  {
    match a
    case Pop(top) => BatchPop(s, top.value);
    case Restart => BatchRestart(s);
    case _ =>
  }

  lemma SortedPop(s: State, id: TimerId)
    requires PlacesOk(s) && BatchOk(s.b) && SortedOk(s) && s.b.stage == Popping
    requires IsTop(s.heap, Some(id)) && DueOf(s, id) <= s.b.now
    ensures SortedOk(PopTimer(s, id))
  {
  }

  lemma SortedAdd(s: State, id: TimerId, due: Time, every: int, top: Option<TimerId>, arm: Arming)
    requires PlacesOk(s) && BatchOk(s.b) && SortedOk(s) && UserCode(s.b) && id !in s.when
    ensures SortedOk(AddTimer(s, id, due, every, top, arm))
  {
    forall j | s.b.stage == Calling && 0 <= j < |s.b.expired| ensures s.b.expired[j] in s.when {
      assert s.b.expired[j] in s.b.expired[0..];
    }
  }

  lemma OtherSteps(s: State, a: Action)
    requires Enabled(s, a) && !a.Pop? && !a.Add? && !a.Restart?
    ensures Apply(s, a).when == s.when && Apply(s, a).heap == s.heap && Apply(s, a).interval == s.interval
    ensures Apply(s, a).b.stage == Popping ==> Apply(s, a).b.expired == []
    ensures Apply(s, a).b.stage == Calling ==>
              s.b.stage in {Popping, Calling} && Apply(s, a).b.expired == s.b.expired && Apply(s, a).b.now == s.b.now
  {
  }

  lemma SortedStep(s: State, a: Action)
    requires PlacesOk(s) && BatchOk(s.b) && SortedOk(s) && Enabled(s, a)
    ensures SortedOk(Apply(s, a))
  {
    match a
    case Pop(top) => SortedPop(s, top.value);
    case Add(id, due, every, top, arm) => SortedAdd(s, id, due, every, top, arm);
    case Restart =>
    case _ => OtherSteps(s, a);
  }

  lemma FdAdd(s: State, id: TimerId, due: Time, every: int, top: Option<TimerId>, arm: Arming)
    requires PlacesOk(s) && FdOk(s) && s.b.now <= s.clock && id !in s.when && IsTop(s.heap, top) && Later(s, arm)
    ensures FdOk(AddTimer(s, id, due, every, top, arm))
  {
    var t := AddTimer(s, id, due, every, top, arm);
    ArmingDelay(due, arm.seen);
    assert id in t.heap && t.heap[id] == due;
    if s.b.stage == Idle && s.heap != map[] {
      var j :| j in s.heap && Deadline(s.heap[j], s.lastArm) < s.fd.expiry + 1000;
      assert j in t.heap && t.heap[j] == s.heap[j];
    }
  }

  lemma FdTop(s: State, top: Option<TimerId>, arm: Arming)
    requires PlacesOk(s) && s.b.now <= s.clock && (s.fd.Armed? ==> s.fd.expiry > s.b.now) && IsTop(s.heap, top) && Later(s, arm)
    ensures FdOk(ArmTop(s, top, arm))
  {
    if top.Some? {
      ArmingDelay(DueOf(s, top.value), arm.seen);
      assert top.value in s.heap && s.heap[top.value] == DueOf(s, top.value);
    }
  }

  lemma FdStep(s: State, a: Action)
    requires PlacesOk(s) && FdOk(s) && s.b.now <= s.clock && Enabled(s, a)
    ensures FdOk(Apply(s, a))
  {
    match a
    case Add(id, due, every, top, arm) => FdAdd(s, id, due, every, top, arm);
    case EndReset(top, arm) => FdTop(s.(b := s.b.(stage := Idle)), top, arm);
    case Recreate(top, arm) => FdTop(s.(fd := Disarmed), top, arm);
    case _ =>
  }

  lemma RunsStep(s: State, a: Action)
    requires PlacesOk(s) && BatchOk(s.b) && SortedOk(s) && RunsOk(s) && Enabled(s, a)
    ensures RunsOk(Apply(s, a))
  {
  }

  lemma ApartCall(s: State)
    requires SortedOk(s) && Apart(s.log, s.interval) && NextOk(s)
    requires s.b.stage == Calling && !s.b.inCallback && s.b.i < |s.b.expired|
    ensures Apart(CallTimer(s).log, s.interval)
  {
    var id := s.b.expired[s.b.i];
    assert id in s.b.expired[s.b.i..] by {
      assert s.b.expired[s.b.i..][0] == id;
    }
    assert DueIn(s.when, id) <= s.b.now;
    assert forall r :: r in s.log && r.id == id ==> MayRun(s, r.id);
  }

  lemma ApartStep(s: State, a: Action)
    requires PlacesOk(s) && BatchOk(s.b) && SortedOk(s) && RunsOk(s) && Apart(s.log, s.interval) && NextOk(s) && Enabled(s, a)
    ensures Apart(Apply(s, a).log, Apply(s, a).interval)
  {
    match a
    case Call => ApartCall(s);
    case _ =>
  }

  lemma NextAdd(s: State, id: TimerId, due: Time, every: int, top: Option<TimerId>, arm: Arming)
    requires PlacesOk(s) && BatchOk(s.b) && RunsOk(s) && NextOk(s) && id !in s.when
    ensures NextOk(AddTimer(s, id, due, every, top, arm))
  {
  }

  lemma NextPop(s: State, id: TimerId)
    requires NextOk(s) && s.b.stage == Popping && id in s.heap
    ensures NextOk(PopTimer(s, id))
  {
  }

  lemma NextCall(s: State)
    requires PlacesOk(s) && BatchOk(s.b) && NextOk(s) && s.b.stage == Calling && !s.b.inCallback && s.b.i < |s.b.expired|
    ensures NextOk(CallTimer(s))
  {
    var s' := CallTimer(s);
    CurrentIsOut(s);
    forall r | r in s'.log && MayRun(s', r.id) ensures Spaced(s'.interval, r.id, r.now, DueOf(s', r.id)) {
      FrontSplit(s.b.expired, s.b.i, r.id);
      assert r in s.log && MayRun(s, r.id);
    }
  }

  lemma NextRestart(s: State)
    requires PlacesOk(s) && BatchOk(s.b) && RunsOk(s) && NextOk(s) && s.b.stage == Resetting && s.b.i < |s.b.expired|
    ensures NextOk(RestartTimer(s))
  {
    CurrentIsOut(s);
  }

  lemma NextEndPop(s: State)
    requires BatchOk(s.b) && NextOk(s) && s.b.stage == Popping
    ensures NextOk(s.(b := s.b.(stage := Calling)))
  {
    assert s.b.expired[0..] == s.b.expired;
  }

  lemma NextReturn(s: State)
    requires NextOk(s) && s.b.stage == Calling && s.b.inCallback
    ensures NextOk(s.(b := s.b.(i := s.b.i + 1, inCallback := false)))
  {
  }

  /** The other steps let no further timer run, and change no due time. */
  lemma NextOther(s: State, a: Action)
    requires NextOk(s) && Enabled(s, a)
    requires a.Cancel? || a.BeginRead? || a.EndCalls? || a.EndReset? || a.Recreate?
    ensures NextOk(Apply(s, a))
  {
    var s' := Apply(s, a);
    assert s'.log == s.log && s'.when == s.when && s'.interval == s.interval;
    assert forall id :: MayRun(s', id) ==> MayRun(s, id);
  }

  lemma NextStep(s: State, a: Action)
    requires PlacesOk(s) && BatchOk(s.b) && RunsOk(s) && NextOk(s) && Enabled(s, a)
    ensures NextOk(Apply(s, a))
  {
    match a
    case Add(id, due, every, top, arm) => NextAdd(s, id, due, every, top, arm);
    case Pop(top) => NextPop(s, top.value);
    case Call => NextCall(s);
    case Restart => NextRestart(s);
    case EndPop(_) => NextEndPop(s);
    case Return => NextReturn(s);
    case _ => NextOther(s, a);
  }

  lemma BalancedPop(s: State, id: TimerId)
    requires PlacesOk(s) && Balanced(s) && s.b.stage == Popping && id in s.heap
    ensures Balanced(PopTimer(s, id))
  {
  }

  lemma BalancedAdd(s: State, id: TimerId, due: Time, every: int, top: Option<TimerId>, arm: Arming)
    requires PlacesOk(s) && Balanced(s) && UserCode(s.b) && id !in s.when
    ensures Balanced(AddTimer(s, id, due, every, top, arm))
  {
  }

  lemma RenewedGrows(rest: Heap, done: set<TimerId>, id: TimerId, keep: set<TimerId>, interval: map<TimerId, int>, now: Time)
    ensures id in keep && id in interval && interval[id] > 0 ==>
              (rest + Renewed(done, keep, interval, now))[id := now + interval[id] * 1000]
              == rest + Renewed(done + {id}, keep, interval, now)
    ensures !(id in keep && id in interval && interval[id] > 0) ==>
              Renewed(done + {id}, keep, interval, now) == Renewed(done, keep, interval, now)
  {
  }

  lemma BalancedRestart(s: State)
    requires PlacesOk(s) && BatchOk(s.b) && Balanced(s) && s.b.stage == Resetting && s.b.i < |s.b.expired|
    ensures Balanced(RestartTimer(s))
  {
    var id, all := s.b.expired[s.b.i], Members(s.b.expired);
    CurrentIsOut(s);
    RestartBatch(s);
    RenewedGrows((s.b.base - all) + s.b.added, all - s.b.out, id, s.b.keep, s.interval, s.b.now);
    assert all - (s.b.out - {id}) == (all - s.b.out) + {id};
    RestartHeap(s);
  }

  lemma RestartHeap(s: State)
    requires s.b.i < |s.b.expired|
    ensures var id := s.b.expired[s.b.i];
            && RestartTimer(s).heap ==
               (if id in s.live && EveryOf(s, id) > 0 then s.heap[id := s.b.now + EveryOf(s, id) * 1000] else s.heap)
            && s.live - {id} <= RestartTimer(s).live <= s.live
  {
  }

  lemma BalancedStep(s: State, a: Action)
    requires PlacesOk(s) && BatchOk(s.b) && Balanced(s) && Enabled(s, a)
    ensures Balanced(Apply(s, a))
  {
    match a
    case Add(id, due, every, top, arm) => BalancedAdd(s, id, due, every, top, arm);
    case Pop(top) => BalancedPop(s, top.value);
    case Restart => BalancedRestart(s);
    case EndCalls =>
      assert s.b.expired[0..] == s.b.expired;
      assert Members(s.b.expired) == s.b.out;
    case _ =>
  }

  lemma StepInv(s: State, a: Action)
    requires Inv(s) && Enabled(s, a)
    ensures Inv(Apply(s, a))
  {
    PlacesStep(s, a);
    BatchStep(s, a);
    SortedStep(s, a);
    FdStep(s, a);
    RunsStep(s, a);
    ApartStep(s, a);
    NextStep(s, a);
    BalancedStep(s, a);
  }

  lemma ReturnStep(s: State)
    requires Enabled(s, Return)
    ensures Apply(s, Return) == s.(b := s.b.(i := s.b.i + 1, inCallback := false))
  {
  }

  lemma Peel(s: State, run: seq<Action>, s': State) returns (s0: State, last: Action)
    requires Exec(s, run) == Some(s') && run != []
    ensures Exec(s, run[..|run| - 1]) == Some(s0) && last == run[|run| - 1]
    ensures Enabled(s0, last) && s' == Apply(s0, last)
  {
    s0, last := Exec(s, run[..|run| - 1]).value, run[|run| - 1];
  }

  lemma Extend(s: State, run: seq<Action>, s': State, a: Action)
    requires Exec(s, run) == Some(s') && Enabled(s', a)
    ensures Exec(s, run + [a]) == Some(Apply(s', a))
  {
    assert (run + [a])[..|run|] == run;
  }

  lemma {:induction false} RunInv(s: State, run: seq<Action>, s': State)
    requires Inv(s) && Exec(s, run) == Some(s')
    ensures Inv(s')
  {
    if run != [] {
      var s0, last := Peel(s, run, s');
      RunInv(s, run[..|run| - 1], s0);
      StepInv(s0, last);
    }
  }

  lemma KnownTimers(clock: Time, run: seq<Action>, s: State)
    requires Exec(Initial(clock), run) == Some(s)
    ensures s.heap.Keys <= s.when.Keys && s.live <= s.interval.Keys && s.when.Keys == s.interval.Keys
    ensures s.b.stage == Popping ==> s.b.i == 0 && !s.b.inCallback
  {
    RunInv(Initial(clock), run, s);
  }

  /** User code changes nothing of the batch but the record of what was added. */
  predicate SameBatch(b: Batch, b': Batch) {
    b' == b.(added := b'.added)
  }

  // ------------------------------------------------------------------ what every run guarantees

  /** Outside `handleRead` a non-empty heap has its timerfd armed, to expire no later than the
      earliest timer is due or 100 microseconds after the last arming, and at most a microsecond
      before that; and it has not expired before the last `handleRead`, which has cleared it. */
  lemma NeverStranded(clock: Time, run: seq<Action>, s: State)
    requires Exec(Initial(clock), run) == Some(s)
    ensures s.b.stage == Idle && s.heap != map[] ==>
              && s.fd.Armed?
              && (forall id :: id in s.heap ==> id in s.when && s.fd.expiry <= Deadline(s.when[id], s.lastArm))
              && (exists id :: id in s.heap && id in s.when && Deadline(s.when[id], s.lastArm) < s.fd.expiry + 1000)
    ensures s.fd.Armed? ==> s.fd.expiry > s.b.now
  {
    RunInv(Initial(clock), run, s);
  }

  /** No callback runs before its timer is due; a timer runs again only if it repeats, and then at
      least an interval later, so a one-shot runs at most once. */
  lemma RunsAreDueAndSpaced(clock: Time, run: seq<Action>, s: State)
    requires Exec(Initial(clock), run) == Some(s)
    ensures forall r :: r in s.log ==> r.due <= r.now <= s.clock
    ensures forall j, k :: 0 <= j < k < |s.log| && s.log[j].id == s.log[k].id ==>
              && s.log[j].id in s.interval && s.interval[s.log[j].id] > 0
              && s.log[j].now + s.interval[s.log[j].id] * 1000 <= s.log[k].now
  {
    RunInv(Initial(clock), run, s);
  }

  /** Outside `handleRead` every live timer has its entry in the heap, under its current due time,
      and no timer was ever pushed while already there. */
  lemma LiveTimersAreQueued(clock: Time, run: seq<Action>, s: State)
    requires Exec(Initial(clock), run) == Some(s)
    ensures s.b.stage == Idle ==> s.live <= s.heap.Keys
    ensures !s.twice && forall id :: id in s.heap ==> id in s.when && s.heap[id] == s.when[id]
  {
    RunInv(Initial(clock), run, s);
  }

  /** Exactly the timers of `base` due at `now`, in nondecreasing order of due time. */
  ghost predicate DueBatch(base: Heap, expired: seq<TimerId>, now: Time) {
    && (forall id :: id in base ==> (id in expired <==> base[id] <= now))
    && (forall id :: id in expired ==> id in base)
    && NoRepeats(expired)
    && (forall j, k :: 0 <= j <= k < |expired| && expired[j] in base && expired[k] in base ==> base[expired[j]] <= base[expired[k]])
  }

  /** `getExpired(now)` returns exactly the timers due at `now`, in nondecreasing order of due time. */
  lemma ExpiredExactly(clock: Time, run: seq<Action>, s: State, top: Option<TimerId>)
    requires Exec(Initial(clock), run) == Some(s) && Enabled(s, EndPop(top))
    ensures DueBatch(s.b.base, s.b.expired, s.b.now) && s.heap == s.b.base - Members(s.b.expired)
  {
    RunInv(Initial(clock), run, s);
    PoppedFacts(s);
    PoppedExactly(s.when, s.heap, s.b, top);
    PoppedInOrder(s.when, s.b);
  }

  lemma PoppedInOrder(when: map<TimerId, Time>, b: Batch)
    requires forall id :: id in b.base ==> b.base[id] == DueIn(when, id)
    requires Sorted(when, b.expired, b.now)
    ensures forall j, k :: 0 <= j <= k < |b.expired| && b.expired[j] in b.base && b.expired[k] in b.base ==>
              b.base[b.expired[j]] <= b.base[b.expired[k]]
  {
  }

  lemma PoppedFacts(s: State)
    requires BatchOk(s.b) && SortedOk(s) && Balanced(s) && s.b.stage == Popping
    ensures s.b.out == Members(s.b.expired) && s.b.out <= s.b.base.Keys && s.heap == s.b.base - s.b.out
    ensures forall id :: id in s.b.base ==> s.b.base[id] == DueIn(s.when, id)
    ensures NoRepeats(s.b.expired) && Sorted(s.when, s.b.expired, s.b.now)
  {
    assert s.b.expired[0..] == s.b.expired;
  }

  lemma PoppedExactly(when: map<TimerId, Time>, heap: Heap, b: Batch, top: Option<TimerId>)
    requires b.out == Members(b.expired) && b.out <= b.base.Keys && heap == b.base - b.out
    requires forall id :: id in b.base ==> b.base[id] == DueIn(when, id)
    requires Sorted(when, b.expired, b.now)
    requires IsTop(heap, top) && (top.Some? ==> DueIn(when, top.value) > b.now)
    ensures forall id :: id in b.base ==> (id in b.expired <==> b.base[id] <= b.now)
  {
    forall id | id in b.base ensures id in b.expired <==> b.base[id] <= b.now {
      if id !in b.out {
        assert id in heap && heap[top.value] <= heap[id];
      }
    }
  }

  /** A heap that is the one `handleRead` found, minus the expired batch, plus what callbacks added,
      plus the repeating members still live after the callbacks. */
  ghost predicate Conserved(heap: Heap, b: Batch, interval: map<TimerId, int>) {
    heap == (b.base - Members(b.expired)) + b.added + Renewed(Members(b.expired), b.keep, interval, b.now)
  }

  /** Conservation over `handleRead`, when its last loop ends. */
  lemma HandleReadConserves(clock: Time, run: seq<Action>, s: State)
    requires Exec(Initial(clock), run) == Some(s) && s.b.stage == Resetting && s.b.i >= |s.b.expired|
    ensures Conserved(s.heap, s.b, s.interval) && s.b.out == {}
  {
    RunInv(Initial(clock), run, s);
    assert s.b.expired[s.b.i..] == [];
    assert s.b.out == {};
    assert Members(s.b.expired) - s.b.out == Members(s.b.expired);
  }

  /** Cancellation: once an added timer is no longer live, it never runs again, whatever follows. */
  lemma {:induction false} CancelledNeverRuns(s: State, run: seq<Action>, s': State, id: TimerId)
    requires Exec(s, run) == Some(s')
    ensures id in s.when && id !in s.live ==>
              && id in s'.when && id !in s'.live
              && s.log <= s'.log && forall r :: r in s'.log[|s.log|..] ==> r.id != id
  {
    if run != [] && id in s.when && id !in s.live {
      var s0, last := Peel(s, run, s');
      CancelledNeverRuns(s, run[..|run| - 1], s0, id);
      CancelledStep(s0, last, id);
    }
  }

  /** The same for a part of a run: the callbacks it runs are of timers that were live at its start
      or added since. */
  lemma OnlyLiveTimersRun(clock: Time, prefix: seq<Action>, s: State, run: seq<Action>, s': State)
    requires prefix <= run && Exec(Initial(clock), prefix) == Some(s) && Exec(Initial(clock), run) == Some(s')
    ensures s.log <= s'.log
    ensures forall r :: r in s'.log[|s.log|..] ==> !(r.id in s.when && r.id !in s.live)
  {
    SplitRun(Initial(clock), prefix, s, run, s');
    LogGrows(s, run[|prefix|..], s');
    forall r | r in s'.log[|s.log|..] && r.id in s.when && r.id !in s.live ensures false {
      CancelledNeverRuns(s, run[|prefix|..], s', r.id);
    }
  }

  lemma {:induction false} LogGrows(s: State, run: seq<Action>, s': State)
    requires Exec(s, run) == Some(s')
    ensures s.log <= s'.log
  {
    if run != [] {
      var s0, last := Peel(s, run, s');
      LogGrows(s, run[..|run| - 1], s0);
      StepLog(s0, last);
    }
  }

  lemma StepLog(s: State, a: Action)
    requires Enabled(s, a)
    ensures s.log <= Apply(s, a).log
  {
  }

  lemma SplitRun(s: State, prefix: seq<Action>, mid: State, run: seq<Action>, s': State)
    requires prefix <= run && Exec(s, prefix) == Some(mid) && Exec(s, run) == Some(s')
    ensures Exec(mid, run[|prefix|..]) == Some(s')
  {
    assert run == prefix + run[|prefix|..];
    ExecConcat(s, prefix, mid, run[|prefix|..]);
  }

  lemma {:induction false} ExecConcat(s: State, prefix: seq<Action>, mid: State, tail: seq<Action>)
    requires Exec(s, prefix) == Some(mid)
    ensures Exec(s, prefix + tail) == Exec(mid, tail)
  {
    if tail == [] {
      assert prefix + tail == prefix;
    } else {
      var front, last := tail[..|tail| - 1], tail[|tail| - 1];
      ExecConcat(s, prefix, mid, front);
      SameStep(s, prefix + front, mid, front, last);
      LastBehind(prefix, tail);
    }
  }

  lemma LastBehind(prefix: seq<Action>, tail: seq<Action>)
    requires tail != []
    ensures var front, last := tail[..|tail| - 1], tail[|tail| - 1];
            prefix + front + [last] == prefix + tail && front + [last] == tail
  {
  }

  lemma SameStep(s: State, run: seq<Action>, t: State, tail: seq<Action>, a: Action)
    requires Exec(s, run) == Exec(t, tail)
    ensures Exec(s, run + [a]) == Exec(t, tail + [a])
  {
    assert (run + [a])[..|run|] == run && (tail + [a])[..|tail|] == tail;
  }

  lemma CancelledStep(s: State, a: Action, id: TimerId)
    requires Enabled(s, a) && id in s.when && id !in s.live
    ensures id in Apply(s, a).when && id !in Apply(s, a).live
    ensures Apply(s, a).log == s.log || exists r: Run :: r.id != id && Apply(s, a).log == s.log + [r]
  {
    if a.Call? && s.b.expired[s.b.i] in s.live {
      var r := Run(s.b.expired[s.b.i], DueOf(s, s.b.expired[s.b.i]), s.b.now);
      assert r.id != id && Apply(s, a).log == s.log + [r];
    }
  }

  /** Before `addTimerInLoop` has run, `invalidateTimer` leaves no trace. */
  lemma CancelBeforeAddIsForgotten(clock: Time, run: seq<Action>, s: State, id: TimerId)
    requires Exec(Initial(clock), run) == Some(s) && id !in s.when && UserCode(s.b)
    ensures Enabled(s, Cancel(id)) && Apply(s, Cancel(id)) == s
  {
    RunInv(Initial(clock), run, s);
    assert s.live - {id} == s.live;
  }

  // ------------------------------------------------------------------ which timers of a batch run

  /** `a` is what is left of `b` when some members are left out. */
  predicate Within(a: seq<TimerId>, b: seq<TimerId>) {
    a == [] || (b != [] && ((a[|a| - 1] == b[|b| - 1] && Within(a[..|a| - 1], b[..|b| - 1])) || Within(a, b[..|b| - 1])))
  }

  /** The members of the batch whose turn has come. */
  function Turns(b: Batch): nat {
    match b.stage
    case Popping => 0
    case Calling => if b.inCallback then b.i + 1 else b.i
    case _ => |b.expired|
  }

  /** From position `at` on the log is the callbacks of `ran` at `now`. */
  ghost predicate LogOk(log: seq<Run>, at: nat, ran: seq<TimerId>, now: Time) {
    at + |ran| == |log| && forall k :: 0 <= k < |ran| ==> log[at + k].id == ran[k] && log[at + k].now == now
  }

  lemma LogOkMore(log: seq<Run>, at: nat, ran: seq<TimerId>, r: Run)
    requires LogOk(log, at, ran, r.now)
    ensures LogOk(log + [r], at, ran + [r.id], r.now)
  {
    forall k | 0 <= k < |ran| + 1 ensures (log + [r])[at + k].id == (ran + [r.id])[k] && (log + [r])[at + k].now == r.now {
      assert k < |ran| ==> (log + [r])[at + k] == log[at + k];
    }
  }

  /** Of the first `m` members of a batch, `ran` is a part in the same order and has all live ones. */
  ghost predicate TurnsOk(ran: seq<TimerId>, expired: seq<TimerId>, m: nat, live: set<TimerId>)
    requires m <= |expired|
  {
    Within(ran, expired[..m]) && forall j :: 0 <= j < m && expired[j] in live ==> expired[j] in ran
  }

  lemma TurnsMore(ran: seq<TimerId>, expired: seq<TimerId>, m: nat, live: set<TimerId>)
    requires m < |expired| && TurnsOk(ran, expired, m, live)
    ensures expired[m] !in live ==> TurnsOk(ran, expired, m + 1, live)
    ensures TurnsOk(ran + [expired[m]], expired, m + 1, live)
  {
    WithinMore(ran, expired[..m], expired[m]);
    assert expired[..m + 1] == expired[..m] + [expired[m]];
  }

  /** The log since the batch began is the callbacks of `ran`, in the order of the batch; of the
      members whose turn has come, those left out were no longer live. */
  ghost predicate RanOk(s: State) {
    var b := s.b;
    && LogOk(s.log, b.logAt, b.ran, b.now) && Turns(b) <= |b.expired|
    && (forall j :: 0 <= j < |b.expired| ==> b.expired[j] in s.when)
    && TurnsOk(b.ran, b.expired, Turns(b), s.live)
    && (b.stage == Resetting || b.stage == Idle ==> forall id :: id in b.expired && id in b.keep ==> id in b.ran)
  }

  lemma WithinMore(a: seq<TimerId>, b: seq<TimerId>, id: TimerId)
    requires Within(a, b)
    ensures Within(a, b + [id]) && Within(a + [id], b + [id])
  {
    assert (b + [id])[..|b|] == b && (a + [id])[..|a|] == a;
  }

  lemma RanLive(s: State)
    requires RanOk(s) && Enabled(s, Call) && s.b.expired[s.b.i] in s.live
    ensures RanOk(CallTimer(s))
  {
    var b, id := s.b, s.b.expired[s.b.i];
    var r := Run(id, DueOf(s, id), b.now);
    TurnsMore(b.ran, b.expired, b.i, s.live);
    LogOkMore(s.log, b.logAt, b.ran, r);
    assert CallTimer(s) == s.(log := s.log + [r], b := b.(inCallback := true, ran := b.ran + [id]));
  }

  lemma RanCall(s: State)
    requires RanOk(s) && Enabled(s, Call)
    ensures RanOk(CallTimer(s))
  {
    var b, id := s.b, s.b.expired[s.b.i];
    if id in s.live {
      RanLive(s);
    } else {
      TurnsMore(b.ran, b.expired, b.i, s.live);
      assert CallTimer(s) == s.(b := b.(i := b.i + 1));
    }
  }

  lemma RanPop(s: State, id: TimerId)
    requires RanOk(s) && s.b.stage == Popping && id in s.when
    ensures RanOk(PopTimer(s, id))
  {
    assert PopTimer(s, id).b.expired[..0] == s.b.expired[..0];
  }

  lemma RanRestart(s: State)
    requires RanOk(s) && s.b.stage == Resetting && s.b.i < |s.b.expired|
    ensures RanOk(RestartTimer(s))
  {
    RestartBatch(s);
  }

  lemma RanAdd(s: State, id: TimerId, due: Time, every: int, top: Option<TimerId>, arm: Arming)
    requires RanOk(s) && id !in s.when
    ensures RanOk(AddTimer(s, id, due, every, top, arm))
  {
  }

  lemma RanEndCalls(s: State)
    requires RanOk(s) && Enabled(s, EndCalls)
    ensures RanOk(s.(b := s.b.(stage := Resetting, i := 0, keep := s.live)))
  {
    assert Turns(s.b) == |s.b.expired|;
  }

  lemma RanStep(s: State, a: Action)
    requires RanOk(s) && PlacesOk(s) && BatchOk(s.b) && Enabled(s, a)
    ensures RanOk(Apply(s, a))
  {
    match a
    case Add(id, due, every, top, arm) => RanAdd(s, id, due, every, top, arm);
    case Pop(top) => RanPop(s, top.value);
    case Call => RanCall(s);
    case Restart => RanRestart(s);
    case EndCalls => RanEndCalls(s);
    case _ =>
  }

  /** In every run the timers of a batch that are still live when their turn comes run, once each and
      in order, and no others do. */
  lemma {:induction false} RanExactly(clock: Time, run: seq<Action>, s: State)
    requires Exec(Initial(clock), run) == Some(s)
    ensures RanOk(s)
  {
    if run != [] {
      var s0, last := Peel(Initial(clock), run, s);
      RanExactly(clock, run[..|run| - 1], s0);
      RunInv(Initial(clock), run[..|run| - 1], s0);
      RanStep(s0, last);
    }
  }
}
