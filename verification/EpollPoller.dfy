/** The interest set of poll/EpollPoller.cpp and the dispatchers of event/EventDispatcher.cpp.

    Each dispatcher remembers in a three-state flag whether the kernel knows its descriptor; the flag
    alone decides which `epoll_ctl` command is issued.  The kernel is a map from descriptors to the
    mask and the dispatcher last registered, and it refuses ADD of a present descriptor and MOD and
    DEL of an absent one.  Dispatchers may be destroyed at any time, and their descriptors reused. */
module EpollPoller {
  import opened Options

  type Mask = bv32

  const NONE: Mask := 0
  const POLLIN: Mask := 0x1
  const POLLPRI: Mask := 0x2
  const POLLOUT: Mask := 0x4
  const POLLERR: Mask := 0x8
  const POLLHUP: Mask := 0x10
  const POLLNVAL: Mask := 0x20
  const POLLRDHUP: Mask := 0x2000
  const READ: Mask := POLLIN | POLLPRI
  const WRITE: Mask := POLLOUT

  /** kNew, kAdded and kDeleted. */
  datatype Mark = New | Added | Deleted

  datatype Interest = Interest(fd: nat, events: Mask, mark: Mark)

  datatype Command = ADD | MOD | DEL

  datatype Entry<P> = Entry(mask: Mask, owner: P)

  /** What one `epoll_ctl` call leaves behind; a refused call changes nothing. */
  datatype Outcome<P> = Outcome(kernel: map<nat, Entry<P>>, interest: Interest, refused: bool)

  function Control<P>(kernel: map<nat, Entry<P>>, command: Command, d: Interest, self: P): Outcome<P> {
    match command
    case ADD => if d.fd in kernel then Outcome(kernel, d, true) else Outcome(kernel[d.fd := Entry(d.events, self)], d, false)
    case MOD => if d.fd in kernel then Outcome(kernel[d.fd := Entry(d.events, self)], d, false) else Outcome(kernel, d, true)
    case DEL => if d.fd in kernel then Outcome(kernel - {d.fd}, d, false) else Outcome(kernel, d, true)
  }

  /** `registerEventDispatcher`: the flag moves on whether or not the kernel accepted the command. */
  function Register<P>(kernel: map<nat, Entry<P>>, d: Interest, self: P): Outcome<P> {
    if d.mark != Added then Control(kernel, ADD, d, self).(interest := d.(mark := Added))
    else if d.events == NONE then Control(kernel, DEL, d, self).(interest := d.(mark := Deleted))
    else Control(kernel, MOD, d, self)
  }

  /** `removeEventDispatcher`, behind its two asserts. */
  function Unregister<P>(kernel: map<nat, Entry<P>>, d: Interest, self: P): Outcome<P>
    requires d.events == NONE && d.mark != New
  {
    (if d.mark == Added then Control(kernel, DEL, d, self) else Outcome(kernel, d, false)).(interest := d.(mark := New))
  }

  datatype Callback = EventCallback | CloseCallback | ErrorCallback | ReadCallback | WriteCallback

  /** `handleEventSafely`: a catch-all event callback replaces all others. */
  function Callbacks(revents: Mask, catchAll: bool): seq<Callback> {
    if catchAll then [EventCallback]
    else if revents & POLLHUP != 0 && revents & POLLIN == 0 then [CloseCallback]
    else if revents & (POLLNVAL | POLLERR) != 0 then [ErrorCallback]
    else (if revents & (POLLIN | POLLPRI | POLLRDHUP) != 0 then [ReadCallback] else [])
         + (if revents & POLLOUT != 0 then [WriteCallback] else [])
  }

  // ------------------------------------------------------------------ agreement with the kernel

  /** The flag is kAdded exactly when the kernel has this dispatcher's descriptor, with this mask. */
  predicate Agrees<P(==)>(kernel: map<nat, Entry<P>>, p: P, d: Interest) {
    && (d.mark == Added <==> d.fd in kernel && kernel[d.fd] == Entry(d.events, p))
    && (d.mark != Added ==> d.events == NONE)
  }

  predicate Owned<P(==)>(interests: map<P, Interest>, fd: nat, p: P) {
    p in interests && interests[p].fd == fd && interests[p].mark == Added
  }

  /** Every existing dispatcher agrees with the kernel, and the kernel has its pointer nowhere else. */
  ghost predicate Agreement<P>(interests: map<P, Interest>, kernel: map<nat, Entry<P>>) {
    && (forall p :: p in interests ==> Agrees(kernel, p, interests[p]))
    && (forall fd :: fd in kernel && kernel[fd].owner in interests ==> Owned(interests, fd, kernel[fd].owner))
  }

  /** Every pointer the kernel holds is that of an existing dispatcher. */
  ghost predicate OwnersExist<P>(interests: map<P, Interest>, kernel: map<nat, Entry<P>>) {
    forall fd :: fd in kernel ==> kernel[fd].owner in interests
  }

  /** The one thing an update can do wrong: register a descriptor the kernel has already. */
  predicate Taken<P>(kernel: map<nat, Entry<P>>, d: Interest) {
    d.mark != Added && d.fd in kernel
  }

  /** As long as only unregistered dispatchers are destroyed, that is a descriptor that another
      dispatcher has registered. */
  lemma TakenMeaning<P>(interests: map<P, Interest>, kernel: map<nat, Entry<P>>, p: P)
    requires Agreement(interests, kernel) && OwnersExist(interests, kernel) && p in interests
    ensures Taken(kernel, interests[p]) <==>
            interests[p].mark != Added && exists q :: q in interests && Owned(interests, interests[p].fd, q)
  {
    var fd := interests[p].fd;
    assert fd in kernel ==> Owned(interests, fd, kernel[fd].owner);
    forall q | q in interests && Owned(interests, fd, q) ensures fd in kernel {
      assert Agrees(kernel, q, interests[q]);
    }
  }

  /** A new mask for `p` has been registered: the kernel and the flags afterwards. */
  function Registered<P>(interests: map<P, Interest>, kernel: map<nat, Entry<P>>, p: P, mask: Mask): Outcome<P>
    requires p in interests
  {
    Register(kernel, interests[p].(events := mask), p)
  }

  /** `registerEventDispatcher` is accepted, and leaves flags and kernel in agreement, exactly when the
      descriptor is not taken; either way it touches no other descriptor. */
  lemma RegisterAgrees<P>(interests: map<P, Interest>, kernel: map<nat, Entry<P>>, p: P, mask: Mask)
    requires Agreement(interests, kernel) && p in interests
    ensures var o := Registered(interests, kernel, p, mask);
            && (o.refused <==> Taken(kernel, interests[p]))
            && (Agreement(interests[p := o.interest], o.kernel) <==> !Taken(kernel, interests[p]))
            && (OwnersExist(interests, kernel) ==> OwnersExist(interests[p := o.interest], o.kernel))
            && o.interest.fd == interests[p].fd && o.interest.events == mask
  {
    assert Agrees(kernel, p, interests[p]);
    if Taken(kernel, interests[p]) {
      TakenDisagrees(interests, kernel, p, mask);
    } else {
      FreeAgrees(interests, kernel, p, mask);
    }
  }

  /** What an accepted registration does to the kernel. */
  lemma RegisterEffect<P>(kernel: map<nat, Entry<P>>, d: Interest, p: P)
    requires !Taken(kernel, d) && (d.mark == Added ==> d.fd in kernel)
    ensures var after := Register(kernel, d, p).kernel;
            && after - {d.fd} == kernel - {d.fd}
            && (d.fd in after <==> !(d.mark == Added && d.events == NONE))
            && (d.fd in after ==> after[d.fd] == Entry(d.events, p))
  {
  }

  lemma TakenDisagrees<P>(interests: map<P, Interest>, kernel: map<nat, Entry<P>>, p: P, mask: Mask)
    requires Agreement(interests, kernel) && p in interests && Taken(kernel, interests[p])
    ensures var o := Registered(interests, kernel, p, mask);
            !Agreement(interests[p := o.interest], o.kernel) && o.kernel == kernel
  {
    var o := Registered(interests, kernel, p, mask);
    var fd, after := interests[p].fd, interests[p := o.interest];
    assert kernel[fd].owner in interests ==> Owned(interests, fd, kernel[fd].owner);
    assert !Agrees(o.kernel, p, after[p]);
  }

  lemma FreeAgrees<P>(interests: map<P, Interest>, kernel: map<nat, Entry<P>>, p: P, mask: Mask)
    requires Agreement(interests, kernel) && p in interests && !Taken(kernel, interests[p])
    ensures var o := Registered(interests, kernel, p, mask);
            Agreement(interests[p := o.interest], o.kernel)
  {
    var o := Registered(interests, kernel, p, mask);
    var after := interests[p := o.interest];
    assert Agrees(kernel, p, interests[p]);
    forall q | q in after ensures Agrees(o.kernel, q, after[q]) {
      assert q in interests && Agrees(kernel, q, interests[q]);
    }
    forall fd | fd in o.kernel && o.kernel[fd].owner in after ensures Owned(after, fd, o.kernel[fd].owner) {
      assert fd in kernel && kernel[fd].owner in interests ==> Owned(interests, fd, kernel[fd].owner);
    }
  }

  /** `removeEventDispatcher` is always accepted, takes the descriptor of a registered dispatcher out
      of the kernel and makes the dispatcher a new one. */
  lemma UnregisterAgrees<P>(interests: map<P, Interest>, kernel: map<nat, Entry<P>>, p: P)
    requires Agreement(interests, kernel) && p in interests
    requires interests[p].events == NONE && interests[p].mark != New
    ensures var o := Unregister(kernel, interests[p], p);
            && !o.refused && Agreement(interests[p := o.interest], o.kernel)
            && (OwnersExist(interests, kernel) ==> OwnersExist(interests[p := o.interest], o.kernel))
            && o.interest == Interest(interests[p].fd, NONE, New)
            && o.kernel == if interests[p].mark == Added then kernel - {interests[p].fd} else kernel
  {
    var o := Unregister(kernel, interests[p], p);
    var after := interests[p := o.interest];
    assert Agrees(kernel, p, interests[p]);
    forall q | q in after ensures Agrees(o.kernel, q, after[q]) {
      assert q in interests && Agrees(kernel, q, interests[q]);
    }
    forall fd | fd in o.kernel && o.kernel[fd].owner in after ensures Owned(after, fd, o.kernel[fd].owner) {
      assert Owned(interests, fd, kernel[fd].owner);
    }
  }

  lemma CreateAgrees<P>(interests: map<P, Interest>, kernel: map<nat, Entry<P>>, p: P, fd: nat)
    requires Agreement(interests, kernel) && p !in interests
    requires forall g :: g in kernel ==> kernel[g].owner != p
    ensures Agreement(interests[p := Interest(fd, NONE, New)], kernel)
    ensures OwnersExist(interests, kernel) ==> OwnersExist(interests[p := Interest(fd, NONE, New)], kernel)
  {
    var after := interests[p := Interest(fd, NONE, New)];
    forall q | q in after ensures Agrees(kernel, q, after[q]) {
      assert q != p ==> Agrees(kernel, q, interests[q]);
    }
    forall g | g in kernel && kernel[g].owner in after ensures Owned(after, g, kernel[g].owner) {
      assert Owned(interests, g, kernel[g].owner);
    }
  }

  /** Destroying a dispatcher leaves a dangling pointer in the kernel exactly when it is registered. */
  lemma DestroyAgrees<P>(interests: map<P, Interest>, kernel: map<nat, Entry<P>>, p: P)
    requires Agreement(interests, kernel) && p in interests
    ensures Agreement(interests - {p}, kernel)
    ensures OwnersExist(interests, kernel) ==> (OwnersExist(interests - {p}, kernel) <==> interests[p].mark != Added)
    ensures !OwnersExist(interests, kernel) ==> !OwnersExist(interests - {p}, kernel)
  {
    var after := interests - {p};
    assert Agrees(kernel, p, interests[p]);
    forall q | q in after ensures Agrees(kernel, q, after[q]) {
      assert Agrees(kernel, q, interests[q]);
    }
    forall fd | fd in kernel && kernel[fd].owner in after ensures Owned(after, fd, kernel[fd].owner) {
      assert Owned(interests, fd, kernel[fd].owner);
    }
    if OwnersExist(interests, kernel) && interests[p].mark != Added {
      forall fd | fd in kernel ensures kernel[fd].owner in after {
        assert Owned(interests, fd, kernel[fd].owner);
      }
    }
  }

  // ------------------------------------------------------------------ the loop thread

  /** The identity of a dispatcher, never used twice; descriptors are used again and again. */
  type Id = nat

  /** One callback that was run: in which `handleEvent`, and the interest its dispatcher had then. */
  datatype Call = Call(turn: nat, id: Id, callback: Callback, interest: Interest)

  /** `batch` is the rest of the active list; `pending` the rest of the current `handleEvent`, and
      `userCode` tells that the last dispatch ran a callback.
      `faults` counts the steps that used a dispatcher after its destruction. */
  datatype State = State(
    interests: map<Id, Interest>, created: set<Id>, catchAll: set<Id>, kernel: map<nat, Entry<Id>>, refusals: nat, faults: nat,
    revents: map<Id, Mask>, batch: seq<Id>, current: Id, pending: seq<Callback>,
    userCode: bool, turns: nat, calls: seq<Call>)

  /** `Ready(fd, revents)`: an event `epoll_wait` reports. */
  datatype Ready = Ready(fd: nat, revents: Mask)

  /** Every change of `events_` is an `Update` with the new mask; callbacks and queued functions make
      them, and create, remove and destroy dispatchers. */
  datatype Action =
    | Create(id: Id, fd: nat, catchAll: bool) | Update(id: Id, mask: Mask) | Remove(id: Id) | Destroy(id: Id)
    | Poll(ready: seq<Ready>) | Dispatch | Continue

  const INITIAL := State(map[], {}, {}, map[], 0, 0, map[], [], 0, [], false, 0, [])

  /** `epoll_wait` reports registered descriptors, each with bits that were asked for or are always reported. */
  predicate Reportable(kernel: map<nat, Entry<Id>>, e: Ready) {
    && e.fd in kernel && e.revents != 0
    && e.revents & !(kernel[e.fd].mask | POLLERR | POLLHUP) == 0
  }

  /** User code runs in callbacks, and when the active list is done. */
  predicate UserCode(s: State) {
    s.userCode || (s.batch == [] && s.pending == [])
  }

  predicate Enabled(s: State, a: Action) {
    match a
    case Create(id, _, _) => UserCode(s) && id !in s.created
    case Update(id, _) => UserCode(s) && id in s.interests
    case Remove(id) => UserCode(s) && id in s.interests && s.interests[id].events == NONE && s.interests[id].mark != New
    case Destroy(id) => UserCode(s) && id in s.interests
    case Poll(ready) => s.batch == [] && s.pending == [] && forall i :: 0 <= i < |ready| ==> Reportable(s.kernel, ready[i])
    case Dispatch => s.batch != [] && s.pending == []
    case Continue => s.pending != []
  }

  function Settle(s: State, id: Id, o: Outcome<Id>): State {
    s.(kernel := o.kernel, interests := s.interests[id := o.interest],
       refusals := s.refusals + if o.refused then 1 else 0)
  }

  function Owners(kernel: map<nat, Entry<Id>>, ready: seq<Ready>): seq<Id>
    requires forall i :: 0 <= i < |ready| ==> Reportable(kernel, ready[i])
  {
    if ready == [] then [] else
    var last := |ready| - 1;
    assert Reportable(kernel, ready[last]);
    Owners(kernel, ready[..last]) + [kernel[ready[last].fd].owner]
  }

  /** `fillActiveDispatchers`: `setRealEvents` on each reported dispatcher in turn. */
  function Fill(revents: map<Id, Mask>, kernel: map<nat, Entry<Id>>, ready: seq<Ready>): map<Id, Mask>
    requires forall i :: 0 <= i < |ready| ==> Reportable(kernel, ready[i])
  {
    if ready == [] then revents else
    var last := |ready| - 1;
    assert Reportable(kernel, ready[last]);
    Fill(revents, kernel, ready[..last])[kernel[ready[last].fd].owner := ready[last].revents]
  }

  /** Runs the next callback of the current dispatcher. */
  function Run(s: State, id: Id, callbacks: seq<Callback>): State
    requires id in s.interests
  {
    if callbacks == [] then s.(pending := [], userCode := false)
    else s.(current := id, pending := callbacks[1..], userCode := true,
            calls := s.calls + [Call(s.turns, id, callbacks[0], s.interests[id])])
  }

  function Seen(s: State, id: Id): Mask {
    if id in s.revents then s.revents[id] else 0
  }

  function Fault(s: State): State {
    s.(faults := s.faults + 1, pending := [], userCode := false)
  }

  function Apply(s: State, a: Action): State
    requires Enabled(s, a)
  {
    match a
    case Create(id, fd, catchAll) =>
      s.(interests := s.interests[id := Interest(fd, NONE, New)], created := s.created + {id},
         catchAll := if catchAll then s.catchAll + {id} else s.catchAll)
    case Update(id, mask) => Settle(s, id, Registered(s.interests, s.kernel, id, mask))
    case Remove(id) => Settle(s, id, Unregister(s.kernel, s.interests[id], id))
    case Destroy(id) => s.(interests := s.interests - {id})
    case Poll(ready) =>
      var t := s.(revents := Fill(s.revents, s.kernel, ready), batch := Owners(s.kernel, ready), userCode := false);
      if forall id :: id in t.batch ==> id in s.interests then t else Fault(t)
    case Dispatch =>
      var id := s.batch[0];
      var t := s.(batch := s.batch[1..], userCode := false, turns := s.turns + 1);
      if id !in s.interests then Fault(t)
      else if s.interests[id].events == NONE then t
      else Run(t, id, Callbacks(Seen(s, id), id in s.catchAll))
    case Continue => if s.current in s.interests then Run(s, s.current, s.pending) else Fault(s)
  }

  function Exec(run: seq<Action>): Option<State> {
    if run == [] then Some(INITIAL) else
    match Exec(run[..|run| - 1])
    case None => None
    case Some(s) => if Enabled(s, run[|run| - 1]) then Some(Apply(s, run[|run| - 1])) else None
  }

  // ------------------------------------------------------------------ whole runs

  predicate Clash(s: State, a: Action) {
    a.Update? && a.id in s.interests && Taken(s.kernel, s.interests[a.id])
  }

  predicate DestroysRegistered(s: State, a: Action) {
    a.Destroy? && a.id in s.interests && s.interests[a.id].mark == Added
  }

  /** No step of the run registers a descriptor the kernel has. */
  predicate NoClash(run: seq<Action>) {
    run == [] || (NoClash(run[..|run| - 1]) &&
                  match Exec(run[..|run| - 1])
                  case None => true
                  case Some(s) => !Clash(s, run[|run| - 1]))
  }

  /** No step of the run destroys a registered dispatcher. */
  predicate NoLoss(run: seq<Action>) {
    run == [] || (NoLoss(run[..|run| - 1]) &&
                  match Exec(run[..|run| - 1])
                  case None => true
                  case Some(s) => !DestroysRegistered(s, run[|run| - 1]))
  }

  /** Dispatchers and kernel pointers are those of dispatchers that were created. */
  ghost predicate AllCreated(s: State) {
    && (forall id :: id in s.interests ==> id in s.created)
    && (forall fd :: fd in s.kernel ==> s.kernel[fd].owner in s.created)
  }

  lemma StepCreated(s: State, a: Action)
    requires AllCreated(s) && Enabled(s, a)
    ensures AllCreated(Apply(s, a))
  {
  }

  /** Every step keeps the agreement and is accepted by the kernel, except exactly a registration of
      a taken descriptor. */
  lemma StepAgreement(s: State, a: Action)
    requires Agreement(s.interests, s.kernel) && AllCreated(s) && Enabled(s, a)
    ensures var t := Apply(s, a);
            && (Agreement(t.interests, t.kernel) <==> !Clash(s, a))
            && (t.refusals == s.refusals <==> !Clash(s, a))
  {
    match a
    case Create(id, fd, _) => CreateAgrees(s.interests, s.kernel, id, fd);
    case Update(id, mask) => RegisterAgrees(s.interests, s.kernel, id, mask);
    case Remove(id) => UnregisterAgrees(s.interests, s.kernel, id);
    case Destroy(id) => DestroyAgrees(s.interests, s.kernel, id);
    case _ =>
  }

  /** And it leaves no dangling pointer in the kernel, except exactly a destruction of a registered dispatcher. */
  lemma StepOwners(s: State, a: Action)
    requires Agreement(s.interests, s.kernel) && AllCreated(s) && Enabled(s, a) && !Clash(s, a)
    ensures var t := Apply(s, a);
            OwnersExist(t.interests, t.kernel) <==> OwnersExist(s.interests, s.kernel) && !DestroysRegistered(s, a)
  {
    match a
    case Create(id, fd, _) =>
      CreateAgrees(s.interests, s.kernel, id, fd);
      DanglingStays(s, a);
    case Update(id, mask) =>
      RegisterAgrees(s.interests, s.kernel, id, mask);
      DanglingStays(s, a);
    case Remove(id) =>
      UnregisterAgrees(s.interests, s.kernel, id);
      DanglingStays(s, a);
    case Destroy(id) => DestroyAgrees(s.interests, s.kernel, id);
    case _ =>
  }

  /** Without a clash the entry of a destroyed dispatcher is never overwritten or deleted. */
  lemma DanglingStays(s: State, a: Action)
    requires Agreement(s.interests, s.kernel) && AllCreated(s) && Enabled(s, a) && !Clash(s, a)
    requires a.Create? || a.Update? || a.Remove?
    ensures !OwnersExist(s.interests, s.kernel) ==> !OwnersExist(Apply(s, a).interests, Apply(s, a).kernel)
  {
    var t := Apply(s, a);
    if !OwnersExist(s.interests, s.kernel) {
      var fd :| fd in s.kernel && s.kernel[fd].owner !in s.interests;
      assert a.id in s.interests ==> Agrees(s.kernel, a.id, s.interests[a.id]);
      assert fd in t.kernel && t.kernel[fd].owner !in t.interests;
    }
  }

  lemma Peel(run: seq<Action>, s: State) returns (s0: State, last: Action)
    requires Exec(run) == Some(s) && run != []
    ensures Exec(run[..|run| - 1]) == Some(s0) && last == run[|run| - 1]
    ensures Enabled(s0, last) && s == Apply(s0, last)
  {
    s0, last := Exec(run[..|run| - 1]).value, run[|run| - 1];
  }

  lemma RefusalsGrow(s: State, a: Action)
    requires Enabled(s, a)
    ensures Apply(s, a).refusals >= s.refusals
  {
  }

  lemma {:induction false} EverCreated(run: seq<Action>, s: State)
    requires Exec(run) == Some(s)
    ensures AllCreated(s)
  {
    if run != [] {
      var s0, last := Peel(run, s);
      EverCreated(run[..|run| - 1], s0);
      StepCreated(s0, last);
    }
  }

  /** Over any sequence of operations on any dispatchers, no `epoll_ctl` call is refused if and only if
      no step registers a descriptor the kernel has; and as long as that is so, every flag agrees with
      the kernel. */
  lemma {:induction false} KernelAgreement(run: seq<Action>, s: State)
    requires Exec(run) == Some(s)
    ensures s.refusals == 0 <==> NoClash(run)
    ensures NoClash(run) ==> Agreement(s.interests, s.kernel)
  {
    if run != [] {
      var s0, last := Peel(run, s);
      KernelAgreement(run[..|run| - 1], s0);
      EverCreated(run[..|run| - 1], s0);
      RefusalsGrow(s0, last);
      if NoClash(run[..|run| - 1]) {
        StepAgreement(s0, last);
      }
    }
  }

  /** As long as no call is refused, every pointer in the kernel is that of an existing dispatcher if
      and only if no registered dispatcher was ever destroyed. */
  lemma {:induction false} KernelPointers(run: seq<Action>, s: State)
    requires Exec(run) == Some(s) && NoClash(run)
    ensures OwnersExist(s.interests, s.kernel) <==> NoLoss(run)
  {
    if run != [] {
      var s0, last := Peel(run, s);
      KernelPointers(run[..|run| - 1], s0);
      KernelAgreement(run[..|run| - 1], s0);
      EverCreated(run[..|run| - 1], s0);
      StepOwners(s0, last);
    }
  }

  // ------------------------------------------------------------------ when nothing can clash

  /** The descriptors of existing dispatchers differ at every point of the run, so a number may be
      used again once the dispatcher that had it is destroyed. */
  ghost predicate DistinctFds(run: seq<Action>) {
    && (run == [] || DistinctFds(run[..|run| - 1]))
    && match Exec(run)
       case None => true
       case Some(s) =>
         forall i, j :: i in s.interests && j in s.interests && i != j ==> s.interests[i].fd != s.interests[j].fd
  }

  /** Distinct descriptors, and no destruction of a registered dispatcher, are enough. */
  lemma {:induction false} DistinctNeverClash(run: seq<Action>, s: State)
    requires Exec(run) == Some(s) && DistinctFds(run) && NoLoss(run)
    ensures NoClash(run) && s.refusals == 0
  {
    if run != [] {
      var s0, last := Peel(run, s);
      DistinctNeverClash(run[..|run| - 1], s0);
      KernelAgreement(run[..|run| - 1], s0);
      KernelPointers(run[..|run| - 1], s0);
      if Clash(s0, last) {
        TakenMeaning(s0.interests, s0.kernel, last.id);
      }
    }
    KernelAgreement(run, s);
  }

  /** A descriptor is free for a new dispatcher exactly when no registered dispatcher has it. */
  lemma ReusedDescriptor(s: State, id: Id, fd: nat, catchAll: bool, mask: Mask)
    requires Agreement(s.interests, s.kernel) && OwnersExist(s.interests, s.kernel) && AllCreated(s)
    requires UserCode(s) && id !in s.created
    ensures var t := Apply(s, Create(id, fd, catchAll));
            Clash(t, Update(id, mask)) <==> exists q :: q in s.interests && Owned(s.interests, fd, q)
  {
    forall q | q in s.interests && Owned(s.interests, fd, q) ensures fd in s.kernel {
      assert Agrees(s.kernel, q, s.interests[q]);
    }
    assert fd in s.kernel ==> Owned(s.interests, fd, s.kernel[fd].owner);
  }

  // ------------------------------------------------------------------ disabling

  /** `disableAll` toggles: the descriptor is in the kernel afterwards exactly when it was not before. */
  lemma DisableAllToggles(s: State, id: Id)
    requires Agreement(s.interests, s.kernel) && UserCode(s) && id in s.interests && !Clash(s, Update(id, NONE))
    ensures s.interests[id].fd in Apply(s, Update(id, NONE)).kernel <==> s.interests[id].fd !in s.kernel
  {
    assert Agrees(s.kernel, id, s.interests[id]);
  }

  /** Still, `disableAll` followed by `remove` always takes the descriptor out. */
  lemma DisableThenRemove(s: State, id: Id)
    requires Agreement(s.interests, s.kernel) && UserCode(s) && id in s.interests && !Clash(s, Update(id, NONE))
    ensures var t := Apply(s, Update(id, NONE));
            && Enabled(t, Remove(id))
            && Apply(t, Remove(id)).kernel == s.kernel - {s.interests[id].fd}
            && Apply(t, Remove(id)).interests == s.interests[id := Interest(s.interests[id].fd, NONE, New)]
  {
    assert Agrees(s.kernel, id, s.interests[id]);
  }

  // ------------------------------------------------------------------ callbacks

  /** A dispatcher that only ever asks to read or write has a callback for anything reported to it,
      and is only told to read what it asked to read. */
  lemma ReadyIsHandled(mask: Mask, revents: Mask)
    requires mask & !(READ | WRITE) == 0 && revents != 0 && revents & !(mask | POLLERR | POLLHUP) == 0
    ensures Callbacks(revents, false) != []
    ensures ReadCallback in Callbacks(revents, false) ==> mask & READ != 0
    ensures WriteCallback in Callbacks(revents, false) ==> mask & WRITE != 0
  {
  }

  /** A callback ran while its dispatcher was registered and interested in something, or it is the
      write callback right behind the read callback in the same `handleEvent`. */
  predicate Justified(calls: seq<Call>, k: nat)
    requires k < |calls|
  {
    || (calls[k].interest.events != NONE && calls[k].interest.mark == Added)
    || (k > 0 && calls[k].callback == WriteCallback && calls[k - 1].callback == ReadCallback
        && calls[k - 1].id == calls[k].id && calls[k - 1].turn == calls[k].turn)
  }

  /** Inside a `handleEvent` only the write callback can still be due, right behind the read callback. */
  predicate PendingOk(s: State) {
    s.pending != [] ==>
      && s.pending == [WriteCallback] && s.calls != []
      && s.calls[|s.calls| - 1].callback == ReadCallback && s.calls[|s.calls| - 1].id == s.current
      && s.calls[|s.calls| - 1].turn == s.turns
  }

  ghost predicate CallsOk(s: State) {
    PendingOk(s) && forall k :: 0 <= k < |s.calls| ==> Justified(s.calls, k)
  }

  lemma StepCalls(s: State, a: Action)
    requires Agreement(s.interests, s.kernel) && CallsOk(s) && Enabled(s, a)
    ensures CallsOk(Apply(s, a))
  {
    match a
    case Dispatch =>
      var id := s.batch[0];
      if id in s.interests && s.interests[id].events != NONE {
        assert Agrees(s.kernel, id, s.interests[id]);
        RunCalls(s.(batch := s.batch[1..], userCode := false, turns := s.turns + 1), id, Callbacks(Seen(s, id), id in s.catchAll));
      }
    case Continue =>
      if s.current in s.interests {
        RunCalls(s, s.current, s.pending);
      }
    case _ =>
  }

  lemma RunCalls(s: State, id: Id, callbacks: seq<Callback>)
    requires CallsOk(s) && id in s.interests
    requires s.pending == [] ==>
               && (exists revents, catchAll :: callbacks == Callbacks(revents, catchAll))
               && s.interests[id].events != NONE && s.interests[id].mark == Added
    requires s.pending != [] ==> callbacks == s.pending && id == s.current
    ensures CallsOk(Run(s, id, callbacks))
  {
    var t := Run(s, id, callbacks);
    forall k | 0 <= k < |t.calls| ensures Justified(t.calls, k) {
      assert k < |s.calls| ==> Justified(s.calls, k);
    }
  }

  /** A dispatcher that is disabled or removed gets no further callback, but for the write callback of
      a `handleEvent` whose read callback did it. */
  lemma {:induction false} CallsAreJustified(run: seq<Action>, s: State)
    requires Exec(run) == Some(s) && NoClash(run)
    ensures CallsOk(s)
  {
    if run != [] {
      var s0, last := Peel(run, s);
      KernelAgreement(run[..|run| - 1], s0);
      CallsAreJustified(run[..|run| - 1], s0);
      StepCalls(s0, last);
    }
  }

  // ------------------------------------------------------------------ dangling pointers

  /** What the kernel reports is a registered dispatcher with the descriptor and the interest reported on. */
  lemma ReportedIsRegistered(s: State, e: Ready)
    requires Agreement(s.interests, s.kernel) && OwnersExist(s.interests, s.kernel) && Reportable(s.kernel, e)
    ensures var id := s.kernel[e.fd].owner;
            id in s.interests && s.interests[id] == Interest(e.fd, s.kernel[e.fd].mask, Added)
  {
    var id := s.kernel[e.fd].owner;
    assert Owned(s.interests, e.fd, id);
    assert Agrees(s.kernel, id, s.interests[id]);
  }

  /** The steps since the last poll. */
  function SincePoll(run: seq<Action>): seq<Action> {
    if run == [] || run[|run| - 1].Poll? then [] else SincePoll(run[..|run| - 1]) + [run[|run| - 1]]
  }

  predicate Gone(run: seq<Action>, id: Id) {
    Destroy(id) in SincePoll(run)
  }

  /** The step uses a dispatcher that was destroyed since the poll that reported it. */
  predicate UsesGone(run: seq<Action>, s: State, a: Action) {
    || (a == Dispatch && s.batch != [] && Gone(run, s.batch[0]))
    || (a == Continue && Gone(run, s.current))
  }

  predicate NeverUsesGone(run: seq<Action>) {
    run == [] || (NeverUsesGone(run[..|run| - 1]) &&
                  match Exec(run[..|run| - 1])
                  case None => true
                  case Some(s) => !UsesGone(run[..|run| - 1], s, run[|run| - 1]))
  }

  /** A pointer of the active list is good exactly when its dispatcher was not destroyed since the poll. */
  ghost predicate ActiveOk(run: seq<Action>, s: State) {
    && (forall id :: id in s.batch ==> id in s.created && (id in s.interests <==> !Gone(run, id)))
    && (s.pending != [] ==> s.current in s.created && (s.current in s.interests <==> !Gone(run, s.current)))
  }

  lemma {:induction false} OwnersAreKernels(kernel: map<nat, Entry<Id>>, ready: seq<Ready>, id: Id)
    requires forall i :: 0 <= i < |ready| ==> Reportable(kernel, ready[i])
    requires id in Owners(kernel, ready)
    ensures exists fd :: fd in kernel && kernel[fd].owner == id
  {
    var last := |ready| - 1;
    assert Reportable(kernel, ready[last]);
    if id != kernel[ready[last].fd].owner {
      OwnersAreKernels(kernel, ready[..last], id);
    }
  }

  lemma PollActive(run: seq<Action>, s: State, ready: seq<Ready>)
    requires Enabled(s, Poll(ready)) && AllCreated(s) && OwnersExist(s.interests, s.kernel)
    ensures ActiveOk(run + [Poll(ready)], Apply(s, Poll(ready))) && Apply(s, Poll(ready)).faults == s.faults
  {
    assert (run + [Poll(ready)])[|run|] == Poll(ready);
    forall id | id in Owners(s.kernel, ready) ensures id in s.interests {
      OwnersAreKernels(s.kernel, ready, id);
    }
  }

  lemma GoneStep(run: seq<Action>, a: Action, id: Id)
    requires !a.Poll?
    ensures Gone(run + [a], id) <==> Gone(run, id) || a == Destroy(id)
  {
    assert (run + [a])[..|run|] == run;
  }

  /** Of the dispatchers created so far, a step that is not a poll takes away the one it destroys. */
  lemma StepExisting(s: State, a: Action, id: Id)
    requires AllCreated(s) && Enabled(s, a) && !a.Poll? && id in s.created
    ensures id in Apply(s, a).created
    ensures id in Apply(s, a).interests <==> id in s.interests && a != Destroy(id)
  {
    match a
    case Create(_, _, _) =>
    case Update(_, _) =>
    case Remove(_) =>
    case Destroy(_) =>
    case _ =>
  }

  lemma StepShrinks(s: State, a: Action)
    requires Enabled(s, a) && !a.Poll?
    ensures forall id :: id in Apply(s, a).batch ==> id in s.batch
    ensures Apply(s, a).pending != [] ==>
              (a == Dispatch && Apply(s, a).current in s.batch) || (s.pending != [] && Apply(s, a).current == s.current)
  {
    if a == Dispatch {
      assert s.batch == [s.batch[0]] + s.batch[1..];
    }
  }

  lemma StepBatch(run: seq<Action>, s: State, a: Action, id: Id)
    requires ActiveOk(run, s) && AllCreated(s) && Enabled(s, a) && !a.Poll? && id in s.batch
    ensures id in Apply(s, a).created && (id in Apply(s, a).interests <==> !Gone(run + [a], id))
  {
    GoneStep(run, a, id);
    StepExisting(s, a, id);
  }

  lemma StepCurrent(run: seq<Action>, s: State, a: Action)
    requires ActiveOk(run, s) && AllCreated(s) && Enabled(s, a) && !a.Poll? && s.pending != []
    ensures s.current in Apply(s, a).created && (s.current in Apply(s, a).interests <==> !Gone(run + [a], s.current))
  {
    GoneStep(run, a, s.current);
    StepExisting(s, a, s.current);
  }

  lemma StepFaults(run: seq<Action>, s: State, a: Action)
    requires ActiveOk(run, s) && Enabled(s, a) && !a.Poll?
    ensures Apply(s, a).faults == s.faults <==> !UsesGone(run, s, a)
    ensures Apply(s, a).faults >= s.faults
  {
    assert s.batch != [] ==> s.batch[0] in s.batch;
  }

  lemma AnyStepActive(run: seq<Action>, s: State, a: Action)
    requires ActiveOk(run, s) && AllCreated(s) && OwnersExist(s.interests, s.kernel) && Enabled(s, a)
    ensures ActiveOk(run + [a], Apply(s, a))
    ensures Apply(s, a).faults == s.faults <==> !UsesGone(run, s, a)
    ensures Apply(s, a).faults >= s.faults
  {
    if a.Poll? {
      PollActive(run, s, a.ready);
    } else {
      StepFaults(run, s, a);
      StepShrinks(s, a);
      forall id | id in s.batch
        ensures id in Apply(s, a).created && (id in Apply(s, a).interests <==> !Gone(run + [a], id))
      {
        StepBatch(run, s, a, id);
      }
      if s.pending != [] {
        StepCurrent(run, s, a);
      }
    }
  }

  /** In every run without a clash and without destruction of a registered dispatcher: the pointers of
      the active list and of the current `handleEvent` are good exactly as far as nothing destroyed
      their dispatchers since the poll, and no step uses a destroyed dispatcher if and only if none
      dispatches or continues one destroyed since the poll. */
  lemma {:induction false} UseAfterDestroy(run: seq<Action>, s: State)
    requires Exec(run) == Some(s) && NoClash(run) && NoLoss(run)
    ensures ActiveOk(run, s)
    ensures s.faults == 0 <==> NeverUsesGone(run)
  {
    if run != [] {
      var front := run[..|run| - 1];
      var s0, last := Peel(run, s);
      UseAfterDestroy(front, s0);
      EverCreated(front, s0);
      KernelPointers(front, s0);
      AnyStepActive(front, s0, last);
      assert run == front + [last];
    }
  }

  // ---- seen from the destruction

  /** The step destroys a dispatcher that the active list still holds, or whose `handleEvent` has a
      callback to go. */
  predicate Hits(s: State, a: Action) {
    a.Destroy? && (a.id in s.batch || (s.pending != [] && a.id == s.current))
  }

  predicate NoHit(run: seq<Action>) {
    run == [] || (NoHit(run[..|run| - 1]) &&
                  match Exec(run[..|run| - 1])
                  case None => true
                  case Some(s) => !Hits(s, run[|run| - 1]))
  }

  predicate InBatch(s: State, id: Id) {
    id in s.batch && id !in s.interests
  }

  /** A destroyed dispatcher has been used, or will be. */
  ghost predicate Doomed(s: State) {
    s.faults > 0 || (exists id :: InBatch(s, id)) || (s.pending != [] && s.current !in s.interests)
  }

  lemma StepDoomed(run: seq<Action>, s: State, a: Action)
    requires ActiveOk(run, s) && AllCreated(s) && OwnersExist(s.interests, s.kernel) && Enabled(s, a)
    ensures Doomed(Apply(s, a)) <==> Doomed(s) || Hits(s, a)
  {
    match a
    case Create(id, _, _) => SameBatch(s, a);
    case Update(id, _) => SameBatch(s, a);
    case Remove(id) => SameBatch(s, a);
    case Destroy(id) => DestroyDoomed(s, id);
    case Poll(ready) => PollDoomed(run, s, ready);
    case Dispatch => DispatchDoomed(s);
    case Continue => ContinueDoomed(s);
  }

  lemma SameBatch(s: State, a: Action)
    requires Enabled(s, a) && (a.Create? || a.Update? || a.Remove?)
    requires (forall id :: id in s.batch ==> id in s.created) && (s.pending != [] ==> s.current in s.created)
    requires AllCreated(s)
    ensures Doomed(Apply(s, a)) <==> Doomed(s)
  {
    forall id ensures InBatch(Apply(s, a), id) <==> InBatch(s, id) {
    }
  }

  lemma DestroyDoomed(s: State, id: Id)
    requires Enabled(s, Destroy(id))
    ensures Doomed(Apply(s, Destroy(id))) <==> Doomed(s) || Hits(s, Destroy(id))
  {
    var t := Apply(s, Destroy(id));
    forall d ensures InBatch(t, d) <==> InBatch(s, d) || (d == id && id in s.batch) {
    }
    assert id in s.batch ==> InBatch(t, id);
  }

  lemma PollDoomed(run: seq<Action>, s: State, ready: seq<Ready>)
    requires Enabled(s, Poll(ready)) && AllCreated(s) && OwnersExist(s.interests, s.kernel)
    ensures Doomed(Apply(s, Poll(ready))) <==> Doomed(s)
  {
    PollActive(run, s, ready);
    forall id | id in Owners(s.kernel, ready) ensures id in s.interests {
      OwnersAreKernels(s.kernel, ready, id);
    }
    assert forall id :: !InBatch(s, id) && !InBatch(Apply(s, Poll(ready)), id);
  }

  lemma DispatchDoomed(s: State)
    requires Enabled(s, Dispatch)
    ensures Doomed(Apply(s, Dispatch)) <==> Doomed(s)
  {
    var t := Apply(s, Dispatch);
    var first := s.batch[0];
    assert s.batch == [first] + s.batch[1..];
    if first in s.interests {
      forall id ensures InBatch(t, id) <==> InBatch(s, id) {
      }
    } else {
      assert InBatch(s, first);
    }
  }

  lemma ContinueDoomed(s: State)
    requires Enabled(s, Continue)
    ensures Doomed(Apply(s, Continue)) <==> Doomed(s)
  {
    forall id ensures InBatch(Apply(s, Continue), id) <==> InBatch(s, id) {
    }
  }

  lemma {:induction false} DoomedExactly(run: seq<Action>, s: State)
    requires Exec(run) == Some(s) && NoClash(run) && NoLoss(run)
    ensures Doomed(s) <==> !NoHit(run)
  {
    if run != [] {
      var front := run[..|run| - 1];
      var s0, last := Peel(run, s);
      DoomedExactly(front, s0);
      UseAfterDestroy(front, s0);
      EverCreated(front, s0);
      KernelPointers(front, s0);
      StepDoomed(front, s0, last);
    }
  }

  /** In the same runs, once the batch is drained: no step has used a destroyed dispatcher if and only
      if no dispatcher was destroyed that was still in the active list, or in the `handleEvent` of
      which a callback was still to come. */
  lemma SafeDestruction(run: seq<Action>, s: State)
    requires Exec(run) == Some(s) && NoClash(run) && NoLoss(run)
    requires s.batch == [] && s.pending == []
    ensures s.faults == 0 <==> NoHit(run)
  {
    DoomedExactly(run, s);
  }

  // ------------------------------------------------------------------ runs that surprise

  lemma Extend(run: seq<Action>, s: State, a: Action, t: State)
    requires Exec(run) == Some(s) && Enabled(s, a) && Apply(s, a) == t
    ensures Exec(run + [a]) == Some(t)
  {
    assert (run + [a])[..|run|] == run;
  }

  /** The run is free of clashes and losses if no call was refused and all pointers are good in the end. */
  lemma Careful(run: seq<Action>, s: State)
    requires Exec(run) == Some(s) && s.refusals == 0 && OwnersExist(s.interests, s.kernel)
    ensures NoClash(run) && NoLoss(run)
  {
    KernelAgreement(run, s);
    KernelPointers(run, s);
  }

  const BOTH: Mask := READ | WRITE
  const READY: Ready := Ready(7, POLLIN | POLLOUT)
  const LISTENING := Interest(7, BOTH, Added)
  const CREATED := INITIAL.(interests := map[0 := Interest(7, NONE, New)], created := {0})
  const ARMED := CREATED.(interests := map[0 := LISTENING], kernel := map[7 := Entry(BOTH, 0)])
  const POLLED := ARMED.(revents := map[0 := POLLIN | POLLOUT], batch := [0])
  const READING := POLLED.(
    batch := [], turns := 1, pending := [WriteCallback], userCode := true, calls := [Call(1, 0, ReadCallback, LISTENING)])
  const DISABLED := READING.(interests := map[0 := Interest(7, NONE, Deleted)], kernel := map[])
  const REMOVED := DISABLED.(interests := map[0 := Interest(7, NONE, New)])

  lemma ReachCreated()
    ensures Exec([Create(0, 7, false)]) == Some(CREATED)
  {
    Extend([], INITIAL, Create(0, 7, false), CREATED);
    assert [] + [Create(0, 7, false)] == [Create(0, 7, false)];
  }

  lemma ReachArmed()
    ensures Exec([Create(0, 7, false)] + [Update(0, BOTH)]) == Some(ARMED)
  {
    ReachCreated();
    Extend([Create(0, 7, false)], CREATED, Update(0, BOTH), ARMED);
  }

  lemma PollOne(kernel: map<nat, Entry<Id>>, e: Ready)
    requires Reportable(kernel, e)
    ensures Owners(kernel, [e]) == [kernel[e.fd].owner] && Fill(map[], kernel, [e]) == map[kernel[e.fd].owner := e.revents]
  {
    assert [e][..0] == [] && [e][0] == e;
    assert Owners(kernel, []) == [] && Fill(map[], kernel, []) == map[];
  }

  lemma PollArmed()
    ensures Enabled(ARMED, Poll([READY])) && Apply(ARMED, Poll([READY])) == POLLED
  {
    assert ARMED.kernel[7] == Entry(BOTH, 0) && Reportable(ARMED.kernel, READY);
    PollOne(ARMED.kernel, READY);
  }

  const TO_POLLED := [Create(0, 7, false)] + [Update(0, BOTH)] + [Poll([READY])]

  lemma ReachPolled()
    ensures Exec(TO_POLLED) == Some(POLLED)
  {
    ReachArmed();
    PollArmed();
    Extend([Create(0, 7, false)] + [Update(0, BOTH)], ARMED, Poll([READY]), POLLED);
  }

  lemma ReachRemoved() returns (run: seq<Action>)
    ensures Exec(run) == Some(REMOVED)
  {
    ReachPolled();
    Extend(TO_POLLED, POLLED, Dispatch, READING);
    assert map[7 := Entry(BOTH, 0)] - {7} == map[];
    Extend(TO_POLLED + [Dispatch], READING, Update(0, NONE), DISABLED);
    Extend(TO_POLLED + [Dispatch] + [Update(0, NONE)], DISABLED, Remove(0), REMOVED);
    run := TO_POLLED + [Dispatch] + [Update(0, NONE)] + [Remove(0)];
  }

  /** The exception in `Justified` happens: a read callback that disables and removes its dispatcher
      does not stop the write callback behind it. */
  lemma RemovedYetWriting() returns (run: seq<Action>, s: State)
    ensures Exec(run) == Some(s) && |s.calls| == 2
    ensures s.calls[1] == Call(1, 0, WriteCallback, Interest(7, NONE, New))
  {
    run := ReachRemoved();
    s := Apply(REMOVED, Continue);
    Extend(run, REMOVED, Continue, s);
    run := run + [Continue];
  }

  /** A read callback that disables, removes and destroys its own dispatcher, in this order, leaves
      `handleEvent` inside a destroyed object. */
  lemma DestroyedYetContinued() returns (run: seq<Action>, s: State)
    ensures Exec(run) == Some(s) && NoClash(run) && NoLoss(run) && s.faults == 1
  {
    run := ReachRemoved();
    var gone := REMOVED.(interests := map[]);
    assert REMOVED.interests - {0} == map[];
    Extend(run, REMOVED, Destroy(0), gone);
    run := run + [Destroy(0)];
    s := Fault(gone);
    Extend(run, gone, Continue, s);
    run := run + [Continue];
    Careful(run, s);
  }

  // ---- two dispatchers in one batch

  const EIGHT: Ready := Ready(8, POLLIN)
  const SEVEN: Ready := Ready(7, POLLIN)
  const BESIDE := ARMED.(interests := map[0 := LISTENING, 1 := Interest(8, NONE, New)], created := {0, 1})
  const PAIR := BESIDE.(
    interests := map[0 := LISTENING, 1 := Interest(8, BOTH, Added)], kernel := map[7 := Entry(BOTH, 0), 8 := Entry(BOTH, 1)])
  const REPORTED := PAIR.(revents := map[0 := POLLIN, 1 := POLLIN], batch := [0, 1])
  const FIRST := REPORTED.(batch := [1], turns := 1, userCode := true, calls := [Call(1, 0, ReadCallback, LISTENING)])
  const OTHER_OFF := FIRST.(interests := map[0 := LISTENING, 1 := Interest(8, NONE, Deleted)], kernel := map[7 := Entry(BOTH, 0)])
  const OTHER_OUT := OTHER_OFF.(interests := map[0 := LISTENING, 1 := Interest(8, NONE, New)])
  const OTHER_GONE := OTHER_OUT.(interests := map[0 := LISTENING])

  const TO_PAIR := [Create(0, 7, false)] + [Update(0, BOTH)] + [Create(1, 8, false)] + [Update(1, BOTH)]

  lemma ReachPair()
    ensures Exec(TO_PAIR) == Some(PAIR)
  {
    ReachArmed();
    Extend([Create(0, 7, false)] + [Update(0, BOTH)], ARMED, Create(1, 8, false), BESIDE);
    Extend([Create(0, 7, false)] + [Update(0, BOTH)] + [Create(1, 8, false)], BESIDE, Update(1, BOTH), PAIR);
  }

  lemma PollPair()
    ensures Enabled(PAIR, Poll([SEVEN, EIGHT])) && Apply(PAIR, Poll([SEVEN, EIGHT])) == REPORTED
  {
    assert PAIR.kernel[7] == Entry(BOTH, 0) && PAIR.kernel[8] == Entry(BOTH, 1);
    assert Reportable(PAIR.kernel, SEVEN) && Reportable(PAIR.kernel, EIGHT);
    PollOne(PAIR.kernel, SEVEN);
    assert [SEVEN, EIGHT][..1] == [SEVEN] && [SEVEN, EIGHT][1] == EIGHT;
    assert Owners(PAIR.kernel, [SEVEN, EIGHT]) == [0] + [1];
    assert Fill(map[], PAIR.kernel, [SEVEN, EIGHT]) == map[0 := POLLIN][1 := POLLIN];
  }

  lemma ReachFirst() returns (run: seq<Action>)
    ensures Exec(run) == Some(FIRST)
  {
    ReachPair();
    PollPair();
    run := TO_PAIR + [Poll([SEVEN, EIGHT])];
    Extend(TO_PAIR, PAIR, Poll([SEVEN, EIGHT]), REPORTED);
    Extend(run, REPORTED, Dispatch, FIRST);
    run := run + [Dispatch];
  }

  lemma OtherSteps()
    ensures Enabled(FIRST, Update(1, NONE)) && Apply(FIRST, Update(1, NONE)) == OTHER_OFF
    ensures Enabled(OTHER_OFF, Remove(1)) && Apply(OTHER_OFF, Remove(1)) == OTHER_OUT
  {
    assert FIRST.kernel - {8} == OTHER_OFF.kernel;
  }

  lemma OtherDestroyed()
    ensures Enabled(OTHER_OUT, Destroy(1)) && Apply(OTHER_OUT, Destroy(1)) == OTHER_GONE
  {
    assert OTHER_OUT.interests - {1} == OTHER_GONE.interests;
  }

  lemma ReachOtherGone() returns (run: seq<Action>)
    ensures Exec(run) == Some(OTHER_GONE)
  {
    run := ReachFirst();
    OtherSteps();
    OtherDestroyed();
    Extend(run, FIRST, Update(1, NONE), OTHER_OFF);
    run := run + [Update(1, NONE)];
    Extend(run, OTHER_OFF, Remove(1), OTHER_OUT);
    run := run + [Remove(1)];
    Extend(run, OTHER_OUT, Destroy(1), OTHER_GONE);
    run := run + [Destroy(1)];
  }

  /** A callback that disables, removes and destroys another dispatcher, in this order, leaves a
      dangling pointer in the active list, and the loop follows it. */
  lemma DestroyedYetDispatched() returns (run: seq<Action>, s: State)
    ensures Exec(run) == Some(s) && NoClash(run) && NoLoss(run) && s.faults == 1
  {
    run := ReachOtherGone();
    s := Apply(OTHER_GONE, Dispatch);
    Extend(run, OTHER_GONE, Dispatch, s);
    run := run + [Dispatch];
    Careful(run, s);
  }
}
