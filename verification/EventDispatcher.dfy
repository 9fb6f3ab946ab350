/** The mutable objects behind module EpollPoller: each method changes its fields as the source does
    and keeps, over all dispatchers of a poller, the agreement that module defines. */
module EventDispatcher {
  import opened EpollPoller

  class Poller {
    /** The kernel's interest set; `data.ptr` is the registered dispatcher. */
    var kernel: map<nat, Entry<Dispatcher>>
    /** The dispatchers that exist. */
    ghost var registry: set<Dispatcher>

    ghost function Interests(): map<Dispatcher, Interest>
      reads this, registry
    {
      map d | d in registry :: d.Current()
    }

    /** Flags and kernel agree for every dispatcher, and the kernel points to no other. */
    ghost predicate Valid()
      reads this, registry
    {
      && (forall d :: d in registry ==> d.poller == this)
      && Agreement(Interests(), kernel) && OwnersExist(Interests(), kernel)
    }

    /** The same, but that `channel` has been given a new mask which is not registered yet. */
    ghost predicate ValidBefore(channel: Dispatcher, mask: Mask)
      reads this, registry, channel
    {
      && channel in registry && (forall d :: d in registry ==> d.poller == this)
      && Agreement(Interests()[channel := channel.Current().(events := mask)], kernel)
      && OwnersExist(Interests(), kernel)
    }

    constructor ()
      ensures Valid() && kernel == map[] && registry == {}
    {
      kernel := map[];
      registry := {};
    }

    /** `updateEventDispatcher`: one `epoll_ctl` call; false when the kernel refuses it. */
    method UpdateEventDispatcher(command: Command, channel: Dispatcher) returns (accepted: bool)
      modifies this`kernel
      ensures var o := Control(old(kernel), command, channel.Current(), channel);
              kernel == o.kernel && accepted == !o.refused
    {
      accepted := if command == ADD then channel.fd !in kernel else channel.fd in kernel;
      if accepted {
        kernel := if command == DEL then kernel - {channel.fd} else kernel[channel.fd := Entry(channel.events, channel)];
      }
    }

    /** The state of all dispatchers after the flag or the mask of one of them has changed. */
    twostate lemma OneChanged(new channel: Dispatcher)
      requires channel in registry && registry == old(registry)
      requires forall d :: d in registry && d != channel ==> d.Current() == old(d.Current())
      ensures Interests() == old(Interests())[channel := channel.Current()]
    {
    }

    /** Registering the new mask of a dispatcher restores the agreement, and takes effect in the
        kernel, unless another dispatcher has the descriptor; no other descriptor is touched. */
    method RegisterEventDispatcher(channel: Dispatcher, ghost before: Mask)
      requires ValidBefore(channel, before)
      modifies this`kernel, channel`mark
      ensures kernel == Register(old(kernel), old(channel.Current()), channel).kernel
      ensures channel.Current() == Register(old(kernel), old(channel.Current()), channel).interest
      ensures Valid() <==> !old(Taken(kernel, channel.Current()))
      ensures Valid() ==>
                && kernel - {channel.fd} == old(kernel) - {channel.fd}
                && (channel.fd in kernel <==> !old(channel.mark == Added && channel.events == NONE))
                && (channel.fd in kernel ==> kernel[channel.fd] == Entry(channel.events, channel))
    {
      ghost var interests := Interests()[channel := channel.Current().(events := before)];
      assert Agrees(kernel, channel, interests[channel]);
      RegisterAgrees(interests, kernel, channel, channel.events);
      if !Taken(kernel, channel.Current()) {
        RegisterEffect(kernel, channel.Current(), channel);
      }
      IssueCommand(channel);
      OneChanged(channel);
      assert Interests() == interests[channel := channel.Current()];
    }

    /** The branches of `registerEventDispatcher`. */
    method IssueCommand(channel: Dispatcher)
      modifies this`kernel, channel`mark
      ensures kernel == Register(old(kernel), old(channel.Current()), channel).kernel
      ensures channel.Current() == Register(old(kernel), old(channel.Current()), channel).interest
    {
      if channel.mark == New || channel.mark == Deleted {
        channel.mark := Added;
        var _ := UpdateEventDispatcher(ADD, channel);
      } else if channel.events == NONE {
        var _ := UpdateEventDispatcher(DEL, channel);
        channel.mark := Deleted;
      } else {
        var _ := UpdateEventDispatcher(MOD, channel);
      }
    }

    /** The dispatcher's descriptor leaves the kernel if it is there, nothing else does, and the
        agreement is kept: this call is never refused. */
    method RemoveEventDispatcher(channel: Dispatcher)
      requires Valid() && channel in registry
      requires channel.events == NONE && channel.mark != New
      modifies this`kernel, channel`mark
      ensures Valid() && channel.mark == New
      ensures kernel == if old(channel.mark) == Added then old(kernel) - {channel.fd} else old(kernel)
    {
      UnregisterAgrees(Interests(), kernel, channel);
      if channel.mark == Added {
        var _ := UpdateEventDispatcher(DEL, channel);
      }
      channel.mark := New;
      OneChanged(channel);
    }

    /** `fillActiveDispatchers`: the active list is the reported dispatchers in order, and each of
        them has seen the last event reported for it. */
    method FillActiveDispatchers(reported: seq<(Dispatcher, Mask)>) returns (active: seq<Dispatcher>)
      modifies (set i | 0 <= i < |reported| :: reported[i].0)`revents
      ensures |active| == |reported| && forall i :: 0 <= i < |reported| ==> active[i] == reported[i].0
      ensures forall i :: 0 <= i < |reported| && (forall j :: i < j < |reported| ==> reported[j].0 != reported[i].0) ==>
                reported[i].0.revents == reported[i].1
    {
      active := [];
      var i := 0;
      while i < |reported|
        invariant 0 <= i <= |reported| && |active| == i
        invariant forall k :: 0 <= k < i ==> active[k] == reported[k].0
        invariant forall k :: 0 <= k < i && (forall j :: k < j < i ==> reported[j].0 != reported[k].0) ==>
                    reported[k].0.revents == reported[k].1
      {
        var dispatcher := reported[i].0;
        dispatcher.revents := reported[i].1;
        active := active + [dispatcher];
        i := i + 1;
      }
    }
  }

  class Dispatcher {
    const poller: Poller
    const fd: nat
    const tied: bool
    /** Whether a catch-all event callback is set. */
    const catchAll: bool
    var events: Mask
    var revents: Mask
    var mark: Mark
    var addedToLoop: bool
    /** The callbacks run so far. */
    ghost var calls: seq<Callback>

    /** A new dispatcher disturbs nobody. */
    constructor (poller: Poller, fd: nat, tied: bool, catchAll: bool)
      requires poller.Valid()
      modifies poller`registry
      ensures this.poller == poller && this.fd == fd && this.tied == tied && this.catchAll == catchAll
      ensures Current() == Interest(fd, NONE, New) && calls == []
      ensures poller.Valid() && poller.registry == old(poller.registry) + {this}
    {
      this.poller, this.fd, this.tied, this.catchAll := poller, fd, tied, catchAll;
      events, revents, mark, addedToLoop, calls := NONE, 0, New, false, [];
      new;
      ghost var interests := poller.Interests();
      CreateAgrees(interests, poller.kernel, this, fd);
      poller.registry := poller.registry + {this};
      assert poller.Interests() == interests[this := Current()];
    }

    /** The destructor does nothing; it is safe for the kernel exactly when the dispatcher is not registered. */
    ghost method Destroy()
      requires poller.Valid() && this in poller.registry
      modifies poller`registry
      ensures poller.registry == old(poller.registry) - {this}
      ensures poller.Valid() <==> mark != Added
    {
      ghost var interests := poller.Interests();
      DestroyAgrees(interests, poller.kernel, this);
      poller.registry := poller.registry - {this};
      assert poller.Interests() == interests - {this};
    }

    function Current(): Interest
      reads this
    {
      Interest(fd, events, mark)
    }

    /** A change of mask ended well: what `update()` promises when nobody else has the descriptor. */
    twostate predicate Updated(mask: Mask)
      reads this, poller, poller.registry
    {
      && events == mask
      && (poller.Valid() <==> !old(Taken(poller.kernel, Current())))
      && (poller.Valid() ==>
            && poller.kernel - {fd} == old(poller.kernel) - {fd}
            && (fd in poller.kernel <==> mask != NONE || old(mark) != Added))
    }

    method EnableReading()
      requires poller.Valid() && this in poller.registry
      modifies this`events, this`mark, poller`kernel
      ensures Updated(old(events) | READ) && IsReading() && IsWriting() == old(IsWriting())
    {
      UpdateEvents(events | READ);
    }

    method EnableWriting()
      requires poller.Valid() && this in poller.registry
      modifies this`events, this`mark, poller`kernel
      ensures Updated(old(events) | WRITE) && IsWriting() && IsReading() == old(IsReading())
    {
      UpdateEvents(events | WRITE);
    }

    method DisableReading()
      requires poller.Valid() && this in poller.registry
      modifies this`events, this`mark, poller`kernel
      ensures Updated(old(events) & !READ) && !IsReading() && IsWriting() == old(IsWriting())
    {
      UpdateEvents(events & !READ);
    }

    method DisableWriting()
      requires poller.Valid() && this in poller.registry
      modifies this`events, this`mark, poller`kernel
      ensures Updated(old(events) & !WRITE) && !IsWriting() && IsReading() == old(IsReading())
    {
      UpdateEvents(events & !WRITE);
    }

    method DisableAll()
      requires poller.Valid() && this in poller.registry
      modifies this`events, this`mark, poller`kernel
      ensures Updated(NONE) && !IsReading() && !IsWriting()
    {
      UpdateEvents(NONE);
    }

    /** `events_` is assigned and `update()` called. */
    method UpdateEvents(mask: Mask)
      requires poller.Valid() && this in poller.registry
      modifies this`events, this`mark, poller`kernel
      ensures Updated(mask)
    {
      ghost var before := events;
      ghost var interests := poller.Interests();
      events := mask;
      assert poller.Interests()[this := Current().(events := before)] == interests;
      assert poller.Interests().Keys == interests.Keys;
      poller.RegisterEventDispatcher(this, before);
    }

    /** After `disableAll` this is allowed, and the descriptor is out of the kernel whatever it was before. */
    method Remove()
      requires poller.Valid() && this in poller.registry
      requires events == NONE && mark != New
      modifies this`addedToLoop, this`mark, poller`kernel
      ensures poller.Valid() && !addedToLoop && mark == New
      ensures fd in poller.kernel <==> old(fd in poller.kernel && mark != Added)
      ensures poller.kernel - {fd} == old(poller.kernel) - {fd}
    {
      addedToLoop := false;
      poller.RemoveEventDispatcher(this);
    }

    predicate IsReading()
      reads this
    {
      events & READ != 0
    }

    predicate IsWriting()
      reads this
    {
      events & WRITE != 0
    }

    /** One thing user code may do: create a dispatcher, change or remove one, or destroy one that is
        not this.  It goes wrong exactly when it registers a descriptor that another dispatcher has
        registered, or destroys a registered dispatcher. */
    method UserStep(all: set<Dispatcher>) returns (live: set<Dispatcher>, clean: bool)
      requires poller.Valid() && all == poller.registry && this in all
      modifies all`events, all`mark, all`addedToLoop, poller`kernel, poller`registry
      ensures live == poller.registry && this in live
      ensures forall d :: d in live ==> d.poller == poller && (d in all || fresh(d))
      ensures clean <==> poller.Valid()
    {
      live, clean := all, true;
      var d: Dispatcher :| d in all;
      var create: bool, remove: bool, destroy: bool := *, *, *;
      if create {
        var fd: nat, isTied: bool, hasCatchAll: bool := *, *, *;
        var newcomer := new Dispatcher(poller, fd, isTied, hasCatchAll);
        live := live + {newcomer};
      } else if remove && d.events == NONE && d.mark != New {
        d.Remove();
      } else if destroy && d != this {
        clean := d.mark != Added;
        d.Destroy();
        live := live - {d};
      } else {
        var mask: Mask := *;
        clean := d.mark == Added || d.fd !in poller.kernel;
        d.UpdateEvents(mask);
      }
    }

    /** User code: any number of such steps.  Once one has gone wrong nothing more is said of the
        interest sets. */
    method UserCallback(callback: Callback, all: set<Dispatcher>, wasClean: bool) returns (live: set<Dispatcher>, clean: bool)
      requires this in all && (wasClean ==> poller.Valid() && all == poller.registry)
      modifies all`events, all`mark, all`addedToLoop, this`calls, poller`kernel, poller`registry
      ensures calls == old(calls) + [callback]
      ensures this in live && forall d :: d in live ==> d in all || fresh(d)
      ensures clean ==> wasClean && poller.Valid() && live == poller.registry
    {
      calls := calls + [callback];
      live, clean := all, wasClean;
      var steps: nat := *;
      while steps > 0 && clean
        invariant this in live && forall d :: d in live ==> d in all || fresh(d)
        invariant clean ==> wasClean && poller.Valid() && live == poller.registry
        invariant calls == old(calls) + [callback]
      {
        live, clean := UserStep(live);
        steps := steps - 1;
      }
    }

    /** `handleEvent`, with `alive` telling whether the tied object still exists.  Whatever the
        callbacks do, those run are the ones the reported events call for. */
    method HandleEvent(alive: bool, all: set<Dispatcher>) returns (live: set<Dispatcher>, clean: bool)
      requires poller.Valid() && all == poller.registry && this in all
      modifies all`events, all`mark, all`addedToLoop, this`calls, poller`kernel, poller`registry
      ensures calls == old(calls) + if old(events) == NONE || (tied && !alive) then [] else Callbacks(old(revents), catchAll)
      ensures old(events) != NONE && (!tied || alive) && catchAll ==> calls == old(calls) + [EventCallback]
      ensures clean ==> poller.Valid() && live == poller.registry && this in live
      ensures old(events) == NONE || (tied && !alive) ==> clean
    {
      if events == NONE {
        return all, true;
      }
      if !tied || alive {
        live, clean := HandleEventSafely(all);
      } else {
        return all, true;
      }
    }

    method HandleEventSafely(all: set<Dispatcher>) returns (live: set<Dispatcher>, clean: bool)
      requires poller.Valid() && all == poller.registry && this in all
      modifies all`events, all`mark, all`addedToLoop, this`calls, poller`kernel, poller`registry
      ensures calls == old(calls) + Callbacks(old(revents), catchAll)
      ensures clean ==> poller.Valid() && live == poller.registry && this in live
    {
      live, clean := all, true;
      if catchAll {
        live, clean := UserCallback(EventCallback, live, clean);
        return;
      }
      if revents & POLLHUP != 0 && revents & POLLIN == 0 {
        live, clean := UserCallback(CloseCallback, live, clean);
        return;
      }
      if revents & (POLLNVAL | POLLERR) != 0 {
        live, clean := UserCallback(ErrorCallback, live, clean);
        return;
      }
      if revents & (POLLIN | POLLPRI | POLLRDHUP) != 0 {
        live, clean := UserCallback(ReadCallback, live, clean);
      }
      if revents & POLLOUT != 0 {
        live, clean := UserCallback(WriteCallback, live, clean);
      }
    }
  }
}
