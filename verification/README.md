# Reactor core, timers, MySQL connector and parsers: a verified model

This project models the core of an event-driven MySQL connection library and proves what the code
keeps over whole runs.

* **Task queue and wakeups** (`MpscQueue`, `EventLoop`, `EventLoopThread`). The queue's heap is
  explicit: nodes, `next_` cells and payload boxes at addresses the allocator may reuse, with a fault
  flag for any access to freed memory. Producers and the loop interleave step by step, so a producer
  can stand between its head exchange and its link, or between its link and its eventfd write, while
  everything else goes on. `EventLoopThread` adds the three-promise handshake around one loop.
* **Timers** (`TimerQueue`, `TimerPromises`, `TimerScheduler`). Integer nanoseconds, two clock readings per arming,
  callbacks that add and cancel timers inside `handleRead`. The step machine and what an
  addition or an invalidation promises for the rest of any run carry the theorems; the class takes its
  steps in place, for arbitrary clocks and callbacks.
* **Interest sets** (`EpollPoller`, `EpollDispatch`, `EventDispatcher`). The three-state flag of each dispatcher
  against the kernel's map, with `epoll_ctl` refusing what the kernel refuses, descriptors reused and
  dispatchers created and destroyed at any time, and the dispatching of the batches of reported events.
  The poller class keeps the agreement for all its dispatchers.
* **MySQL connector** (`CommandTrace`, `LibraryDialogue`, `MySQLState`, `MySQLProtocol`,
  `MySQLProgress`, `MySQLGrowth`, `MySQLDialogue`, `MySQLOutcomes`, `MySQLCounterexamples`,
  `MySQLConnector`). The client library is an adversary whose replies are an arbitrary script; user
  callbacks may start the next command. `MySQLState` says what each handler does to the state,
  `MySQLConnector` does it on fields and stays on a run of that machine. `CommandTrace` is the protocol
  the user sees and `LibraryDialogue` the one that has the library's answers in it; `MySQLProtocol` and
  `MySQLDialogue` prove them for every script and every interleaving of events, timeouts, commands and
  queued continuations. `MySQLOutcomes` says what each reply leads to and `MySQLProgress` which commands
  in progress can still end.
* **Placeholders** of prepared statements, the **array text parser** (`ArrayText`, `ArrayParser`),
  **`splitString`** (`SplitString`) and the **timestamp text** (`DateText`, with `Decimals`).

Where the code does less than its documentation or callers suggest, the model follows the code; each
such place has a lemma with a concrete run or input and, next to it, the exact condition:

* `dequeue` may report empty although a later enqueue has completed (`EmptyIsNotLinearizable`,
  `EmptyMeaning`).
* `quit()` before `loop()` is lost (`LoopEntryForgetsQuit`). The destructor of `EventLoopThread`
  avoids this, but a foreign `quit()` between the clearing of the flag and its first test leaves
  `run()` waiting for ever (`RacedQuitStrandsRun`, `StrandedDestructor`).
* `disableAll()` on a dispatcher that is not registered registers it with an empty mask
  (`DisableAllToggles`); a write callback runs even when the read callback before it removed the
  dispatcher (`RemovedYetWriting`, `CallsAreJustified`).
* Destroying a dispatcher in a callback, even after `disableAll` and `remove`, leaves a dangling pointer
  when it is the current one or still in the active list (`DestroyedYetContinued`,
  `DestroyedYetDispatched`, `UseAfterDestroy`, `SafeDestruction`).
* A connector event that overtakes a queued continuation closes the connection in the middle of a
  command, or makes results and errors reach the wrong command (`ResultsInOrder`, `OvertakingEvent`,
  `ReportHitsWhoeverWorks`, `ResultAfterClose`, `ResultOfAnotherCommand`). It can come first in two ways:
  the command was started in a handler earlier in the same batch of events, or the drain of queued
  functions stopped at a node some thread had not linked yet (`EmptyMeaning`) and the loop polled again.
* Queued continuations do not refresh the event interest (`StaleInterest`, `ContinuationInterest`,
  `ContinuationInRuns`). After an error, which switches all interest off, this can leave the next command
  waiting on a healthy connection with nothing enabled at all (`DeadlockAfterContinuation`,
  `ContinuationProgress`, `StuckExactly`).
* When the last result set of a command had to be waited for, the connector goes on continuing that store
  between commands, and the server closing the idle connection is noticed only if the library reports
  the loss (`IdleCloseMissed`, `IdleEvent`).
* A wait for a timeout alone is never continued on an Ok connection: the timer goes off and is ignored
  (`TimeoutIgnored`, `TimeoutAloneNeverEnds`, `SettledProgress`).
* A command is accepted on a connection that was closed in the meantime, which a caller on another thread
  cannot prevent. It ends if no library call made for it has to wait, and otherwise never
  (`CommandAfterClose`, `CommandOnBad`, `StuckForever`).
* A connect that completes at once leaves the connection in Connecting for good (`InitMakesProgress`,
  `StuckInConnecting`).
* The array decoders keep the escape character of a pair, so backslash-escaped quotes do not survive
  (`BackslashRoundTrip`). The unquoted scanner does not stop at the end of the text
  (`GetNextProgress`).
* The two timestamp functions are documented as inverses; they are, except at midnight (`RoundTrip`).
  The reader runs off the end of the split seconds when they are points only (`PointForSeconds`,
  `OutOfBoundsExactly`).

Assumptions: atomic operations are sequentially consistent; `ABSL_LOG(FATAL)` logs and returns, as
the code behind it expects (in Abseil it ends the process); `closeCallback_` is set; commands are
started once `okCallback_` has been called and while none is running, whatever has become of the
connection since; `execSqlInLoop` is called with as many lengths and formats as parameters.
MySQLConnector.h is not part of this model (it is not in the repository); the fields and enumerations
it would declare are those the source file uses.

`dafny verify dfyconfig.toml` checks the whole project.

## Model

| member | source | states |
|---|---|---|
| MpscQueue.ExchangeInv | utils/MPSCQueue.h:38-49 | the first half of an enqueue keeps the queue well formed: the node joins the exchange order, its link is owed |
| MpscQueue.LinkInv | utils/MPSCQueue.h:42-48 | each `next_` cell is written once, into allocated memory, by the one producer that exchanged its node out |
| MpscQueue.LoadMeaning | utils/MPSCQueue.h:53-59 | the consumer sees a null `next_` exactly when nothing is outstanding or the oldest outstanding enqueue has not linked, and never reads freed memory |
| MpscQueue.TakeInv | utils/MPSCQueue.h:60-64 | a successful dequeue hands out the oldest value and deletes one box and one node that are allocated and owed to nobody |
| MpscQueue.Footprint | utils/MPSCQueue.h:50-65 | nothing leaks: allocated nodes and boxes are exactly the dummy and the outstanding ones |
| MpscQueue.Queue.constructor | utils/MPSCQueue.h:24-27 | an empty queue is one dummy node |
| MpscQueue.Queue.ExchangeHead | utils/MPSCQueue.h:40-41 | allocation and head exchange, with the whole new state |
| MpscQueue.Queue.LinkNext | utils/MPSCQueue.h:42-42 | the store to the previous head's `next_` |
| MpscQueue.Queue.Enqueue | utils/MPSCQueue.h:38-49 | both steps together append the value and owe nothing |
| MpscQueue.Queue.Dequeue | utils/MPSCQueue.h:50-65 | fails exactly when empty or hidden behind an unlinked node, else takes the oldest value; on failure nothing changes |
| MpscQueue.Queue.IsEmpty | utils/MPSCQueue.h:67-72 | reports empty exactly when `dequeue` would fail |
| MpscQueue.Queue.Drain | event/EventLoop.cpp:236-240 | the `runOnQuit` functions are taken in order until none is left or the next one is half enqueued |
| MpscQueue.Queue.Destroy | utils/MPSCQueue.h:28-36 | at quiescence every value is drained in order and every node and box is gone |
| EventLoop.StepInv | event/EventLoop.cpp:201-223 | every atomic step of every thread keeps the queue, the link owners, the loop position and the due wakeup consistent |
| EventLoop.Reachable | event/EventLoop.cpp:341-364 | the invariant holds in every reachable interleaving |
| EventLoop.Fifo | utils/MPSCQueue.h:38-65 | in every run the functions run are a prefix of those queued, in head-exchange order and each once |
| EventLoop.MemorySafe | utils/MPSCQueue.h:28-65 | in every run no step reads, writes or deletes a freed node or box, and exactly the dummy and the outstanding nodes are allocated |
| EventLoop.NoLostWakeup | event/EventLoop.cpp:341-364 | a loop at `poll` with eventfd 0 and no `queueInLoop` in progress has run everything ever queued, half-linked nodes notwithstanding |
| EventLoop.EmptyMeaning | event/EventLoop.cpp:121-133 | the drain stops exactly when everything was run or the thread owing the tail's link has not stored it |
| EventLoop.EmptyIsNotLinearizable | utils/MPSCQueue.h:50-59 | a run in which `dequeue` fails after another thread's enqueue has completed and nothing was dequeued |
| EventLoop.HistoryIsObserved | event/EventLoop.cpp:109-133 | the ghost histories are what the run shows: queued functions in exchange order, executed functions in order |
| EventLoop.QuitInForce | event/EventLoop.cpp:302-310 | `quit_` is set exactly when the last store to it was a `quit()` |
| EventLoop.QuitEndsPolling | event/EventLoop.cpp:201-205 | with `quit_` in force the loop leaves the `poll` it may be in and never polls again |
| EventLoop.LoopEntryForgetsQuit | event/EventLoop.cpp:188-205 | a `quit()` issued before `loop()` is lost: the loop reaches `poll` with the flag clear |
| EventLoop.EventfdCounts | event/EventLoop.cpp:302-310 | in every run the eventfd holds the number of writes since it was last read, up to its maximum: one for each `queueInLoop` of another thread or outside `loop()`, and for each `quit()` of another thread |
| EventLoop.WakeupsAreWritten | event/EventLoop.cpp:341-364 | in every run the wakeups of the loop never outnumber those writes |
| EventLoop.DrainsUntilEmpty | event/EventLoop.cpp:109-133 | the loop leaves a drain for its next test of `quit_` only when `empty()` has reported empty, and every poll is followed by a drain |
| EventLoopThread.Projection | event/EventLoopThread.cpp:21-37 | every run of the handshake is, for its loop, a run of the event loop machine |
| EventLoopThread.Reachable | event/EventLoopThread.cpp:12-64 | the three promises, the queued promise function and the destructor's quit stay consistent in every interleaving |
| EventLoopThread.OwnerNeverWaitsForABlockedLoop | event/EventLoopThread.cpp:39-64 | whenever the owner waits for a promise or at `join`, the loop thread is not blocked in `poll` on an empty eventfd or on a promise and has a step to take; the one exception is a thread that left its loop before the promise function ran |
| EventLoopThread.DestructorQuitIsNotLost | event/EventLoopThread.cpp:48-64 | the destructor's `quit()` follows the store of false in `loop()` and is still in force at `join` |
| EventLoopThread.PastClear | event/EventLoopThread.cpp:30-32 | when `promiseForLoop_` is set the loop has cleared `quit_` |
| EventLoopThread.RacedQuitStrandsRun | event/EventLoopThread.cpp:39-47 | the thread leaves without fulfilling `promiseForLoop_` if and only if the first test of `quit_` reads a concurrent `quit()` |
| EventLoopThread.StrandedForGood | event/EventLoopThread.cpp:39-50 | in that case `run()`, and the destructor inside it, never returns |
| EventLoopThread.StrandedDestructor | event/EventLoopThread.cpp:48-50 | a concrete run that gets there |
| TimerQueue.ArmingDelay | time/TimerQueue.cpp:32-45 | the relative time is well formed, at least 100 microseconds, never the disarming zero, and overshoots neither the due time nor the minimum |
| TimerQueue.StepInv | time/TimerQueue.cpp:108-223 | every step, callbacks included, keeps all parts of the scheduler invariant |
| TimerQueue.NeverStranded | time/TimerQueue.cpp:127-145 | outside `handleRead` a non-empty heap has its timerfd armed, to expire by the earliest due time or the last arming plus 100 microseconds, plus the time between the two clock readings of that arming, and less than a microsecond before that; an expiry that `handleRead` has seen is cleared |
| TimerQueue.RunsAreDueAndSpaced | time/Timer.cpp:54-62 | no timer runs early; successive runs of a timer are at least an interval apart; a one-shot runs at most once |
| TimerQueue.LiveTimersAreQueued | time/TimerQueue.cpp:147-157 | outside `handleRead` every live timer is in the heap under its current due time, and none was ever pushed while already there |
| TimerQueue.ExpiredExactly | time/TimerQueue.cpp:171-181 | `getExpired(now)` returns exactly the timers due at `now`, without repetition, in nondecreasing order |
| TimerQueue.RanExactly | time/TimerQueue.cpp:135-141 | in every run the callbacks of a batch are a part of it in order, each once, and every member still live when its turn has come has run |
| TimerQueue.HandleReadConserves | time/TimerQueue.cpp:127-145 | across `handleRead` the heap is the old one minus expired plus callback additions plus live repeats at their new due times |
| TimerQueue.CancelledNeverRuns | time/TimerQueue.cpp:120-141 | once an added timer is invalidated it never runs again in any continuation, not even later in the same batch |
| TimerQueue.OnlyLiveTimersRun | time/TimerQueue.cpp:135-141 | any part of a run only runs timers live at its start or added since |
| TimerPromises.AddedTimersKeepTheirTimes | time/Timer.cpp:18-62 | in every run a timer keeps the interval it was added with, its first run is due at the time it was added for, and each later one an interval after the run before |
| TimerPromises.LiveExactly | time/TimerQueue.cpp:108-125 | in every run an added timer is live if and only if it was not invalidated since and is not a one-shot that has run |
| TimerPromises.CancelIsFinal | time/TimerQueue.cpp:120-141 | in every run a timer invalidated after it was added never runs after that |
| TimerQueue.CancelBeforeAddIsForgotten | time/TimerQueue.cpp:120-125 | an invalidation executed before the timer is added has no effect |
| TimerScheduler.Scheduler.ResetTimerfd | time/TimerQueue.cpp:47-60 | arms the timerfd for a due time between two clock readings |
| TimerScheduler.Scheduler.Insert | time/TimerQueue.cpp:147-157 | pushes the timer under its due time and tells whether it is the new earliest |
| TimerScheduler.Scheduler.AddTimerInLoop | time/TimerQueue.cpp:108-118 | is exactly the add step, whatever the clock reads: the timer is live and queued with the due time and the interval given |
| TimerScheduler.Scheduler.InvalidateTimer | time/TimerQueue.cpp:120-125 | is exactly the cancel step: the timer and no other is no longer live |
| TimerScheduler.Scheduler.GetExpired | time/TimerQueue.cpp:171-181 | returns exactly the timers due, without repetition, in nondecreasing order of due time |
| TimerScheduler.Scheduler.CallTimer | time/TimerQueue.cpp:135-141 | runs a live timer's callback, which may add and invalidate timers, and skips a dead one |
| TimerScheduler.Scheduler.Restart | time/TimerQueue.cpp:203-218 | restarts and pushes a live repeating timer, drops a live one-shot, ignores a dead one |
| TimerScheduler.Scheduler.ResetExpired | time/TimerQueue.cpp:200-223 | deals with the whole batch, conserves the heap and arms the timerfd |
| TimerScheduler.Scheduler.HandleRead | time/TimerQueue.cpp:127-145 | for all callbacks and clock readings: the batch is exactly the timers due in order; those run are a part of it in that order, with every one still live when the callbacks are over; the batch's time lies between the clocks before and after; conservation, armed timerfd, live timers queued, nothing run that was cancelled before |
| TimerScheduler.Scheduler.Recreate | time/TimerQueue.cpp:183-198 | the new timerfd is armed by the deadline of every timer, or disarmed when there is none |
| EpollPoller.RegisterAgrees | poll/EpollPoller.cpp:105-143 | a registration is accepted, and leaves every flag in agreement with the kernel, if and only if the descriptor is not one the kernel has while this dispatcher is unregistered |
| EpollPoller.RegisterEffect | poll/EpollPoller.cpp:120-143 | an accepted registration touches no other descriptor, and leaves this one out of the kernel exactly when a registered dispatcher gave up all interest |
| EpollPoller.UnregisterAgrees | poll/EpollPoller.cpp:145-156 | a removal is never refused, takes out exactly the descriptor of a registered dispatcher, resets the dispatcher and keeps the agreement |
| EpollPoller.TakenMeaning | poll/EpollPoller.cpp:120-129 | a descriptor is taken exactly when another existing dispatcher has registered it |
| EpollPoller.StepAgreement | poll/EpollPoller.cpp:120-156 | every step keeps flags and kernel in agreement and is accepted by the kernel if and only if it does not register a taken descriptor |
| EpollPoller.StepOwners | event/EventDispatcher.cpp:25-28 | every step leaves no dangling pointer in the kernel except exactly a destruction of a registered dispatcher |
| EpollPoller.KernelAgreement | poll/EpollPoller.cpp:120-156 | for every run, descriptors reused and dispatchers destroyed at will: no `epoll_ctl` call is refused if and only if no step registers a descriptor the kernel has, and then kAdded means exactly that the kernel has the descriptor with mask `events_` |
| EpollPoller.KernelPointers | poll/EpollPoller.cpp:105-118 | for every run without a refusal: all pointers in the kernel are those of existing dispatchers if and only if no registered dispatcher was destroyed |
| EpollPoller.DistinctNeverClash | poll/EpollPoller.cpp:120-156 | dispatchers whose descriptors differ while they exist, destroyed only when unregistered, are never refused |
| EpollPoller.ReusedDescriptor | time/TimerQueue.cpp:183-198 | a new dispatcher can register a descriptor number exactly when no registered dispatcher has it |
| EpollPoller.DisableAllToggles | event/EventDispatcher.cpp:13-17 | `disableAll` leaves the descriptor in the kernel exactly when it was not there before |
| EpollPoller.DisableThenRemove | event/EventDispatcher.cpp:171-176 | `disableAll` then `remove` always takes the descriptor out and resets the dispatcher, and passes `remove`'s asserts |
| EpollDispatch.CallbacksDue | event/EventDispatcher.cpp:131-169 | which callbacks run for which bits, exactly: the catch-all one alone; else close on a hangup without input; else error; else read and write, in this order |
| EpollDispatch.ActiveList | poll/EpollPoller.cpp:92-103 | the active list is the owners of the reported descriptors in the order of the report |
| EpollDispatch.SeenIsReported | poll/EpollPoller.cpp:92-103 | in every run `realEvents_` of a dispatcher still in the active list is the last event the last poll reported on it |
| EpollDispatch.CatchAllAsCreated | event/EventDispatcher.cpp:131-137 | in every run a dispatcher has a catch-all callback exactly if it was created with one |
| EpollDispatch.HandledAsReported | event/EventDispatcher.cpp:111-169 | in every run a `handleEvent` of an interested dispatcher has run, when it is over, exactly the callbacks due for the bits the last poll reported on it, as long as nothing since has used a destroyed dispatcher |
| EpollPoller.ReportedIsRegistered | poll/EpollPoller.cpp:92-103 | what `epoll_wait` reports is a registered dispatcher with that descriptor and mask |
| EpollPoller.CallsAreJustified | event/EventDispatcher.cpp:111-169 | in every run without a refusal a callback runs only while its dispatcher is registered and interested, but for a write callback right behind the read callback of the same `handleEvent` |
| EpollPoller.RemovedYetWriting | event/EventDispatcher.cpp:155-168 | that exception happens: a read callback removes its dispatcher and the write callback still runs |
| EpollPoller.UseAfterDestroy | event/EventLoop.cpp:214-220 | in every run without a refusal and without destruction of a registered dispatcher: a pointer in the rest of the active list, or of the current `handleEvent`, is good if and only if its dispatcher was not destroyed since the poll, and no step uses a destroyed dispatcher if and only if none dispatches or continues such a one |
| EpollPoller.SafeDestruction | event/EventLoop.cpp:214-220 | in the same runs, once a batch is drained: no destroyed dispatcher was used if and only if none was destroyed while it was still in the active list, or the current one with a callback to come |
| EpollPoller.DestroyedYetDispatched | event/EventLoop.cpp:214-220 | a callback that properly removes and destroys another dispatcher of the batch makes the loop follow a dangling pointer |
| EpollPoller.DestroyedYetContinued | event/EventDispatcher.cpp:155-168 | a read callback that properly removes and destroys its own dispatcher leaves `handleEvent` inside a destroyed object |
| EpollPoller.ReadyIsHandled | event/EventDispatcher.cpp:131-169 | whatever is reported to a dispatcher asking to read or write leads to a callback, and to the read or write callback only when asked for |
| EventDispatcher.Poller.RegisterEventDispatcher | poll/EpollPoller.cpp:120-143 | registering a dispatcher's new mask restores the agreement of all dispatchers with the kernel if and only if no other has the descriptor; then the kernel has the mask, or nothing if a registered dispatcher gave up, and other descriptors are untouched |
| EventDispatcher.Poller.RemoveEventDispatcher | poll/EpollPoller.cpp:145-156 | keeps the agreement of all dispatchers and takes exactly this descriptor out |
| EventDispatcher.Poller.FillActiveDispatchers | poll/EpollPoller.cpp:92-103 | the active list is the reported dispatchers in order, each with the last event reported for it |
| EventDispatcher.Dispatcher.constructor | event/EventDispatcher.cpp:19-24 | a new dispatcher keeps the agreement, even on a reused descriptor |
| EventDispatcher.Dispatcher.Destroy | event/EventDispatcher.cpp:25-28 | destruction keeps the agreement if and only if the dispatcher is not registered |
| EventDispatcher.Dispatcher.EnableReading | event/EventDispatcher.cpp:189-193 | adds read interest, keeps write interest, and keeps the agreement if and only if nobody else has the descriptor |
| EventDispatcher.Dispatcher.EnableWriting | event/EventDispatcher.cpp:194-198 | the same for write interest |
| EventDispatcher.Dispatcher.DisableReading | event/EventDispatcher.cpp:200-204 | removes read interest only, with the same promise |
| EventDispatcher.Dispatcher.DisableWriting | event/EventDispatcher.cpp:205-209 | removes write interest only, with the same promise |
| EventDispatcher.Dispatcher.DisableAll | event/EventDispatcher.cpp:13-17 | clears the mask, with the same promise; the descriptor is in the kernel afterwards exactly when the dispatcher was not registered |
| EventDispatcher.Dispatcher.UpdateEvents | event/EventDispatcher.cpp:235-239 | any mask: the agreement holds afterwards if and only if nobody else has the descriptor, other descriptors are untouched, and this one is in the kernel unless a registered dispatcher gave up all interest |
| EventDispatcher.Dispatcher.Remove | event/EventDispatcher.cpp:171-176 | keeps the agreement and takes out exactly a registered dispatcher's descriptor |
| EventDispatcher.Dispatcher.HandleEvent | event/EventDispatcher.cpp:111-129 | the catch-all callback runs whenever there is one; whatever the callbacks do, creating, changing, removing and destroying dispatchers, they are those `realEvents_` on entry calls for, or the catch-all one, and none without interest or when the tied object is gone; the agreement is kept as long as no callback registers a descriptor another dispatcher has registered or destroys a registered dispatcher |
| CommandTrace.EndsExactlyOnce | MySQLImpl/MySQLConnector.cpp:670-706 | a trace that follows the protocol has as many endings as accepted commands, but for the one in progress; whether that one can still end is the subject of module MySQLProgress |
| CommandTrace.NothingAfterCompletion | MySQLImpl/MySQLConnector.cpp:670-706 | after a command has ended nothing is reported before the next is accepted |
| CommandTrace.FailureThenIdle | MySQLImpl/MySQLConnector.cpp:590-603 | an exception on a living connection is followed by idle at once |
| CommandTrace.LossThenClose | MySQLImpl/MySQLConnector.cpp:599-607 | the exception of a lost connection is followed by close at once, or close came before |
| CommandTrace.IdleIsEarned | MySQLImpl/MySQLConnector.cpp:682-689 | idle comes only behind a result or an exception |
| CommandTrace.LifeCycle | MySQLImpl/MySQLConnector.cpp:230-241 | opened at most once, closed at most once and never opened again, commands only after the opening; after the close they are still accepted |
| CommandTrace.CompleteWhenIdle | MySQLImpl/MySQLConnector.cpp:678-704 | in an orderly trace a command that goes idle without an exception has received every result set announced |
| CommandTrace.DeliveredInOrder | MySQLImpl/MySQLConnector.cpp:670-706 | an orderly trace delivers to each command its result sets 0, 1, 2, ... without gap |
| MySQLProtocol.StepInv | MySQLImpl/MySQLConnector.cpp:304-482 | every step keeps fields, trace, event interest and library position consistent, for every reply of the library |
| MySQLProtocol.CommandProtocol | MySQLImpl/MySQLConnector.cpp:582-706 | every run, with commands started on an open or a closed connection, follows the command protocol; `isWorking_` is set exactly while a command is in progress; endings match acceptances |
| MySQLProtocol.ResultsInOrder | MySQLImpl/MySQLConnector.cpp:610-706 | unless an event closed the connection over a queued continuation or a command was accepted while one was still queued, every command gets its own result sets in order and is not cut off by a close |
| MySQLProtocol.ResultsComplete | MySQLImpl/MySQLConnector.cpp:678-704 | under the same condition, a command that goes idle without an exception has received all the result sets its query announced |
| MySQLProtocol.OvertakingEvent | MySQLImpl/MySQLConnector.cpp:365-371 | an event handled before the continuation of a running command closes the connection under the command if and only if `execStatus_` is None, and then the trace is not orderly; otherwise, unless the next command is accepted, the trace stays orderly and the condition above still holds |
| MySQLProtocol.NotOvertakenNotCrossed | MySQLImpl/MySQLConnector.cpp:377-428 | without an event that overtakes a continuation that condition holds in every run |
| MySQLProtocol.ReportHitsWhoeverWorks | MySQLImpl/MySQLConnector.cpp:623-630 | a queued error report fails the command in progress when it runs, whatever that command's own query has come to |
| MySQLProtocol.ConnectionLifecycle | MySQLImpl/MySQLConnector.cpp:94-153 | the status moves only None, Connecting, [SettingCharacterSet,] Ok or to Bad, Bad is absorbing, and the two connection callbacks match it |
| MySQLProtocol.InterestFollowsWait | MySQLImpl/MySQLConnector.cpp:200-228 | after any connect, event or command step and up to the next continuation: write interest exactly when waiting to write, read interest when waiting to read or for an exception |
| MySQLProtocol.HandleEventFresh | MySQLImpl/MySQLConnector.cpp:377-428 | the same for one `handleEvent` from any invariant state, multi-result steps included |
| MySQLProtocol.ContinuationInterest | MySQLImpl/MySQLConnector.cpp:643-662 | after a queued continuation of either kind the interest is right if and only if the command has ended, the connection is closed or the old interest suits the new wait mask |
| MySQLProtocol.ContinuationInRuns | MySQLImpl/MySQLConnector.cpp:643-662 | so it is for whatever is queued in any run, unless an event overtook a continuation |
| MySQLProtocol.ErrorReportInterest | MySQLImpl/MySQLConnector.cpp:623-630 | a queued error report leaves the interest right, in any state, if and only if it closes the connection, a further command is accepted or nothing is awaited |
| MySQLProtocol.InitMakesProgress | MySQLImpl/MySQLConnector.cpp:121-152 | after a successful `init` something can happen if and only if the connect did not complete at once |
| MySQLProtocol.StuckInConnecting | MySQLImpl/MySQLConnector.cpp:121-152 | a run that starts with a connect that completes at once has no second step |
| LibraryDialogue.EachStepIsEarned | MySQLImpl/MySQLConnector.cpp:304-706 | in a dialogue with the library that follows the protocol every call and every callback is earned by what comes directly before it: a continuation by a call of its kind that waited, an opening by the completion of the last connection call, a result by its store, an exception by a failed call, lost exactly for the error numbers 2006 and 2013 |
| LibraryDialogue.EachAnswerCounts | MySQLImpl/MySQLConnector.cpp:304-706 | and every answer to a call that is due has its consequence at once: a failure is the exception of the command or the close of a connection that never came up, a completed store is delivered, a call that waits is only continued |
| MySQLDialogue.KeepsTheDialogue | MySQLImpl/MySQLConnector.cpp:304-706 | every run without an overtaking event follows that protocol, and between its steps the fields say where the dialogue stands |
| MySQLGrowth.TraceIsRecorded | MySQLImpl/MySQLConnector.cpp:582-706 | in every run the callbacks are the user's part of the dialogue |
| MySQLOutcomes.StepSpeaks | MySQLImpl/MySQLConnector.cpp:377-428 | every step makes the library call or the callback it is for |
| MySQLOutcomes.ConnectOutcome | MySQLImpl/MySQLConnector.cpp:263-298 | an event or timeout while connecting gives the connection up, with a close, if and only if a library call of the step fails; opens it if and only if all complete; and otherwise tells the user nothing |
| MySQLOutcomes.InitOutcome | MySQLImpl/MySQLConnector.cpp:121-152 | `init` closes the connection exactly on a start that fails at once or a missing socket, and otherwise creates the dispatcher |
| MySQLOutcomes.OpenedBySuccess | MySQLImpl/MySQLConnector.cpp:403-411 | in every run the connection is opened by a step whose connection calls all completed without failure |
| MySQLOutcomes.StartOutcome | MySQLImpl/MySQLConnector.cpp:610-668 | what `execSqlInLoop` leaves behind, from the replies to the query and the first store: a wait, or an error report or the first result set queued |
| MySQLOutcomes.QueryOutcome | MySQLImpl/MySQLConnector.cpp:308-326 | a query continued behind an event fails the command exactly on an error, with lost by its error number, waits on or fetches the first result set |
| MySQLOutcomes.StoreOutcome | MySQLImpl/MySQLConnector.cpp:327-346 | a store continued behind an event fails the command exactly on a null result with an error number, waits on or delivers |
| MySQLOutcomes.NextOutcome | MySQLImpl/MySQLConnector.cpp:347-364 | the same for the call that moves on to the next result set |
| MySQLOutcomes.FetchOutcome | MySQLImpl/MySQLConnector.cpp:635-668 | the same for a store started behind an event |
| MySQLOutcomes.DeliveryOutcome | MySQLImpl/MySQLConnector.cpp:670-706 | a delivery is followed by idle behind the last result set and by the call that moves on otherwise |
| MySQLOutcomes.ClosedIsSilent | MySQLImpl/MySQLConnector.cpp:230-241 | in every run without an overtaking event the step that closes the connection leaves it without interest, unless a command is started in it |
| MySQLOutcomes.IdleEvent | MySQLImpl/MySQLConnector.cpp:327-371 | in every run without an overtaking event, an event on an idle connection closes it if and only if the last store did not have to wait, or that store, continued once more, fails with error number 2006 or 2013 |
| MySQLProgress.StuckForever | MySQLImpl/MySQLConnector.cpp:377-428 | a command without a queued continuation, on a connection that is closed or has no event interest, stays in progress in every continuation of the run; only pending timeouts go off |
| MySQLProgress.StuckExactly | MySQLImpl/MySQLConnector.cpp:304-428 | on a closed connection, and in any state no event overtook a continuation before, those are exactly the commands for which no answer of the library lets the next step end them |
| MySQLProgress.EndsUnlessWaiting | MySQLImpl/MySQLConnector.cpp:304-375 | every other command has its continuation or its event enabled, and that step ends it if and only if the library lets none of the calls made in it wait |
| MySQLProgress.SettledProgress | MySQLImpl/MySQLConnector.cpp:200-228 | in every run without an overtaking event, after any connect, event or command step: a command on an Ok connection has its continuation queued, or the library waits and an event is enabled whenever it waits to read, to write or for an exception; it is stuck if and only if it waits for a timeout alone with no read interest left over |
| MySQLProgress.ContinuationProgress | MySQLImpl/MySQLConnector.cpp:643-662 | after a continuation in such a run a command still in progress is stuck if and only if there was no interest before, and one newly accepted in it if and only if it waits for a timeout alone with no read interest |
| MySQLProgress.TimeoutAloneIsStuck | MySQLImpl/MySQLConnector.cpp:221-227 | a query that waits for a timeout alone, with no read interest left over, is stuck although its timer is set |
| MySQLProgress.CommandOnBad | MySQLImpl/MySQLConnector.cpp:484-580 | a command accepted on a closed connection has ended if and only if its continuation has run and no library call made for it had to wait; once one has to wait it is stuck for ever |
| MySQLCounterexamples.CommandAfterClose | MySQLImpl/MySQLConnector.cpp:171-190 | a run in which a queued command is accepted after the close and never ends |
| MySQLCounterexamples.DeadlockAfterContinuation | MySQLImpl/MySQLConnector.cpp:582-584 | a run without an overtaking event that ends on an Ok connection with a command waiting to read and no step enabled |
| MySQLCounterexamples.TimeoutAloneNeverEnds | MySQLImpl/MySQLConnector.cpp:299-301 | a run in which a query waits for a timeout alone, its timer is set, and the command never ends |
| MySQLCounterexamples.IdleCloseMissed | MySQLImpl/MySQLConnector.cpp:327-346 | a run after which an event on the idle connection continues the finished store instead of closing |
| MySQLCounterexamples.ResultAfterClose | MySQLImpl/MySQLConnector.cpp:365-371 | a run in which close comes before the result and the idle of the command |
| MySQLCounterexamples.ResultOfAnotherCommand | MySQLImpl/MySQLConnector.cpp:623-632 | a run in which a stale error report fails the next command and a result set goes to a command that did not ask for it |
| MySQLCounterexamples.StaleInterest | MySQLImpl/MySQLConnector.cpp:657-662 | a run that waits to write with write interest off and no timeout |
| MySQLConnector.Connector.Init | MySQLImpl/MySQLConnector.cpp:94-153 | takes the connect step: closes exactly on a failing start or a missing socket, else has a dispatcher; interest right, trace and dialogue within their protocols |
| MySQLConnector.Connector.SetEventDispatcher | MySQLImpl/MySQLConnector.cpp:200-228 | sets interest and timeout from the wait mask |
| MySQLConnector.Connector.HandleClosed | MySQLImpl/MySQLConnector.cpp:230-241 | moves to Bad and reports close, once; the close callback may start a command |
| MySQLConnector.Connector.HandleTimeout | MySQLImpl/MySQLConnector.cpp:258-302 | continues connect or charset, closing exactly on a failed call and opening exactly on success, does nothing when Ok, and keeps a right interest right |
| MySQLConnector.Connector.HandleCmd | MySQLImpl/MySQLConnector.cpp:304-375 | the four cases of the command state |
| MySQLConnector.Connector.HandleEvent | MySQLImpl/MySQLConnector.cpp:377-428 | dispatches on the status, closing a connection that is coming up exactly on a failed call and opening it exactly on success; afterwards the interest is right and trace and dialogue are within their protocols |
| MySQLConnector.Connector.ContinueSetCharacterSet | MySQLImpl/MySQLConnector.cpp:430-452 | finishes or continues the charset step |
| MySQLConnector.Connector.StartSetCharacterSet | MySQLImpl/MySQLConnector.cpp:454-482 | starts the charset step, which may complete at once |
| MySQLConnector.Connector.ExecSqlInLoop | MySQLImpl/MySQLConnector.cpp:484-580 | accepts a command on an open or a closed connection, prepares its text and starts the query, interest right afterwards; aborts exactly on a used parameter of unrecognized format |
| MySQLConnector.Connector.OutputError | MySQLImpl/MySQLConnector.cpp:582-608 | exception, then idle or close by the error number |
| MySQLConnector.Connector.StartQuery | MySQLImpl/MySQLConnector.cpp:610-633 | starts the query, which may complete or fail at once |
| MySQLConnector.Connector.StartStoreResult | MySQLImpl/MySQLConnector.cpp:635-668 | starts fetching a result set, delivered now or from the loop |
| MySQLConnector.Connector.GetResult | MySQLImpl/MySQLConnector.cpp:670-706 | delivers a result and goes idle or on to the next set; the recursion ends with the sets remaining |
| MySQLConnector.Connector.RunContinuation | MySQLImpl/MySQLConnector.cpp:657-662 | runs a function the connector had queued; the trace stays within the protocol, and the interest is right exactly when the command has ended or the old one suits |
| Placeholders.CutMeaning | MySQLImpl/MySQLConnector.cpp:514-525 | the template is cut at its first min(n, number of question marks) marks and nowhere else |
| Placeholders.RenderMeaning | MySQLImpl/MySQLConnector.cpp:524-564 | what is put in for a parameter: a numeral with its value, NULL, default, or the escaped text between quotes, and its kind can be told from it |
| Placeholders.SubstituteMeaning | MySQLImpl/MySQLConnector.cpp:514-575 | the prepared text is those pieces with the rendered values in between, values never rescanned; it aborts exactly when a used parameter has an unrecognized format |
| Placeholders.SubstituteLength | MySQLImpl/MySQLConnector.cpp:514-575 | the exact length of the prepared text |
| Placeholders.PrepareSql | MySQLImpl/MySQLConnector.cpp:504-576 | the loop computes that text |
| ArrayText.Lockstep | db/ArrayParser.cpp:22-130 | where a quoted scan ends the decoder's asserts hold, its cursor lands on the closing quote and its output fits |
| ArrayText.UnquotedBounds | db/ArrayParser.cpp:135-144 | an unquoted scan stops at the first terminator, and runs past the end exactly when there is none |
| ArrayText.GetNextProgress | db/ArrayParser.cpp:161-222 | `getNext` moves forward unless done, and reads past the end exactly when an unquoted item has no terminator |
| ArrayText.BraceTerminated | db/ArrayParser.cpp:161-222 | text that is empty or ends in a closing brace parses to tokens with one final done, or throws |
| ArrayText.RoundTrip | db/ArrayParser.cpp:161-222 | the printed form of any nested array of quoted and unquoted strings and NULLs, with either separator, is read back as its brackets and leaves in order, then done |
| ArrayText.BracketTokens | db/ArrayParser.cpp:161-222 | a bracket is a token of its own and takes one separator behind it with it |
| ArrayText.BackslashRoundTrip | db/ArrayParser.cpp:56-130 | a backslash-escaped string survives if and only if it does not contain the quote, in both styles |
| ArrayText.EscapedQuoteBecomesBackslash | db/ArrayParser.cpp:120-127 | an escaped double quote is read as a backslash |
| ArrayText.ArrayLeaves | db/Field.h:107-131 | the leaves read from a printed array are its leaves in order, NULLs included |
| ArrayText.PrintNulFree | db/ArrayParser.cpp:26-51 | the printed form is a C string exactly when its leaves are |
| ArrayParser.ScanSingleQuoted | db/ArrayParser.cpp:22-51 | the scanner loop |
| ArrayParser.ScanDoubleQuoted | db/ArrayParser.cpp:83-103 | the scanner loop |
| ArrayParser.ParseQuoted | db/ArrayParser.cpp:56-130 | the decoder loops, cursor on the closing quote at the end |
| ArrayParser.ScanPlain | db/ArrayParser.cpp:135-144 | the scanner loop, overrun included |
| ArrayParser.Parser.GetNextToken | db/ArrayParser.cpp:161-222 | returns the next token and moves `pos_` behind it and one separator; a failing scan leaves it |
| ArrayParser.PrintedArrayIsRead | db/Field.h:107-131 | for a printed array the result is its leaves in order, each converted, NULL as null pointer |
| ArrayParser.AsArray | db/Field.h:107-131 | ends on every input and returns the converted leaves in order, NULL as null pointer, unless a scan fails |
| SplitString.FindMeaning | utils/utils.cpp:118-118 | the search finds the first occurrence from a position on |
| SplitString.JoinPieces | utils/utils.cpp:111-127 | joining the keep-empties split restores the text |
| SplitString.PiecesAreFree | utils/utils.cpp:111-127 | no piece contains the delimiter |
| SplitString.PiecesOfJoin | utils/utils.cpp:111-127 | splitting the join of delimiter-free pieces gives the pieces back |
| SplitString.NonEmptyConcat | utils/utils.cpp:111-127 | the default mode drops empty pieces piece by piece, wherever they are |
| SplitString.SplitText | utils/utils.cpp:111-127 | the loop returns the pieces, in default mode without the empty ones, and nothing for an empty delimiter |
| DateText.PrintedSplits | time/DateTime.cpp:225-278 | the printed text splits at blanks into date and time, or into the date alone at midnight |
| DateText.PrintedColumns | time/DateTime.cpp:225-278 | the columns of the printed text for years of up to four digits: date, blank, time, and the microseconds behind a point exactly when there are any |
| DateText.RoundTrip | time/DateTime.cpp:225-321 | the text is read back as the printed fields if and only if they are not exactly midnight, where all-zero fields are read |
| DateText.FractionIsRead | time/DateTime.cpp:303-316 | digits behind the seconds' point are read as a decimal fraction in microseconds, cut off behind the sixth (with DateText.SixDigitsMeaning) |
| DateText.SixDigitsMeaning | time/DateTime.cpp:305-315 | fewer than six digits are filled up behind, more are cut off |
| DateText.WithoutSeconds | time/DateTime.cpp:298-300 | a time of day without seconds is not read at all |
| DateText.OtherShapes | time/DateTime.cpp:289-293 | a text that is not two words, or whose first word is not three parts, is read as no date |
| DateText.OutOfBoundsExactly | time/DateTime.cpp:303-304 | the read of `seconds[0]` is out of range exactly when a text with a date, an hour and a minute has points only for its seconds |
| DateText.PointForSeconds | time/DateTime.cpp:303-304 | any date, hour and minute with a point for the seconds is such a text |
| DateText.FromDbStringLocal | time/DateTime.cpp:284-321 | the reader computes the specified fields, exception or out-of-range read for every text |

## Left out

- MpscQueue.Queue.Enqueue: memory orderings weaker than sequential consistency and failing allocations are not modelled.
- EventLoop.Fifo: functions that throw and empty functions (skipped by the source) are not modelled; functions registered with `runOnQuit` have a queue of their own, whose drain is MpscQueue.Queue.Drain.
- EventLoop.StepInv: `loop()`, `queueInLoop`, `quit` and the methods of EventLoopThread run interleaved with other threads, so they are sequences of atomic steps with a program counter per thread and not methods of a class.
- EventLoop.NoLostWakeup: an eventfd read that fails is not modelled; a write at the counter's maximum is.
- EventLoopThread.OwnerNeverWaitsForABlockedLoop: `wait()` and a second concurrent `run()` behind `std::call_once` are not modelled.
- TimerQueue.NeverStranded: the heap of `std::priority_queue` is abstract (any timer of least due time is its top), and wrap-around of timer ids and of the clock is not modelled.
- TimerScheduler.Scheduler.AddTimerInLoop: the constructors of Timer give every timer a new id; here the id is any that was not added before.
- TimerScheduler.Scheduler.Recreate: the dispatcher of the new timerfd is not modelled; the expiry moves to a fresh, disarmed timerfd.
- EpollPoller.KernelAgreement: `epoll_ctl` fails only for the two reasons modelled, and closing a descriptor that is still registered, which the kernel would notice, is not modelled; neither is the growth of the event list in `poll`.
- EpollPoller.UseAfterDestroy: the step machine has no tied objects; a tie is a field of EventDispatcher.Dispatcher.
- EventDispatcher.Dispatcher.HandleEvent: the four specific callbacks are taken to be set, and a callback here does not destroy the dispatcher it belongs to; that is the subject of EpollPoller.UseAfterDestroy and EpollPoller.DestroyedYetContinued.
- CommandTrace.EndsExactlyOnce: safety only, a command in progress need not end; which ones can is MySQLProgress.StuckExactly and MySQLProgress.EndsUnlessWaiting.
- MySQLProgress.CommandOnBad: a command accepted while a continuation that an event has overtaken is still queued is not covered; MySQLProgress.StuckExactly covers every state it goes through.
- MySQLProgress.SettledProgress: once an event has overtaken a continuation nothing is said of progress on an Ok connection.
- MySQLDialogue.KeepsTheDialogue: once an event has overtaken a continuation the order of calls and callbacks is not stated; the command protocol of MySQLProtocol.CommandProtocol still holds.
- MySQLProtocol.OvertakingEvent: runs of the event loop and of the connector are separate machines; that an event can come before a queued function follows from EventLoop.EmptyMeaning in prose only.
- MySQLProtocol.CommandProtocol: `disconnect()`, which resets the library handle under any queued continuation, is not modelled; user callbacks do not call it.
- MySQLProtocol.InterestFollowsWait: interest is two booleans here; registering it with the kernel is the subject of module EpollPoller.
- MySQLConnector.Connector.ExecSqlInLoop: the text of exceptions and the contents of result sets are not modelled; a command that aborts the process is one of the user's own calls, not one started inside a callback.
- Placeholders.PrepareSql: `mysql_real_escape_string` is abstract: a text parameter carries its escaped form.
- ArrayParser.AsArray: the conversion of a leaf through `std::stringstream` is an arbitrary function.
- DateText.RoundTrip: `localtime_r`, `mktime`, time zones and the construction of the DateTime from the fields are not modelled.
- The connection pool the repository's documentation describes: there is no code for it.
- Result, Row and Field accessors, iterators, exception classes, `EventLoopThreadPool`, hex conversion and logging: straightforward members.
- `parseConnString`: its matching depends on the `std::regex` engine.
- The unreachable code behind the return in `doRunInLoopFuncs` and the overload of `getExpired` without an argument, which nothing calls.
