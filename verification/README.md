# A verified model of `unsend`

`unsend` is an async runtime for thread-unsafe use: an `Event` that futures sleep on, and on top of it
a mutex, a semaphore, a barrier, a once-cell, a channel and an executor. This project models these
and proves what they promise, for every order of calls, polls, cancellations and drops.

Check the whole project with `dafny verify dfyconfig.toml`.

## How the model is built

**The event, twice.** `EventList` is the linked list of `src/event.rs` as the source has it: entries with
`next` and `prev`, the pointers `head`, `tail` and `first`, the counters `len` and `notified`, changed in place.
`EventModel` is the same event as a plain value: the notified listeners and, behind them, the waiting ones.
Every method of the class states its new abstract value as the operation of `EventModel` on the old one,
so what is proved about the value holds of the pointers.

**Runs of an event.** `EventRuns` numbers insertions by tickets and logs notifications, wakes and tags over
whole runs of one event.

**The components.** Each of mutex, semaphore, barrier, once-cell, channel and executor has two modules.
The model (`MutexModel`, say) has a `Core` with the cells and the events of the source, step functions for
each operation, and a machine over them: `Run` takes any sequence of actions by any number of calls in
flight. A poll is atomic up to its next `.await`; cancelling a call drops its listener. An action that is
not possible in a state changes nothing, so the theorems range over all action sequences. The object
(`MutexObject`, say) has the cells as fields and the methods of the source over the linked list, each
proved to do to the `Core` what the step function says.

**Wakers.** `EventWakes` says whose wakers an event holds and calls. Each component carries this over to its
runs (`MutexModel.WakesExactly` and so on): a waiting call holds a waker like that of its latest poll, and an
action wakes the calls it newly notifies, in order, each by its own waker, and nobody else.

**Items in tags.** The channel and the executor hand items to a listener in its tag; `HeldItems` says what
an event holds and what is lost when a listener is dropped.

**The executor and other threads.** `schedule` on another thread is two steps, a push and a wake, with
anything in between. The mainstream ticker's look at the shared queue is three: pop, register the waker,
pop again. Tickers and pushers interleave between these steps.

## What does not hold

Some properties one would expect are not true of the code. For each the model gives a run that
breaks it and the exact condition under which it holds.

- A waiter of a semaphore can sleep beside a free permit when two guards are dropped in a row: `notify(1)`
  does nothing when one listener is notified already. `SemaphoreModel.PromptExactly`: it never happens if
  and only if the semaphore was made with at most one permit.
- A receiver can sleep beside a queued item. `ChannelModel.NeverStallsExactly`: it never happens if and only if
  at most one receive is in flight at a time.
- A ticker can sleep beside a queued runnable (if and only if more than one ticker can be alive), and all tickers
  can sleep with nobody looking at the mainstream queue (if and only if more than two can):
  `ExecutorModel.TickersExactly`. Both states are reached with every ticker parked and nothing under way, and
  polling the tickers does not help: `ExecutorModel.PollsDoNotHelp`.
- A notified listener that is dropped passes its tag on only if that notifies someone. Otherwise the
  tag, and the item or runnable in it, is gone. `EventRuns.DiscardsExactly`, `ChannelModel.LossesExactly` and
  `ExecutorModel.LossesExactly` say exactly when, and `DiscardingRun` and the two `LosingRun`s show that it happens.
- The waiters of a mutex neither keep their order nor have a bound on their wait once someone barges.
  `MutexModel.FairExactly`: either promise holds if and only if nobody does, and one barging call breaks it.
  `MutexModel.BargingStarves`: with more of them a waiter starves.

## Model

| member | source | states |
|---|---|---|
| EventList.Event.Insert | src/event.rs:188-218 | the pointer list with the entry linked in at the tail is the old list with one un-notified entry appended; `first` points to it exactly when nothing else was un-notified |
| EventList.Event.NotifyEntry | src/event.rs:474-493 | one round of the loop notifies exactly the first un-notified entry, gives it the tag and calls its waker if it has one |
| EventList.Event.NotifyUpTo | src/event.rs:469-496 | the loop notifies the first min(count, waiting) un-notified entries in list order, one tag drawn for each, and reports their number |
| EventList.Event.NotifyInner | src/event.rs:457-497 | over the pointers, the notified prefix grows as the value model says, and the answer is exactly its growth |
| EventList.Event.Notify | src/event.rs:60-79 | the same contract with the two early returns in place: they never change the outcome |
| EventList.Event.Detach | src/event.rs:231-267 | which pointers the surgery changes, and to what; every other entry is untouched |
| EventList.Event.Unlink | src/event.rs:221-276 | after the surgery the pointers trace the list without the entry, and `first` and `notified` again agree with a scan |
| EventList.Event.Remove | src/event.rs:221-288 | with propagation, the outcome of the unlinking and of the nested `notify` together is the drop of the value model, which `DropPassesOn` says in full; without it the tag of the entry is handed back |
| EventList.Event.Register | src/event.rs:296-331 | ready with its tag exactly when notified; otherwise the entry keeps a waker of the polling task |
| EventList.Event.Poll | src/event.rs:333-343 | over the pointers, a poll is ready exactly when the listener is notified and then unlinks it; otherwise it stands in the list, at the end if it is new, with a waker of the polling task |
| EventList.Event.Listen | src/event.rs:101-106 | inserts a listener that is not in the list, and leaves one that is alone |
| EventList.Event.Drop | src/event.rs:346-353 | over the pointers, a dropped listener is unlinked and its unconsumed notification goes on as `DropPassesOn` says, tag and kind unchanged |
| EventList.Event.PointersTraceTheList | src/event.rs:188-288 | in every valid state `next` from `head` and `prev` from `tail` trace the same duplicate-free sequence, `len` long; notified is exactly the index prefix below `notified`; `first` is the entry after it; `in_list` is membership |
| EventList.Event.OrderIsNodes | src/event.rs:188-288 | the value model's order is the traced list, without duplicates |
| Notifications.IntoNotification | src/event.rs:406-427 | a number panics exactly when negative, and asks for itself when it fits a `usize` |
| Notifications.IntoNotificationCuts | src/event.rs:413-419 | a wider number asks for its low 64 bits: adding any multiple of 2^64 changes nothing |
| Notifications.SingleNotify | src/event.rs:363-377 | one notification of the given kind, whose only tag is the given one: there at the first call of `next_tag`, gone at the second |
| EventModel.NotifyFacts | src/event.rs:457-497 | plain `notify(n)` brings k notified of len to max(k, min(n, len)), additional to min(k + n, len); order and earlier notifications stay |
| EventModel.AdvanceAt | src/event.rs:469-496 | the i-th newly notified listener is the i-th waiting one and gets the i-th answer of `next_tag` |
| EventModel.RemoveOrder | src/event.rs:221-288 | removing takes out one listener, leaves the others in order, and touches one side of the prefix only |
| EventModel.PollReady | src/event.rs:296-343 | a poll of a notified listener returns its tag and takes it, and only it, out of the list |
| EventModel.PollPending | src/event.rs:296-343 | a poll of any other listener leaves it in the list, at the end if it was not in it |
| EventModel.DropFacts | src/event.rs:346-353 | a dropped listener is out of the list and the others keep their order |
| EventModel.DropCount | src/event.rs:221-288 | dropping one of k notified of len leaves max(k - 1, min(1, len - 1)), or min(k, len - 1) if it was additional; a positive count never falls to zero while listeners remain |
| EventModel.DropPassesOn | src/event.rs:269-284 | the notification of a dropped listener goes to the first waiting one exactly as it was received, tag and kind, and wakes it, if it is additional or nobody else is notified; otherwise nothing else changes |
| EventModel.NotifyEveryone | src/event.rs:457-497 | `usize::MAX` leaves nobody un-notified |
| EventModel.AdditionalAdds | src/event.rs:386-388 | `n.additional()` notifies n more listeners whoever is notified already, and marks each of them additional |
| EventRuns.LogsFollowTheEvent | src/event.rs:60-353 | the logged steps move the event exactly as notify, poll and drop do |
| EventRuns.NotifiedInTicketOrder | src/event.rs:202-210 | in every run tickets are notified in strictly increasing order, propagated notifications included, and whoever waits has a later ticket than anyone notified so far |
| EventRuns.OneWakePerNotification | src/event.rs:303-330 | in every run the wakers called are, one by one and in order of notification, such that they `will_wake` like the wakers of the latest pending polls of the notified listeners: one for each polled one and no other |
| EventRuns.TagsOfSeveral | src/event.rs:469-496 | `next_tag` is called as many times as listeners are notified, and each gets its own answer |
| EventRuns.DrawsOfClosure | src/event.rs:606-610 | the answers of a `tag_with` closure are its successive ones, a new one for each listener |
| EventRuns.TagsAreLinear | src/event.rs:252-331 | in every run each tag drawn, with the kind of its notification, is returned by one poll, held by one notified entry, or discarded; none twice, and none changes its kind however often it is passed on |
| EventRuns.DiscardsExactly | src/event.rs:269-284 | in every run a tag is discarded exactly when its notified listener is dropped and nobody waits or, for a plain one, another listener is notified already, and then that tag only |
| EventRuns.DiscardingRun | src/event.rs:269-284 | a run in which a tag is discarded although another listener waits |
| HeldItems.HandingNotifies | src/event.rs:457-467 | an offered item is taken exactly when a listener waits and none is notified |
| HeldItems.DropHolds | src/event.rs:269-284 | dropping a listener keeps every held item but the one it may lose |
| MutexModel.MutexSafe | src/lock/mutex.rs:73-119 | in every run at most one guard is live, and a free lock with a non-empty list has its first waiter notified, whose next poll gets the lock |
| MutexModel.PollsExactly | src/lock/mutex.rs:81-98 | in every run a poll gets the lock exactly when it is free and the call is new or notified; otherwise the call keeps its place if it is not notified, and is at the end of the list if it is notified in vain or new |
| MutexModel.UnlocksExactly | src/lock/mutex.rs:115-119 | in every run the drop of the guard frees the lock and leaves the list as it was, with one waiter notified if there is any, and no more than were notified already |
| MutexModel.WakesExactly | src/lock/mutex.rs:81-119 | in every run a waiting call holds a waker like that of its latest poll, and what an action wakes are exactly the calls it newly notifies, the first of the waiting ones, in order and each by such a waker |
| MutexModel.WaitIsBounded | src/lock/mutex.rs:81-98 | if nobody barges, a waiter at position p of a locked mutex still waits through at most p + 1 unlocks |
| MutexModel.NoOvertaking | src/lock/mutex.rs:81-98 | if nobody barges, waiters get the lock in list order |
| MutexModel.StaleWaiterGoesBack | src/lock/mutex.rs:81-98 | in every run a waiter notified for a lock that a barging call took goes to the end of the list at its next poll |
| MutexModel.BargingStarves | src/lock/mutex.rs:73-98 | for every k a run in which the first waiter in the list waits on through k unlocks, the lock being taken by `try_lock` each time |
| MutexModel.FairExactly | src/lock/mutex.rs:73-98 | with at most b barging actions allowed, the bound on the wait holds in all runs if and only if b is 0, and so does the list order |
| MutexObject.Mutex.TryLock | src/lock/mutex.rs:73-78 | takes the lock exactly when it is free, and leaves the list alone: the `try_lock` of the proved machine |
| MutexObject.Mutex.PollLock | src/lock/mutex.rs:81-98 | one poll of `lock`, over the pointer list, with the waker of this poll and no other: a call that was notified in vain waits again at the end, one that was not notified keeps its place and does not try the lock; exactly the poll of `PollsExactly` and `WakesExactly` |
| MutexObject.Mutex.DropGuard | src/lock/mutex.rs:115-119 | frees the lock and leaves at least one waiter notified if there is one, by the `notify(1)` of the pointer list |
| MutexObject.Mutex.CancelLock | src/lock/mutex.rs:81-98 | a dropped `lock` future leaves the list and passes its notification on |
| SemaphoreModel.SemaphoreSafe | src/lock/semaphore.rs:62-135 | in every run permits and live guards of both kinds add up to N; if someone waits, some listener is notified, or a guard is live, or N = 0 |
| SemaphoreModel.PollsExactly | src/lock/semaphore.rs:86-119 | in every run a poll gets a guard of its kind exactly when there is a permit and the call is new or notified; otherwise the call keeps its place if it is not notified, and is at the end of the list if it is notified in vain or new |
| SemaphoreModel.ReleasesExactly | src/lock/semaphore.rs:122-135 | in every run the drop of a guard of either kind gives one permit back and leaves the list as it was, with one waiter notified if there is any, and no more than were notified already |
| SemaphoreModel.WakesExactly | src/lock/semaphore.rs:86-135 | in every run a waiting call holds a waker like that of its latest poll, and what an action wakes are exactly the calls it newly notifies, the first of the waiting ones, in order and each by such a waker |
| SemaphoreModel.Oversleeps | src/lock/semaphore.rs:122-127 | with two permits or more some run leaves a waiter asleep beside a free permit |
| SemaphoreModel.PromptExactly | src/lock/semaphore.rs:86-127 | a free permit always has a waiter notified if and only if N is at most 1 |
| SemaphoreObject.Semaphore.TryAcquire | src/lock/semaphore.rs:62-83 | takes a permit exactly when there is one, and leaves the list alone |
| SemaphoreObject.Semaphore.PollAcquire | src/lock/semaphore.rs:86-119 | one poll of `acquire`, over the pointer list: exactly the poll the permit and wake-up theorems are about |
| SemaphoreObject.Semaphore.DropGuard | src/lock/semaphore.rs:122-135 | gives one permit back and notifies one waiter unless one is notified already |
| SemaphoreObject.Semaphore.CancelAcquire | src/lock/semaphore.rs:86-119 | a dropped `acquire` future leaves the list and passes its notification on |
| BarrierModel.BarrierCounts | src/lock/barrier.rs:53-73 | in every run arrivals = generation * max(n, 1) + count with count below max(n, 1); each generation has one leader, its last arrival; non-leaders return only once their generation is over |
| BarrierModel.BarrierReleases | src/lock/barrier.rs:53-73 | a call of a past generation is notified and returns at its next poll; a poll of a call of the running one, spurious or not, waits on and counts nothing |
| BarrierModel.WakesExactly | src/lock/barrier.rs:53-73 | in every run a waiting call holds a waker like that of its latest poll, and what an action wakes are exactly the calls it newly notifies, the first of the waiting ones, in order and each by such a waker |
| BarrierObject.Barrier.WaitLoop | src/lock/barrier.rs:61-65 | from its test on, the loop polls the listener at most twice: it returns once the generation has moved on, and otherwise waits with its old generation |
| BarrierObject.Barrier.PollWait | src/lock/barrier.rs:53-73 | one poll of `wait`, over the pointer list: the n-th arrival resets the count, starts the next generation, wakes everyone and leads; any other waits or returns as non-leader |
| BarrierObject.Barrier.CancelWait | src/lock/barrier.rs:53-73 | a dropped `wait` future passes its notification on; its arrival still counts |
| OnceCellModel.ValueStays | src/lock/once_cell.rs:81-138 | a stored value never changes in any continuation of any run |
| OnceCellModel.NobodyIsForgotten | src/lock/once_cell.rs:81-159 | in every run `writing` is set exactly while one call owns the guard; with nothing stored and nobody writing a non-empty `active` list has a notified listener, after errors and cancellations too; once stored, every listener of both events is notified |
| OnceCellModel.StoredEndsCalls | src/lock/once_cell.rs:81-159 | once a value is stored every pending call ends at its next poll: an initialiser with that value, a `set` with `Err` of its own, a `wait` as done |
| OnceCellModel.AnswersExactly | src/lock/once_cell.rs:70-159 | in every run what each poll answers and stores: a `set` that goes on and finds nothing stored and nobody writing stores its value and answers `Ok`, one that finds a value answers `Err` and leaves the cell alone; an initialiser gets the value or the write flag; a `wait` is done when a value is there |
| OnceCellModel.SettersAnswer | src/lock/once_cell.rs:89-135 | in every run a setter that succeeds stores and returns its value; an error or a cancellation stores nothing and leaves one initialiser notified if there is any |
| OnceCellModel.SetLinearises | src/lock/once_cell.rs:70-149 | of all `set` calls at most one returns `Ok`, the cell then holds its value, and every other that returns gives its own value back; a `set` ends in no other way but by being cancelled; every initialiser that returns a value returns the stored one |
| OnceCellModel.OneSetWins | src/lock/once_cell.rs:70-149 | in every run in which no initialiser's setter succeeds, a value is stored exactly when a `set` has returned `Ok`; then just one has, and the value is its own |
| OnceCellModel.WakesExactly | src/lock/once_cell.rs:81-159 | in every run, on both events, a waiting call holds a waker like that of its latest poll, and what an action wakes are exactly the calls it newly notifies, the first of the waiting ones, in order and each by such a waker |
| OnceCellObject.OnceCell.PollInit | src/lock/once_cell.rs:102-115 | one poll of `get_or_try_init` up to its setter: it returns a stored value, owns the write flag alone, or sleeps on `active` |
| OnceCellObject.OnceCell.Unwrite | src/lock/once_cell.rs:89-94 | the drop of the write guard clears the flag and notifies one initialiser unless one is notified |
| OnceCellObject.OnceCell.Store | src/lock/once_cell.rs:117-128 | the end of a setter that succeeds: the value is stored, every listener of both events is notified, and then the guard is dropped |
| OnceCellObject.OnceCell.PollSet | src/lock/once_cell.rs:70-78 | one poll of `set`: its setter is ready at once, so owning the flag and storing are one poll |
| OnceCellObject.OnceCell.PollWait | src/lock/once_cell.rs:152-159 | one poll of `wait`: done exactly when a value is stored and the call is not asleep un-notified |
| OnceCellObject.OnceCell.CancelInit | src/lock/once_cell.rs:96-113 | a dropped initialiser that waits leaves `active` and passes its notification on |
| OnceCellObject.OnceCell.CancelWait | src/lock/once_cell.rs:152-159 | a dropped `wait` future leaves `passive` and passes its notification on |
| ChannelModel.ItemsAreConserved | src/channel.rs:79-159 | in every run the accepted items are, as a multiset, the delivered, the queued, those in tags and the lost; while open at most one listener is notified |
| ChannelModel.QueueIsFifo | src/channel.rs:79-159 | in every run, however many receives there are, the items taken from the queue by `try_recv` or `recv`, in order, followed by those in it are the items put into it |
| ChannelModel.SendsExactly | src/channel.rs:79-95 | in every run an accepted item is in the tag of the first waiting receiver if there is one and nobody is notified, and at the end of the queue otherwise |
| ChannelModel.ReceivesExactly | src/channel.rs:137-159 | in every run a new or notified `recv` returns the item in its tag, else the front of the queue, else `Closed`, else waits; any other just waits |
| ChannelModel.WakesExactly | src/channel.rs:79-185 | in every run a waiting call holds a waker like that of its latest poll, and what an action wakes are exactly the calls it newly notifies, the first of the waiting ones, in order and each by such a waker |
| ChannelModel.LossesExactly | src/channel.rs:137-159 | after any run an action loses an item exactly when it drops a `recv` that holds it and no un-notified listener is left, and then that item only |
| ChannelModel.LosingRun | src/channel.rs:79-159 | a run that loses the item it sent, with both handles alive and the channel open |
| ChannelModel.SoloReceiveIsFifo | src/channel.rs:79-159 | with one receive at a time and none dropped with an item in hand, delivered, held and queued items make up the sent sequence in order, and none is queued beside a sleeping receiver |
| ChannelModel.TwoReceivesStall | src/channel.rs:79-159 | two receives in flight are enough for one to sleep beside a queued item |
| ChannelModel.NeverStallsExactly | src/channel.rs:79-159 | no receiver sleeps beside a queued item if and only if at most one receive is in flight at a time |
| ChannelModel.ClosedChannelDrains | src/channel.rs:98-185 | however the handles were cloned and dropped, closed means no senders or no receivers; once closed every listener is notified and every poll of a `recv` returns, `Closed` only when nothing is queued or held by it |
| ChannelModel.HandlesAreCounted | src/channel.rs:98-185 | in every run the two counters are the numbers of handles that the clones and drops so far leave |
| ChannelModel.ClosedForGood | src/channel.rs:79-185 | a closed channel stays closed, accepts nothing, and nobody joins its list |
| ChannelObject.Channel.Send | src/channel.rs:79-95 | a closed channel rejects; otherwise the item is in the tag of the head receiver if that was notified by it, and at the end of the queue if not, never both |
| ChannelObject.Channel.DropSender | src/channel.rs:109-121 | the last sender closes the channel and notifies every listener, without items; any other only counts down |
| ChannelObject.Channel.DropReceiver | src/channel.rs:173-185 | the last receiver closes the channel and notifies every listener, without items; any other only counts down |
| ChannelObject.Channel.TryRecv | src/channel.rs:125-134 | takes the front of the queue, whoever waits or is notified, and tells `Closed` from `Empty` only when nothing is queued: the pop of `QueueIsFifo` |
| ChannelObject.Channel.PollRecv | src/channel.rs:137-159 | one poll of `recv`, over the pointer list: the queue before the closed test, the tag of its own listener before the queue when resumed, back to the queue after a bare notification |
| ChannelObject.Channel.CancelRecv | src/channel.rs:137-159 | a dropped `recv` future passes its notification, and the item in it, on |
| ExecutorModel.RunnablesAreConserved | src/executor.rs:231-451 | in every run the scheduled runnables are, as a multiset, those taken to run, in the local queue, in the mainstream queue, in tags, and lost; at most one ticker is notified |
| ExecutorModel.QueuesAreFifo | src/executor.rs:231-427 | in every run the runnables taken from the mainstream queue, in order, followed by those in it are those other threads pushed, and the same of the local queue and what was put into it |
| ExecutorModel.SchedulesExactly | src/executor.rs:314-331 | in every run a runnable scheduled on the thread is in the tag of the first waiting ticker if there is one and nobody is notified, and at the end of the local queue otherwise |
| ExecutorModel.TryTicksExactly | src/executor.rs:231-250 | in every run `try_tick` takes the front of the local queue, or, only if that is empty, of the mainstream queue, and then owes a wake |
| ExecutorModel.TicksExactly | src/executor.rs:377-435 | in every run a poll of a new or notified `tick` runs what its tag holds, else the front of the local queue, else takes the role if it is free and waits; any other just waits, and a mainstream ticker that waits turns to its queue |
| ExecutorModel.RunEndsExactly | src/executor.rs:438-448 | in every run, after a run within a tick, what the tag of the listener holds is run too, and the listener is out of the list |
| ExecutorModel.PopsRouse | src/executor.rs:234-236 | in every run, whoever takes a runnable from the local queue while tickers wait leaves one of them notified |
| ExecutorModel.WakesExactly | src/executor.rs:314-466 | in every run a waiting ticker holds a waker like that of its latest poll, and what an action wakes are exactly the tickers it newly notifies, the first of the waiting ones, in order and each by such a waker; what a ticker registers with the mainstream queue is the waker of its latest poll |
| ExecutorModel.LossesExactly | src/executor.rs:367-451 | after any run an action loses a runnable exactly when it drops a pending `tick` whose listener holds it and no un-notified listener is left, and then that runnable only |
| ExecutorModel.LosingRun | src/executor.rs:309-451 | a run with one ticker that loses the runnable it scheduled |
| ExecutorModel.OneMainstreamTicker | src/executor.rs:396-466 | in every run `is_mainstream_listening` is set exactly while a live ticker has the role, and never two have it |
| ExecutorModel.NoWakerLeftBehind | src/executor.rs:404-466 | in every run a waker is registered with the mainstream queue only while a live ticker has the role: a dropped one takes its waker back |
| ExecutorModel.MainstreamIsNotForgotten | src/executor.rs:333-428 | over all interleavings with pushers, while the mainstream ticker is parked and the shared queue is not empty, its waker has fired since its latest poll registered it, or some pusher is between its push and its wake |
| ExecutorModel.TwoTickersStrand | src/executor.rs:309-451 | two tickers are enough for one to stay parked beside a queued runnable, with every ticker parked and nothing under way |
| ExecutorModel.ThreeTickersDesert | src/executor.rs:396-466 | three tickers are enough for one to stay parked while nobody has the mainstream role and nothing is under way |
| ExecutorModel.TickersExactly | src/executor.rs:309-466 | a ticker never sleeps beside a queued runnable if and only if at most one ticker is alive at a time, and never sleeps while nobody has the mainstream role if and only if at most two are; the same two numbers bound the states in which every ticker is parked and nothing is under way |
| ExecutorModel.PollsDoNotHelp | src/executor.rs:377-435 | in such a state of any run (for the first kind, with the mainstream queue empty) a poll of any ticker, from its start to its end, leaves the queue as it is and every ticker parked |
| ExecutorObject.Executor.ScheduleHere | src/executor.rs:314-331 | the runnable is in the tag of the head ticker if that was notified by it, and at the end of the local queue if not, never both |
| ExecutorObject.Executor.WakeMain | src/executor.rs:339-339 | the second half: the registered waker, if any, is taken and called once |
| ExecutorObject.Executor.PopLocal | src/executor.rs:383-385 | takes the front of the local queue and notifies one other ticker, exactly when the queue is not empty |
| ExecutorObject.Executor.TryTick | src/executor.rs:231-250 | the front of the local queue, with another ticker notified, or else the front of the mainstream queue, with the mainstream waker taken and called |
| ExecutorObject.Ticker.PopOrLead | src/executor.rs:379-399 | a local runnable, or else the mainstream role if it is free |
| ExecutorObject.Ticker.PollTick | src/executor.rs:377-435 | one poll of `tick`, over the pointer list, up to a run or the mainstream queue: exactly the poll the theorems are about, with the role taken when it is free |
| ExecutorObject.Ticker.PopMain | src/executor.rs:409-426 | one pop of the mainstream queue, at the front: the pop of `QueuesAreFifo`; one that succeeds after registering takes the waker back |
| ExecutorObject.Ticker.AfterRun | src/executor.rs:442-448 | after a run the listener is polled once more: what its tag holds is run too, and if it holds nothing the listener is out of the list |
| ExecutorObject.Ticker.CancelTick | src/executor.rs:367-375 | a dropped `tick` future passes its notification, and the runnable in it, on |
| ExecutorObject.Ticker.Drop | src/executor.rs:454-466 | the mainstream ticker takes its waker back, frees the role and notifies one other ticker; any other changes nothing |

## Left out

- `src/lock/rwlock.rs`: exclusion is that of `RefCell`, and a dropped writer notifies `no_writers` while waiting
  writers sleep on `no_readers`, so the wake-up properties of the other locks do not hold of it.
- `Executor::drop` and the `active` slab: the drain loop stops when either queue is empty, and a task's
  removal guard exists only after its first poll, so neither "drains everything" nor "active means
  unfinished" is true.
- The insides of `async_task`, `ConcurrentQueue`, `AtomicWaker` and `Slab`, which are not part of this repository: a
  runnable is an opaque value, the mainstream queue an unbounded atomic FIFO that is never closed, the
  mainstream waker an atomic slot.
- Wakers that call back into the event or executor that wakes them: `wake` appends to a log.
- Thread ids, `Pin` and lifetimes, `RefCell` borrow panics, panicking setters and runnables, and the data a mutex protects
  (its borrow flag is the lock).
- `usize` and `u64` counters do not wrap around. Where `usize::MAX` stands for everyone, the runs keep fewer than
  `usize::MAX` calls in flight at a time.
- A setter or a runnable is an outside action: when it ends, with what result, and what it schedules.
- No step of the once-cell takes a setter or a value back to the loop, so that no empty option is unwrapped there
  follows from the shape of the model, as it does from that of the code.
- A `recv` in flight borrows its receiver; the model does not use this.
- The three steps of the mainstream ticker on the shared queue (src/executor.rs:404-428) are separate atomic methods in
  `ExecutorObject` instead of one loop, since other threads may act between them; `ExecutorModel.Step` runs
  them in that order.
- `EventListenerRc` and the `_rc` forms of the semaphore run the same code as the borrowed ones; guards of both kinds are
  counted apart.
- `get_mut`, `into_inner`, `take`, `Deref`, error `Display` impls, `comparisons/` and `examples/`.
