# Verification of awak

A Dafny model of awak, a small asynchronous runtime, and proofs about its concurrent
protocols and its sequential state machines.

The concurrent parts (the work-stealing ring, sleeping tickers, the parker, `block_on`, the
poller, timers and sources in the reactor) are labelled transition systems: one program
counter per thread, at most one shared access per step, any number of threads. `Runs.dfy`
defines a run and the induction principle; every theorem about a protocol is stated over
every run. `BlockOn` is built from the `Parker` and `Poller` systems, `ReactorTimers` from
`Poller`. State that only records history (what was pushed, how often a permit was granted)
is said to be history where it is declared; no step's behaviour depends on it, with the one
exception listed under assumptions. The sequential parts (queue, ring, ticker, list of
sleepers, timers, byte copying, idle timeout) are classes with loops, proved against functions on
values, and the theorems are about those functions or are the classes' own invariants.

| file | what it models |
|---|---|
| Runs.dfy, Options.dfy | runs and induction over them; the option type |
| Parker.dfy, Poller.dfy, BlockOn.dfy | src/parking.rs, src/io/poller/mod.rs, src/blocking.rs |
| Words.dfy, Ring.dfy, LocalQueue.dfy | wrapping counters and masks; `Local<T>` under interleaving, and in place |
| Sleepers.dfy, TickerSleep.dfy | the list of sleeping tickers in place, and `sleep`, `wake` and `notify` under interleaving |
| Executor.dfy, Fairness.dfy | scheduling, searching and stealing over many threads; `tick` and its fairness on one |
| Queue.dfy | src/queue.rs |
| TimerOps.dfy, ReactorTimers.dfy, TimerHandle.dfy | timer operations, the reactor's timers under interleaving, the `Timer` handle |
| Sources.dfy | `poll_ready` and event delivery |
| Copy.dfy, Idle.dfy | src/util |

## Assumptions

- Memory is sequentially consistent; a mutex, a condition variable (with spurious wakeups) and
  a level-triggered, re-armed one-shot eventfd behave as documented.
- One thread parks on each parker; each ring is pushed to by the one thread that owns it.
- A popper does not stall across exactly a positive multiple of 2^64 claims. This is the only
  place a step is enabled by history (`Ring.WrappedAround`); `Ring.ClaimIsCurrentIff` shows it is
  exactly what a successful compare-and-swap needs.
- A thread that reads the length of another's ring is answered at least the length that ring has
  when its tail is loaded, since the head was loaded before, and at most the capacity; of its own
  ring it reads the exact length (`Ring.LenIsExact`).
- The clock never runs backwards, poller calls succeed (EINTR apart), ids and the reactor's
  ticker do not overflow, readers and writers return counts no larger than the slice they are
  given.
- In `TimerHandle` the reactor's operations act at once on the map of all timers, as
  `ReactorTimers.RefinesImmediateMap` proves they do; firing may pick any of the entries due.
- Wakers do not themselves enter `react` or `block_on` when called from inside `react`.

## Results worth reading first

- `BlockOn.NoLostWakeup`, `BlockOn.NeverStuck`, `BlockOn.WakeupDeliverable` and
  `BlockOn.SignalDeliverable`: the three-layer wakeup protocol loses nothing, whichever of its three shortcuts is taken.
- `Ring.RefinesFifo` with `Ring.FullIsExact` and `Ring.EmptyIsExact`: the ring is a FIFO queue.
- `ReactorTimers.NeverOversleeps`, `ReactorTimers.RefinesImmediateMap`, `TimerHandle.PendingIsRegistered`.
- Four properties one might expect do not hold. Each has a run that breaks it and the exact condition.
  - `tick` does not search again after `sleep` (src/executor.rs:259-264), so all tickers can sleep on a
    non-empty queue (`TickerSleep.TaskSleptThrough`): if and only if some ticker published the flag after a push
    later than every empty search (`TickerSleep.QueuedWhileAsleepIff`).
  - The timeout is computed from one reading of the clock and the kernel timer set later, so a wait can outlast
    the timer it waits for (`ReactorTimers.WaitOutlastsTimer`): if and only if the clock advanced in between
    (`ReactorTimers.EndsInTimeIff`).
  - A poll that returns Pending may have no entry in the timer map (`TimerHandle.FiredBeforePending`): if and only
    if the entry has already fired, with the polling task's waker (`TimerHandle.PendingIsRegistered`).
  - A search can come back empty-handed although a ring it looked at was never empty (`Executor.SearchRobbed`): only
    if it took a task from there and other threads took it from its own ring before it could pop it
    (`Executor.SearchLooksEverywhere`).
- `Sources.EventsReachWaiters`, `TickerSleep.TakenWakerIsCalled` and `ReactorTimers.FiredIsCalled`: who is owed a call is called.
- `Fairness.StarvationIsBounded`: 64(p + 1) + 512 ticks.

Where the code and its comments differ the model follows the code: the field comment on `notified`
(src/executor.rs:86) says the flag is set when no tickers sleep, but it is initially clear
(src/executor.rs:34), so `SuppressionJustified` is stated in one direction; `Ticker::tick`'s
comment (src/executor.rs:257) speaks of returning `None`, which it never does.

## Model

| member | source | states |
|---|---|---|
| Parker.SignalNeverLost | src/parking.rs:83-104 | a thread waiting on the condition variable with a permit pending has been signalled, or an unparker is between its swap and `notify_one`, for any number of unparkers and spurious wakeups |
| Parker.PermitsConserved | src/parking.rs:70-142 | `unpark` calls that returned true, and those that will once they have signalled, equal `park` calls that returned true plus the permit in the cell (or carried out by a returning park); no panic or assertion branch is reachable |
| Parker.ForeverReturnsTrue | src/parking.rs:94-104 | `park` without a timeout returns only true, however often it wakes spuriously |
| Parker.SignalDeliverable | src/parking.rs:119-142 | the owed signal can always be delivered by steps of unparkers alone |
| Poller.CoalescingLosesNothing | src/io/poller/mod.rs:63-82 | a set flag means the eventfd is readable and armed, or a notifier is between compare-and-swap and write, or the waiter is between kernel return and clearing the flag |
| Poller.WritesOnlyIfClear | src/io/poller/mod.rs:73-82 | a notification writes to the eventfd only if it found the flag clear and set it itself |
| Poller.ReadableIsUnread | src/io/poller/mod.rs:63-82 | whenever the eventfd is readable, a notifier wrote to it and the waiter has not read it since |
| Poller.StepKeepsInv | src/io/poller/epoll.rs:113-138 | only the waiter's own drain takes a pending notification away, and every notification attempt leaves one pending unless the waiter is already leaving |
| BlockOn.TryParkIsPark | src/parking.rs:70-82 | the one-step `park_timeout(0)` used by `block_on` is the parker's |
| BlockOn.NoLostWakeup | src/blocking.rs:39-116 | a thread whose waker was called since its last poll never sleeps, in the condition variable or in the poller, without its permit and without a signal or notification pending or on its way |
| BlockOn.NeverStuck | src/blocking.rs:39-116 | no reachable state has a thread asleep with a permit, no waker call in flight and no poller notification pending |
| BlockOn.WakeupDeliverable | src/blocking.rs:39-46 | from any such sleep in the poller, waker calls and notifiers already under way, nothing new beginning, can make the armed eventfd readable, so that the wait can return to a thread that finds its permit |
| BlockOn.SignalDeliverable | src/blocking.rs:39-46 | from any such sleep in the condition variable, waker calls already under way can go on to signal it |
| BlockOn.CommittedCallsComeFromElsewhere | src/blocking.rs:42 | at every moment of every run, a waker skipped because IO_POLLING is set never belongs to a thread that is about to block in the poller: the reactor lock keeps them apart |
| BlockOn.PolledOncePerPermit | src/blocking.rs:50-117 | every poll of the future but the first follows exactly one permit taken since the poll before it; a thread that then got the reactor lock has been through a wait of the poller first |
| BlockOn.HogsOnlyWithoutPermit | src/blocking.rs:92-113 | a thread goes on handling events for others, or gives the reactor up, only if it finds no permit after its wait |
| BlockOn.NotifiesOnlyIfBlocked | src/blocking.rs:39-46 | a waker turns to the poller only if its own `unpark` returned true, IO_POLLING is not set where it runs and `io_blocked` is set when it looks |
| Words.SlotOfWrapped | src/executor.rs:416 | a wrapped counter masked by capacity - 1 indexes as the unbounded counter modulo the capacity |
| Words.SubOfWrapped | src/executor.rs:441 | `wrapping_sub` of wrapped counters is their true distance |
| Words.NextPowerOfTwo | src/executor.rs:389 | the least power of two not below the argument |
| Ring.RefinesFifo | src/executor.rs:406-457 | under any interleaving of one owner and any number of poppers, claims in order are a prefix of pushes in order, occupancy never exceeds the capacity, and each step is a step of a FIFO queue: a push keeps its value until it is at the back or given back, and a pop comes to hold a value only by taking the front |
| Ring.FullIsExact | src/executor.rs:436-457 | `push` returns its value only if the ring was full when it loaded `head`, and never to `steal`, whose one call of `len` bounds its pushes |
| Ring.EmptyIsExact | src/executor.rs:408-413 | a pop comes to report empty, however it gets there, only at a moment when the queue is empty, unless it stalled across 2^64 - capacity claims |
| Ring.LenIsExact | src/executor.rs:459-469 | `len`, called by the owner, answers the number of values there were when it loaded `head` |
| Ring.ClaimIsCurrentIff | src/executor.rs:420-432 | a successful compare-and-swap claims the popper's own position if and only if it is not a positive multiple of 2^64 claims behind |
| LocalQueue.Local.constructor | src/executor.rs:388-404 | an empty ring whose capacity is the request rounded up to a power of two |
| LocalQueue.Local.Push | src/executor.rs:436-457 | appends exactly when the ring is not full, and otherwise changes nothing |
| LocalQueue.Local.Pop | src/executor.rs:406-434 | returns and removes the front exactly when there is one |
| LocalQueue.Local.Steal | src/executor.rs:367-381 | moves half the source's length rounded up, limited by the free slots and by what is there, in order |
| LocalQueue.StealConserves | src/executor.rs:366-381 | a steal keeps every task and their order, never overfills the ring, moves at most half the length rounded up, and moves fewer only if it then finds the ring full or the source empty |
| LocalQueue.ViewPush | src/executor.rs:441-453 | writing the slot at `tail` and advancing it appends to the ring's contents across wrap-around |
| LocalQueue.ViewPop | src/executor.rs:416-427 | advancing `head` drops the front of the contents across wrap-around |
| Sleepers.SleeperList.UpdateEntry | src/executor.rs:126-138 | the forward loop replaces the waker of an entry that is there, or appends the entry and reports it |
| Sleepers.SleeperList.RemoveEntry | src/executor.rs:146-154 | the backward loop removes the entry if it is there; the count drops either way |
| Sleepers.NotifyIds | src/executor.rs:115-121 | on a list without repeated ids, `notify` removes one id, and only when none was missing; the entry it hands out is one of the list |
| Sleepers.NotifyEntries | src/executor.rs:115-121 | and it is the entry that leaves: all other pairs of id and waker stay as they were |
| Sleepers.UpdateIds | src/executor.rs:126-138 | afterwards the id is listed once with this waker; true exactly if it was missing |
| Sleepers.UpdateEntries | src/executor.rs:126-138 | `update` changes the waker of this id alone, or adds it |
| Sleepers.InsertIds | src/executor.rs:157-163 | the new entry has an id no other has and is listed with this waker; the number of sleepers missing from the list stays as it was |
| Sleepers.InsertEntries | src/executor.rs:157-163 | every other pair of id and waker stays |
| Sleepers.RemoveIds | src/executor.rs:146-154 | removes exactly this id, keeping ids distinct |
| Sleepers.RemoveEntries | src/executor.rs:146-154 | and leaves every other pair of id and waker as it was |
| TickerSleep.SleepersBookkeeping | src/executor.rs:96-164 | `count` is the number of tickers asleep or part-way through `wake`, listed ids are distinct and theirs, `count - wakers.len()` of them, at most one, are notified, and the decrement never underflows |
| TickerSleep.SuppressionJustified | src/executor.rs:166-237 | while the flag is set no ticker sleeps, or a sleeper's waker is taken, or a notifier is between its compare-and-swap and the list, or the mutex holder has yet to republish the flag |
| TickerSleep.ListedWakersAreCurrent | src/executor.rs:207-225 | over every run, each entry on the list carries the waker its sleeper last registered |
| TickerSleep.TakenWakerIsCalled | src/executor.rs:173-176 | for every sleeper missing from the list, the very waker it last registered has been called since its entry was taken, or is in the hand of a notifier about to call it |
| TickerSleep.FlagIsPublished | src/executor.rs:221-236 | a ticker that goes to sleep or wakes publishes exactly whether none sleeps or one has been notified |
| TickerSleep.SleepsOnlyIfTooLate | src/executor.rs:258-283 | as a ticker that finds a task notifies the next, a task is left queued while one sleeps on the list and nobody is on the way only if some ticker published the flag after a push later than its search |
| TickerSleep.QueuedWhileAsleepIff | src/executor.rs:258-283 | any number of tickers, all asleep, none with its waker called or about to be, every notification settled: the tasks left queued are exactly those pushed between the last empty search of any and the last publishing of the flag by any, so one is left if and only if some ticker published the flag after a push later than every empty search |
| TickerSleep.TaskSleptThrough | src/executor.rs:259-264 | a run that ends so, on a non-empty queue, with no waker ever called and no notifier left |
| Executor.TasksConserved | src/executor.rs:51-66 | for every task, times scheduled equals occurrences in the global queue, in all rings, in threads' hands and returned; none is dropped |
| Executor.SearchLooksEverywhere | src/executor.rs:286-322 | over every run, a search comes back empty-handed only after its own ring, the global queue and every other ring was empty at a moment when it looked there, except a ring it took a task from and lost it to other threads |
| Executor.SearchRobbed | src/executor.rs:314-320 | a run in which the exception occurs: the ring looked at is never empty, yet the search finds nothing |
| Executor.GlobalNotForgotten | src/executor.rs:269-278 | over every run, a thread returns at most 64 tasks between two readings of the length of the global queue, whatever its ring holds |
| Executor.GlobalPopSteals | src/executor.rs:291-297 | a search that pops a task from the global queue goes on to steal from it before it returns the task |
| Executor.StealMovesHalf | src/executor.rs:367-381 | a steal ends when it has moved half the length it read, rounded up and limited by the free slots, or has found its source empty |
| Executor.StolenTaskFits | src/executor.rs:366-381 | the push whose result `steal` discards always has room, with room for all the pushes to come |
| Fairness.Ticker.FindTask | src/executor.rs:286-322 | with no other shard, search pops the ring, else the global queue and then steals half of it |
| Fairness.Ticker.PollTick | src/executor.rs:258-283 | one poll: search, bump the wrapping tick counter, steal from the global queue on every 64th tick |
| Fairness.SearchTakesOne | src/executor.rs:286-322 | search finds a task exactly if there is one, and takes just that task out: all others stay |
| Fairness.TickTakesOne | src/executor.rs:258-283 | so does a tick, which counts itself exactly if it returns a task |
| Fairness.TickAdvances | src/executor.rs:269-278 | every tick returns the waiting task or strictly lowers the bound on the ticks it still has to wait |
| Fairness.StarvationIsBounded | src/executor.rs:258-297 | with one executor thread, the task at position p of the global queue is returned within 64(p + 1) + 512 ticks whatever arrives meanwhile |
| Queues.Queue.Push | src/queue.rs:70-78 | appends exactly when below capacity |
| Queues.Queue.Pop | src/queue.rs:61-68 | returns and removes the front exactly when there is one |
| TimerOps.RemovalCommutes | src/io/reactor.rs:254-289 | removing entries commutes with pending operations that insert none of them |
| ReactorTimers.NeverOversleeps | src/io/reactor.rs:141-156 | while the reactor is blocked, every timer not yet fired is due no earlier than the clock reading plus the timeout, and the kernel timer was set no earlier than that reading and no later than now; or its inserter is between push and notify, or a notification is pending |
| ReactorTimers.TimeoutIsExact | src/io/reactor.rs:254-275 | a wait with no limit of its own and a positive timeout is computed to end exactly at the earliest deadline left in the map, and has no timeout only if there is none |
| ReactorTimers.EndsInTimeIff | src/io/reactor.rs:141-156 | with nothing on its way to wake the reactor and the earliest timer still there, a wait with no limit of its own ends by the time that timer is due if and only if the clock did not advance between reading it and setting the kernel timer |
| ReactorTimers.WaitOutlastsTimer | src/io/reactor.rs:141-156 | a run in which it did advance: the reactor stays blocked past a deadline with nothing on its way to wake it |
| ReactorTimers.RefinesImmediateMap | src/io/reactor.rs:231-289 | every push acts at once on the map of all timers, draining leaves that map as it is, firing removes from it exactly the drained keys with `when` below the clock reading; a timer that fires is in the map or has a removal queued |
| ReactorTimers.SplitIsExact | src/io/reactor.rs:259-274 | leaving the split, exactly the timers with `when` below the clock reading have gone from the map to those due to be called, with their wakers |
| ReactorTimers.FiredIsCalled | src/io/reactor.rs:156-204 | whenever `react` is at rest every timer it ever fired has had its waker called; it never blocks with one to call, and a wait that timed out is followed by another split |
| ReactorTimers.DrainLeavesOnlyNew | src/io/reactor.rs:277-289 | over every run, concurrent pushers and drainers keep the queue bounded and leave in it, whenever the reactor is not draining, only operations pushed since its latest drain began, in order |
| TimerHandle.Reactor.ProcessTimerOps | src/io/reactor.rs:277-289 | the bounded loop empties the queue and preserves the map with all operations applied |
| TimerHandle.Reactor.PushOp | src/io/reactor.rs:235-252 | pushing, draining as often as the queue is full, applies exactly this operation to that map |
| TimerHandle.Reactor.Insert | src/io/reactor.rs:231-245 | one new entry under the next id |
| TimerHandle.Reactor.ProcessTimers | src/io/reactor.rs:254-275 | for the map m with all operations applied, returns exactly the keys of m with `when` below now, with their wakers, and keeps the rest; the duration is zero if any fired, and otherwise leads exactly to the earliest one left |
| TimerHandle.Timer.ResetTo | src/io/mod.rs:297-303 | moves the entry of a timer that has been polled; otherwise changes the deadline alone |
| TimerHandle.Timer.PollTimeout | src/io/mod.rs:305-327 | ready removes the entry; pending registers it, under a new key if the task changed |
| TimerHandle.Timer.Discard | src/io/mod.rs:330-335 | removes the entry of a timer that has been polled |
| TimerHandle.PollAlone | src/io/mod.rs:305-327 | the steps of a poll (read the clock, remove, draw an id, push, return), run without interruption, are the poll in place |
| TimerHandle.ResetAlone | src/io/mod.rs:297-303 | so are those of a reset |
| TimerHandle.DropAlone | src/io/mod.rs:330-335 | and of a drop |
| TimerHandle.PendingIsRegistered | src/io/mod.rs:305-327 | with calls and firing interleaved step by step, a poll about to return Pending has exactly one entry in the map, at its current deadline and key, waking the task that polled, unless that entry has fired, its deadline past, with that task's waker; it is missing if and only if it has fired |
| TimerHandle.ReadyLeavesNothing | src/io/mod.rs:305-317 | whenever a poll is about to return Ready the deadline has passed and the map holds no entry of that timer |
| TimerHandle.FiredBeforePending | src/io/mod.rs:305-327 | a run in which it has |
| TimerHandle.AtMostOneEntry | src/io/mod.rs:297-327 | at every moment a live timer has at most that entry, and between calls has it while its deadline lies ahead |
| TimerHandle.DroppedStaysSilent | src/io/mod.rs:330-335 | after drop the map never holds any key ever issued to the timer |
| TimerHandle.OthersUntouched | src/io/mod.rs:297-335 | a step of a call on one timer leaves the entries of all others as they were |
| Sources.InterestStaysArmed | src/io/reactor.rs:164-191 | a direction with waiting tasks has its one-shot interest armed, or a reported event is still to be handled by the current `react`, or the holder of the states lock is about to arm it |
| Sources.NoWakerDropped | src/io/reactor.rs:164-202 | a task told to wait and neither called nor told ready since is on its direction's list or among the wakers the current `react` has still to call; between calls of `react` its interest is armed |
| Sources.EventsReachWaiters | src/io/reactor.rs:164-203 | whenever `react` is at rest, each task that was waiting for an operation when an event for that operation was reported has been called since, or told ready |
| Sources.DeliveriesAreReported | src/io/reactor.rs:171-181 | every delivery a direction remembers is from a call of `react` to which an event for that direction was reported |
| Sources.CollectsOnlyReported | src/io/reactor.rs:171-181 | a task leaves a direction's list only into the collected wakers and only for an event reported for that direction, which empties the list |
| Sources.PollAnswersExactly | src/io/reactor.rs:346-374 | a poll answers ready if and only if it is registered and an event for its direction has been delivered by a call other than the last to deliver before that; otherwise its task is owed an event |
| Sources.ListedOnce | src/io/reactor.rs:354-357 | a direction lists no task twice |
| Sources.TickTestIsExact | src/io/reactor.rs:346-363 | the poll after a registration passes the tick test if and only if a `react` call other than the last to deliver before it has since delivered an event; the comparison with the remembered ticker never decides |
| Sources.LaterCallsAreNew | src/io/reactor.rs:154-181 | deliveries since a registration come from `react` calls no older than the last to deliver before it |
| Copy.CopyBuffer.PollCopy | src/util/copy_buffer.rs:34-92 | for every sequence of answers: the buffer holds exactly the bytes read and not yet written; completion means all bytes to end of file are written and flushed, with their exact count; waiting for the reader leaves nothing unwritten or unflushed; a flush is asked for only with something unflushed or at end of file, and nothing is read past that; every error and every wait is the answer a stream has just given |
| Copy.TransferOneDirection | src/util/copy_bidirectional.rs:23-46 | the writer is closed once, and only after everything was written and flushed; errors and waits keep the direction's invariant |
| Copy.CopyBidirectional.PollBoth | src/util/copy_bidirectional.rs:55-73 | between polls each writer has accepted a prefix of what the other side delivered; the returned pair is the exact byte counts, with both sides equal and closed; every poll drives both directions unless the first fails, so a pending poll has every unfinished direction waiting for a stream, and errors are passed on |
| Idle.IdleTimeout.PollIdle | src/util/idle_timeout.rs:41-58 | one poll of the wrapper, the timer pushed back only when a check interval has passed |
| Idle.TimesOutOnlyWhenIdle | src/util/idle_timeout.rs:25-58 | over every sequence of polls TimedOut means a gap of more than the idle timeout less a positive check interval, and a gap of the idle timeout forces it |
| Idle.GapCanBeShort | src/util/idle_timeout.rs:48-53 | the bound is sharp: for any positive check interval not above the idle timeout, a gap one longer than their difference can time out |

## Left out

- src/net, the `AsyncRead` and `AsyncWrite` implementations and src/time: wrappers and thin layers that would add only easy members.
- `Async::into_inner`: it removes the source and its `Drop` then removes the same key again (src/io/mod.rs:45-49, 170-174), so nothing is claimed about the slab across it; sources here stay registered.
- src/waker_fn.rs, `MaybeUninit` and the memory layout of slots: values and waker identities only.
- Acquire, Release and Relaxed orderings: every access is sequentially consistent.
- The reactor's background thread beyond taking the lock, waiting and releasing it: its back-off is timing. The 500 microsecond test in `block_on` is an arbitrary answer.
- Several `block_on` calls nested on one thread share IO_POLLING; each modelled thread runs one.
- Poller errors other than EINTR, which leave the reactor before the collected wakers run (src/io/reactor.rs:183-188).
- Executor.StolenTaskFits: ring operations are single steps in this module, as `Ring.RefinesFifo` allows, with an owner's `len` one step that answers the length there is; the same fact at the granularity of loads and stores is `Ring.FullIsExact`. Panics in tasks and a global queue of 2^64 - 1 tasks are not modelled.
- `schedule` also wakes the thread whose ring it has pushed to, which is the thread it runs on (src/executor.rs:58); TickerSleep has the wakers of the sleepers' list alone.
- TickerSleep.QueuedWhileAsleepIff: is about the global queue; searching and stealing from local rings is in Executor and Fairness.
- Fairness.StarvationIsBounded: is about one executor thread; with several, tasks move between rings and the bound does not apply.
- LocalQueue.Local.Pop: the retry after a failed compare-and-swap needs a second thread and is in `Ring`; in place, one call at a time, the first attempt succeeds.
- Sources: one source among others; other descriptors are arbitrary events that may carry its key.
- Copy.CopyBuffer.PollCopy: the 64-bit byte count is unbounded. What a Pending poll waits for is part of the model's answer, not of the code's.
- Idle.TimesOutOnlyWhenIdle: construction is one instant, although the code reads the clock twice.
- Nothing here was executed; the original program is not run.
