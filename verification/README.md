# A verified model of the libgo runtime and of the natsu parsers

The repository is a coroutine runtime (libgo) and a small server framework on top of it (natsu). This
project models the parts whose correctness rests on interleavings, resumption or bit layout, and proves
what those parts are for.

* **Block objects, mutexes, channels** (`BlockObject`, `Ledger`, `Channel`, `ChannelCall`,
  `ChannelLock`, `ChannelObject`, `RWMutex`, `RWMutexCall`, `RWMutexObject`, `TimedWait`): a signal
  counter with a wait queue, and what is built on it. Every section under a spin lock and every atomic
  access is one step; any number of tasks and threads interleave; the theorems are invariants of all
  runs, and say of every call what it does.
* **Timers, io waits, descriptors** (`Timer`, `IoWait`, `FdContext`): cancellable timers, the ABBA
  protocol between parking and triggering, and the registration of waiters with epoll, the kernel being
  the log of calls made to it.
* **Lists, processers, scheduler** (`TsQueue`, `SkipQueue`, `Processer`, `Scheduler`, `SchedulerRun`):
  the intrusive lists as linked nodes on the heap refined to sequences, one pass over a run list, and
  the place of every task in the whole system, from which it can always get to run.
* **Parsers** (`HttpParser`, `HttpRequest`, `JsonNumber`, `Json`, `JsonText`, `JsonParser`): the
  resumable HTTP parser and the recursive-descent JSON parser as objects, each proved against functions
  on the text, and the theorems about those functions: split independence, whole requests, exactly the
  texts of the JSON grammar with their meaning, round trips.
* **Ids** (`Snowflake`): bit-packed ids that increase, and the age test that subtracts them.

Operations that run under one lock are methods of a class with the source's fields, proved equal to a
function of the old state; protocols that span several locks are transition systems built from the same
functions. Where the code does not have a property one would expect of it, a lemma gives the failing
history and another says exactly when the property holds:

* a task whose wait ended in `AddWaitTask` keeps `state_ == sys_block`, so that its next plain yield
  waits on the old object again (libgo/processer.cpp:66-70).
  * A channel then loses a signal, stored or handed over (`Channels.LostStoredIsReachable`,
    `Channels.LostHandedIsReachable`). Signals are lost by exactly the steps that `Channels.Leaks` and
    `Channels.Drops` describe (`Channels.LossIsExact`), none of which comes before an undisciplined
    step (`Channels.DisciplinedRunLeaksNothing`).
  * A mutex can be granted to a task that never asked, or queue its own holder, and is then locked
    for good (`Ledgers.LossIsReachable`, `Ledgers.SelfParkIsReachable`, `Ledgers.LostForever`), exactly
    by such a grant or such a yield (`Ledgers.LossIsExact`). If it is the queue lock of a channel, no
    value is pushed or popped again (`LockedChannels.FrozenIsReachable`, and
    `LockedChannels.FrozenByRetryIsReachable` by the yield of a retrying `TryPop`;
    `LockedChannels.FrozenForever`).
  * The reader/writer lock dies when its mutex goes to a task outside `lock`
    (`RWMutexes.LostIsReachable`), or when its owner, spinning or inside, or a reader inside is queued
    on that mutex (`RWMutexes.StuckIsReachable`, `RWMutexes.StuckWriterIsReachable`,
    `RWMutexes.StuckReaderIsReachable`). It is dead if and only if a step with the guard of
    `RWMutexes.Kills` was taken (`RWMutexes.DeathIsExact`), and then lets nobody in any more
    (`RWMutexes.DeadForever`);
* HTTP answers do not depend on how the bytes are cut exactly when every line fits its limit or the
  whole text fails anyway (`HttpParsers.SplitIndependence`); every request line of 1024 bytes or more
  is a text for which they do (`HttpParsers.LongLineDepends`, `HttpParsers.LongGetDepends`). For the
  requests of a whole connection the condition is `HttpParsers.Steady`
  (`HttpParsers.ServiceIndependence`);
* the last chunk of a chunked body stays in the buffer, so that `parse()` fails behind every chunked
  request (`HttpParsers.NothingBehindChunks`);
* the destructor of an io sentry removes the waiter of the same task that is registered by then,
  whosever it is (`FdContexts.DestructorLosesIff`, `FdContexts.LateDestructor`);
* an insertion leaves the cached trigger time later than a deadline exactly when the new deadline is
  earlier than that time and the maps were not both empty (`Timers.CoTimerMgr.ExpireAt`,
  `Timers.NearerTimer`);
* `TSQueue::pop_front(0)` and `pop_back(0)` take one element (`Commons.Taken`), `TSSkipQueue`'s
  `pop_front(0)` takes none;
* a request whose id is drawn while the timeout scan is under way times out at once
  (`Snowflakes.ScanByAge`).

`dafny verify dfyconfig.toml` verifies the whole project.

## Model

| member | source | states |
|---|---|---|
| `Ledgers.LedgerHolds` | libgo/block_object.cpp:37-190 | in every history, a stored signal and a waiter never coexist, initial signals plus successful wake-ups equal stored signals plus grants, and the store stays within the larger of its initial value and its limit |
| `Ledgers.ApplyKeepsBalance` | libgo/block_object.cpp:86-190 | each operation keeps those laws |
| `Ledgers.FirstComeFirstServed` | libgo/block_object.cpp:97-122 | without cancelled waits, waiters are woken in exactly the order in which they queued |
| `Ledgers.NoOvertaking` | libgo/block_object.cpp:97-151 | with cancelled waits too, a waiter is woken only after all that queued before it have left |
| `Ledgers.BlockObject.constructor` | libgo/block_object.cpp:11-15 | the initial ledger |
| `Ledgers.BlockObject.TryBlockWait` | libgo/block_object.cpp:86-95 | takes one stored signal if there is one and grants it, and keeps the ledger |
| `Ledgers.BlockObject.AddWaitTask` | libgo/block_object.cpp:159-190 | consumes a stored signal or queues the task at the end, and keeps the ledger |
| `Ledgers.BlockObject.Wakeup` | libgo/block_object.cpp:97-122 | pops the first waiter, else stores a signal, else refuses, exactly when the store is full |
| `Ledgers.BlockObject.CancelWait` | libgo/block_object.cpp:123-151 | takes the task out of the queue if it is there and grants nothing |
| `Ledgers.BlockObject.IsWakeup` | libgo/block_object.cpp:153-157 | a positive answer means that nobody waits |
| `Ledgers.MutexHasOneHolder` | libgo/co_mutex.cpp:9-37 | over every run in which only holders unlock there is one token, stored or held: at most one holder, and no unlock is refused |
| `Ledgers.LossIsExact` | libgo/processer.cpp:66-70 | if tasks unlock only what they know to hold, the mutex is gone if and only if an `AddWaitTask` or an unlock granted it to a task outside `lock`, or its holder yielded on it and found no signal |
| `Ledgers.LostForever` | libgo/co_mutex.cpp:18-37 | from then on it stays locked, with the same holder, and is never unlocked |
| `Ledgers.LossIsReachable` | libgo/processer.cpp:66-70 | a run of six operations that ends so |
| `Ledgers.SelfParkIsReachable` | libgo/processer.cpp:66-70 | a run of five operations that ends with the holder queued on its own mutex |
| `Channels.StepKeepsInv` | libgo/channel.h:106-276 | every step of any reader or writer keeps placement and the credit and item laws |
| `Channels.RunKeepsInv` | libgo/channel.h:106-276 | the laws hold in every reachable state |
| `Channels.Fifo` | libgo/channel.h:121-276 | values popped are a prefix of values pushed, what is pushed is what was popped and what is queued, and a granted reader never meets an empty queue |
| `ChannelCalls.CallsAreFollowed` | libgo/channel.h:121-276 | over every run a task is at a place of the operator that it called last, and a write carries the value that it was given |
| `ChannelCalls.WrittenIsPushed` | libgo/channel.h:121-276 | over every run the values pushed are those passed to the writes, one for each push, in the order of the pushes; as many have been read as there were pops |
| `ChannelCalls.ReadsDeliver` | libgo/channel.h:136-276 | the n-th read is given the n-th value written, and nothing else changes what a task was given |
| `ChannelCalls.WriteBegins` | libgo/channel.h:121-175 | a write gets a credit if and only if one is stored; otherwise `TryPush` has changed nothing and the others are on their way to park |
| `ChannelCalls.PushAlone` | libgo/channel.h:126-133 | with a credit it appends its value and signals the first reader, or stores the signal |
| `ChannelCalls.ReadBegins` | libgo/channel.h:136-259 | a read of either kind signals the first writer, or stores the signal, and then waits, or looks, for an item |
| `ChannelCalls.ReadGoesOn` | libgo/channel.h:244-259 | it takes the first value if and only if an item signal is stored; otherwise it is on its way to park, or over with its credit back, or yields |
| `ChannelCalls.ParkAlone` | libgo/block_object.cpp:159-170 | whoever is on its way to park joins the end of the queue, or has the signal that came meanwhile |
| `ChannelCalls.ExpireAlone` | libgo/channel.h:162-199 | a timeout ends a timed write; a timed read takes its credit back and is over, or goes on as a try-read |
| `ChannelCalls.OutsideAlone` | libgo/block_object.cpp:55-64 | outside a coroutine a timed call reports a timeout whether it took a signal or not |
| `Channels.CreditConserved` | libgo/channel.h:106-199 | credit equals capacity plus reads started less reads withdrawn; the queue never exceeds the capacity by more than the readers in flight |
| `Channels.FailedPopRestoresCredit` | libgo/channel.h:178-259 | a read adds one credit when it starts and the step on which it fails takes exactly one away |
| `Channels.NoLostWakeup` | libgo/channel.h:121-146 | while a reader is parked, every queued value is owed to a writer about to signal or a reader about to pop; while a writer is parked no write signal is stored |
| `Channels.QuietBalance` | libgo/channel.h:106-276 | with nobody inside an operation, stored credit plus queue equals capacity if and only if no step of the run lost a write signal, and stored items equal the queue if and only if none lost an item signal |
| `Channels.StepTally` | libgo/block_object.cpp:55-190 | a step loses a signal of a side exactly under the guards: a timed wait outside a coroutine that takes one, `AddWaitTask` with one for a task that does not wait there, a wake-up whose first waiter does not, or a full counter |
| `Channels.LossIsExact` | libgo/channel.h:106-276 | over every run the signals lost are exactly those steps, so none is lost if and only if none of them was taken |
| `Channels.DisciplinedRunLeaksNothing` | libgo/processer.cpp:66-70 | no such step comes before a plain yield with a stale state or a signal taken outside a coroutine |
| `Channels.StaleYieldLeaks` | libgo/processer.cpp:66-70 | from any state with a stale idle task and a stored signal, its plain yield takes that signal for nothing |
| `Channels.LostStoredIsReachable` | libgo/processer.cpp:66-70 | a run from an empty channel in which a stored credit is lost so, with a reader waiting |
| `Channels.LostHandedIsReachable` | libgo/block_object.cpp:97-122 | a run in which the stale task parks and a reader hands it the credit |
| `LockedChannels.StepKeepsInv` | libgo/channel.h:126-145 | with `queue_lock_` a real mutex, every step keeps the channel's laws and the lock's |
| `LockedChannels.LockedFifo` | libgo/channel.h:121-276 | so values come out first in, first out, none lost and none doubled, a pop never meets an empty queue, and one task at most is in the section |
| `LockedChannels.LockedRunIsRun` | libgo/channel.h:126-145 | every run with the lock as a mutex is a run of the channel with sections of one step, so that all that is proved of those holds |
| `LockedChannels.LockedDelivers` | libgo/channel.h:121-276 | the values pushed are those the writers passed, and the n-th read gets the n-th of them |
| `LockedChannels.StaleIsExact` | libgo/processer.cpp:66-70 | over every run a task goes back to the queue lock if and only if `AddWaitTask` refused it there and it was not freed since |
| `LockedChannels.GoneIsExact` | libgo/channel.h:126-145 | over every run the queue lock is gone if and only if it was granted to a task that did not ask or its holder was queued on it |
| `LockedChannels.FrozenForever` | libgo/channel.h:126-145 | with the queue lock gone no value is ever pushed or popped again |
| `LockedChannels.StaleYieldParks` | libgo/processer.cpp:66-70 | a plain yield of a task whose last wait was for the queue lock goes to that lock, in user code and in the retry loops of `TryPop` and `TimedPop`, and comes back where a yield does |
| `LockedChannels.FrozenByRetryIsReachable` | libgo/channel.h:178-259 | a run that ends so by the yield of a retrying `TryPop`, with a value in the queue and two writers about to push |
| `LockedChannels.FrozenIsReachable` | libgo/processer.cpp:66-70 | a run of two writers that ends so, with two values in the queue |
| `ChannelObjects.ChannelImpl.Empty` | libgo/channel.h:110-113 | true exactly when no item signal is stored; with nobody inside an operation, exactly for an empty queue |
| `ChannelObjects.ChannelImpl.TryPush` | libgo/channel.h:227-240 | from any state, run undisturbed: fails exactly without credit, else appends and wakes the first parked reader or stores the signal; with nobody inside, fails exactly at capacity |
| `ChannelObjects.ChannelImpl.TryPop` | libgo/channel.h:243-259 | from any state, up to its first yield: takes the first value exactly if an item signal is stored, else yields exactly if its credit went to a parked writer, else fails with the credit taken back, but for one lost to a full counter |
| `RWMutexes.StepKeepsInv` | libgo/co_rwmutex.cpp:20-80 | every step of readers, writers, try-locks and hand-overs keeps ownership and the reader count |
| `RWMutexes.RunKeepsInv` | libgo/co_rwmutex.cpp:20-80 | the invariant holds in every reachable state |
| `RWMutexes.CounterIsSound` | libgo/co_rwmutex.cpp:47-52 | in every reachable state `readers_c_` is the number of readers counted, never negative, and no unlock was refused |
| `RWMutexes.Exclusion` | libgo/co_rwmutex.cpp:20-80 | a writer inside coexists with no other writer and no reader, also when holders yield |
| `RWMutexes.AtMostOneOwner` | libgo/co_mutex.cpp:18-37 | the inner mutex has one owner at most, handed straight to a waiter or not, and is then locked |
| `RWMutexes.SpinYield` | libgo/co_rwmutex.cpp:54-59 | a writer that yields while it spins parks on its own mutex exactly when its wait had ended in `AddWaitTask` |
| `RWMutexes.WriterYield` | libgo/processer.cpp:66-70 | a writer that yields inside is queued on its own mutex exactly when its wait had ended in `AddWaitTask` |
| `RWMutexes.StuckStaysStuck` | libgo/co_rwmutex.cpp:54-80 | no step by anyone releases an owner queued on its mutex or lets anyone in |
| `RWMutexes.ParkedReaderStays` | libgo/co_rwmutex.cpp:20-52 | a reader queued while inside stays so until it is given the mutex, which is then lost |
| `RWMutexes.StuckForever` | libgo/co_rwmutex.cpp:54-80 | from then on the owner stays queued and nobody gets in, neither reader nor writer |
| `RWMutexes.StuckIsReachable` | libgo/co_rwmutex.cpp:54-59 | a run in which the spinning owner is queued |
| `RWMutexes.StuckWriterIsReachable` | libgo/processer.cpp:66-70 | a run in which a writer inside is queued |
| `RWMutexes.StuckReaderIsReachable` | libgo/processer.cpp:66-70 | a run in which a reader inside is queued while a writer spins for it to leave |
| `RWMutexes.LostForever` | libgo/co_rwmutex.cpp:54-80 | once the mutex went to a task outside `lock`, it is locked in every later state, nobody owns it, and nobody gets in |
| `RWMutexes.LostIsReachable` | libgo/processer.cpp:66-70 | a run that ends so with every task outside, without readers or spinning |
| `RWMutexes.DeathIsExact` | libgo/co_rwmutex.cpp:20-80 | over every run the lock is dead if and only if `AddWaitTask` found the mutex free for a task outside `lock`, an unlock handed it to one, or `AddWaitTask` queued the owner or a reader inside |
| `RWMutexes.DeadForever` | libgo/co_rwmutex.cpp:20-80 | a dead lock stays locked and lets nobody in any more, neither reader nor writer |
| `RWMutexCalls.CallsAreFollowed` | libgo/co_rwmutex.cpp:20-80 | over every run a task is at a place of the call that it began: a try-lock never waits and a blocking read never gives up |
| `RWMutexCalls.ReadEnters` | libgo/co_rwmutex.cpp:20-45 | while the mutex is free a read is let in and counted |
| `RWMutexCalls.ReadRefused` | libgo/co_rwmutex.cpp:20-45 | while it is locked a try-read is over with nothing changed and a blocking one goes round |
| `RWMutexCalls.ReadRetries` | libgo/co_rwmutex.cpp:20-31 | going round it is let in when it finds the mutex free |
| `RWMutexCalls.WriteEnters` | libgo/co_rwmutex.cpp:54-75 | with the mutex free and no reader a write is let in |
| `RWMutexCalls.WriteMeetsReaders` | libgo/co_rwmutex.cpp:54-75 | with a reader inside a try-write gives the mutex back and a blocking one keeps it and spins |
| `RWMutexCalls.WriteSpins` | libgo/co_rwmutex.cpp:54-59 | a spinning writer is in as soon as it finds no reader |
| `RWMutexCalls.WriteRefused` | libgo/co_rwmutex.cpp:54-75 | on a locked mutex a try-write changes nothing and a blocking one is on its way to park |
| `RWMutexCalls.UnlockHandsOver` | libgo/co_rwmutex.cpp:77-80 | an unlock gives the mutex to the first waiter, who then spins for readers, or frees it |
| `RWMutexCalls.ReadLeaves` | libgo/co_rwmutex.cpp:47-52 | a reader that leaves is no longer counted |
| `RWMutexObjects.CoRWMutexImpl.ReadTryLock` | libgo/co_rwmutex.cpp:31-40 | from any state, run undisturbed: a reader gets in exactly when nobody owns the mutex |
| `RWMutexObjects.CoRWMutexImpl.ReadUnlock` | libgo/co_rwmutex.cpp:47-52 | one reader fewer, never below zero |
| `RWMutexObjects.CoRWMutexImpl.WriteTryLock` | libgo/co_rwmutex.cpp:61-70 | from any state, run undisturbed: a writer gets in exactly when nobody owns the mutex and no reader is counted, and a failure leaves mutex and waiters as they were |
| `RWMutexObjects.CoRWMutexImpl.WriteUnlock` | libgo/co_rwmutex.cpp:77-80 | the owner's unlock is never refused: it hands the mutex to the first waiter or frees it |
| `TimedWaits.StepKeepsInv` | libgo/block_object.cpp:55-190 | every step of waits, wakers and timers keeps each task, timer and queue consistent |
| `TimedWaits.RunKeepsInv` | libgo/block_object.cpp:55-190 | in every reachable state |
| `TimedWaits.WaitReturnsTruth` | libgo/block_object.cpp:66-84 | when a coroutine's wait returns, it was made runnable once, and the result is true exactly when it consumed a signal, one |
| `TimedWaits.OneReleaser` | libgo/block_object.cpp:97-151 | a task in the hand of a waker or of a timer callback is in no queue, in no other hand and not yet released |
| `TimedWaits.StaleTimerIsHarmless` | libgo/block_object.cpp:172-187 | a timer that can still cancel belongs to the current wait of its task; one of an earlier wait does nothing |
| `TimedWaits.TimerReferenceDroppedOnce` | libgo/block_object.cpp:113-187 | the reference taken for a timer is dropped once, and reference counts are exact |
| `TimedWaits.BlockedTaskHasBlock` | libgo/processer.cpp:66-70 | a running task with a stale blocked state still names its object, so the assertion there holds |
| `TimedWaits.TimerIffTimed` | libgo/block_object.cpp:172-187 | over every run a queued task has a live timer if and only if its wait was started with a timeout, and that timer has its task, block object and number |
| `TimedWaits.TimeoutReturns` | libgo/block_object.cpp:123-187 | from wherever a timed wait is queued, its timer's callback alone leads to the return of the call with false and no signal |
| `TimedWaits.WakeReturns` | libgo/block_object.cpp:97-122 | a signal for the first of a queue leads to the return of its wait with true, whatever its timer was about to do |
| `TimedWaits.SignalsConserved` | libgo/block_object.cpp:30-170 | over every run the signals stored are the initial ones and those of wake-ups that found nobody, less those found by waits and tries |
| `TimedWaits.SerialCounts` | libgo/block_object.cpp:74-79 | every wait that has to wait gets a number of its own |
| `TimedWaits.PlainYieldGoesBack` | libgo/processer.cpp:66-70 | over every run a plain yield goes back to the old block object if and only if the last wait ended in `AddWaitTask` |
| `Timers.EraseFinds` | libgo/timer.cpp:98-116 | the token of a timer names the map that holds it: erasing through it removes exactly that entry and keeps the invariant |
| `Timers.InsertIs` | libgo/timer.cpp:58-81 | insertion keeps deadline order and adds exactly the new entry |
| `Timers.ExpiredAreDue` | libgo/timer.cpp:118-162 | at most n timers in all, all due, a front piece of each map in deadline order; if fewer than n, none that is due remains |
| `Timers.StepKeepsInv` | libgo/timer.cpp:20-162 | every step of managers, callers and cancellers keeps maps, tokens and timers consistent |
| `Timers.AtMostOnce` | libgo/timer.cpp:20-29 | over every run a callback begins at most once and a timer is handed out at most once |
| `Timers.CancelledNeverRuns` | libgo/timer.cpp:31-50 | after `Cancel` or `BlockCancel` returned true the callback never begins |
| `Timers.FailedCancel` | libgo/timer.cpp:31-50 | a cancel fails only if the callback has begun or the timer was cancelled before |
| `Timers.CallRuns` | libgo/timer.cpp:20-29 | a call runs the callback of a timer that was not cancelled, or finds that it has run |
| `Timers.TimerFate` | libgo/timer.cpp:58-162 | no timer is lost and none fires early: after it was added it waits with its deadline, or a cancel erased it, or it was handed out when its deadline had passed |
| `Timers.NeverStale` | libgo/timer.cpp:98-116 | over every run `__Cancel` finds the entry of a token that is set, and afterwards the timer is in neither map |
| `Timers.CoTimerMgr.ExpireAt` | libgo/timer.cpp:58-81 | the manager after an insertion, invariant kept; the cached trigger time of that clock is the new deadline if both maps were empty and unchanged otherwise; times that were not late stay so if and only if both maps were empty or the deadline is not earlier than its clock's cached time |
| `Timers.CoTimerMgr.CancelEntry` | libgo/timer.cpp:98-116 | the manager after an erase; the timer is in neither map, and cached times are unchanged and not late if they were not |
| `Timers.CoTimerMgr.Scan` | libgo/timer.cpp:124-134 | the loop stops at exactly the due entries and clears their tokens |
| `Timers.CoTimerMgr.TakeDue` | libgo/timer.cpp:123-140 | the due entries leave one map and the trigger time becomes its first deadline |
| `Timers.CoTimerMgr.GetExpired` | libgo/timer.cpp:118-162 | with the lock, both maps in turn, sharing the bound, and both cached times are then first deadlines, so not late; without it nothing changes and nothing is handed out |
| `Timers.NearerTimer` | libgo/timer.cpp:63-66 | two insertions after which the cached time is late |
| `Timers.CoTimerMgr.HandOut` | libgo/scheduler.cpp:204-222 | the batch loop ends with its bound reached, with its try-lock refused, or with no timer due at its last clock readings, and counts what it handed out |
| `Timers.CoTimerMgr.Batch` | libgo/sleep_wait.cpp:31-49 | one round of the loop: an empty batch means that nothing is due or that the lock was taken |
| `IoWaits.StepKeepsInv` | libgo/linux/io_wait.cpp:77-99 | every step of parking tasks and of triggers keeps sentries, triggers and tasks consistent |
| `IoWaits.WokenAtMostOnce` | libgo/linux/io_wait.cpp:77-99 | over every run a park is woken at most once, and only after it parked and was triggered |
| `IoWaits.NeverLost` | libgo/linux/io_wait.cpp:77-99 | a parked and triggered sentry that nobody is working on has been woken, exactly once |
| `IoWaits.AlwaysRescued` | libgo/linux/io_wait.cpp:77-99 | if it has not been woken yet, the steps that those at work on it have left wake it |
| `IoWaits.PollParks` | libgo/linux/io_wait.cpp:41-99 | a poll that has to wait parks its task on its sentry |
| `IoWaits.TriggerWakes` | libgo/linux/io_wait.cpp:77-99 | a trigger of a parked sentry wakes its task |
| `IoWaits.EarlyTriggerWakes` | libgo/linux/io_wait.cpp:77-99 | one that comes before the task has parked makes the parking side wake it |
| `IoWaits.WakeFindsParked` | libgo/linux/io_wait.cpp:91-99 | a wake-up only ever takes a task parked on that very sentry; stale triggers touch nobody |
| `FdContexts.HistoryKeepsInv` | libgo/linux/fd_context.cpp:97-352 | in every history each waiter's mask is covered by the pending mask, ADD is issued only when unregistered and MOD and DEL only when registered, and the registered mask is the pending one |
| `FdContexts.AddKeeps` | libgo/linux/fd_context.cpp:160-199 | also when epoll refuses |
| `FdContexts.DelKeeps` | libgo/linux/fd_context.cpp:200-237 | also when the last waiter of a kind leaves and its event is given up |
| `FdContexts.TriggerIs` | libgo/linux/fd_context.cpp:281-340 | an event empties exactly the sets that it concerns, and the output is their living sentries |
| `FdContexts.TriggerReleases` | libgo/linux/fd_context.cpp:281-340 | after a trigger no waiter that matches is left, all that left and live are in the output, the others are untouched and still covered |
| `FdContexts.FateIs` | libgo/linux/fd_context.cpp:97-352 | what every operation does to every waiter: the new one, none, or the one before |
| `FdContexts.CloseReleases` | libgo/linux/fd_context.cpp:97-127 | `close` puts out exactly the living sentries that wait, in whichever set |
| `FdContexts.TriggerPutsOut` | libgo/linux/fd_context.cpp:281-340 | a trigger puts out exactly the living sentries whose waiters the event concerns |
| `FdContexts.NoWaiterForgotten` | libgo/linux/fd_context.cpp:97-340 | in every history a living sentry that waits goes on waiting, or its own task removes or replaces it, or it is put out to be triggered |
| `FdContexts.AddAnswers` | libgo/linux/fd_context.cpp:160-199 | an addition succeeds if and only if the descriptor is open and epoll agrees, if it is asked; then the sentry waits, otherwise nothing has changed |
| `FdContexts.DelGivesUp` | libgo/linux/fd_context.cpp:200-263 | a removal gives a bit up exactly when it leaves nobody whom that bit served |
| `FdContexts.PendingIs` | libgo/linux/fd_context.cpp:97-340 | the pending mask after every other operation |
| `FdContexts.DestructorLosesIff` | libgo/linux/fd_context.cpp:19-27 | a destructor removes another sentry's entry exactly when its task has registered a newer one in the same set |
| `FdContexts.LateDestructor` | libgo/linux/io_wait.cpp:140-162 | a history in which a sentry kept alive by the trigger loop unregisters its successor |
| `FdContexts.DestructorErases` | libgo/linux/fd_context.cpp:209-212 | a waiter's entry survives its removal only if nothing is pending, and then it asked for neither input nor output |
| `FdContexts.FileDescriptorCtx.AddIntoReactor` | libgo/linux/fd_context.cpp:160-199 | the context after an addition; success means entered and covered |
| `FdContexts.FileDescriptorCtx.DelFromReactor` | libgo/linux/fd_context.cpp:200-237 | the context after a removal, invariant kept |
| `FdContexts.FileDescriptorCtx.RemoveEvents` | libgo/linux/fd_context.cpp:238-263 | the pending mask less the events, with the epoll call that this takes |
| `FdContexts.FileDescriptorCtx.TriggerTaskList` | libgo/linux/fd_context.cpp:316-340 | the walk over a set collects its living sentries and empties it |
| `FdContexts.FileDescriptorCtx.ReactorTrigger` | libgo/linux/fd_context.cpp:281-314 | the context and the output after a trigger |
| `FdContexts.FileDescriptorCtx.CloseFd` | libgo/linux/fd_context.cpp:97-127 | exactly the living waiters of all sets are put out, nothing is pending and the descriptor stays closed |
| `TsQueues.Detach` | libgo/ts_queue.h:221-229 | cutting a piece out of a linked list leaves two well-linked lists |
| `TsQueues.Join` | libgo/ts_queue.h:207-211 | linking one list behind another yields their concatenation |
| `TsQueues.SList.Erase` | libgo/ts_queue.h:88-100 | the list without that node, whose links and tag are cleared and whose count drops by one |
| `TsQueues.TSQueue.Push` | libgo/ts_queue.h:173-184 | appends the element and takes one reference; all other counts stay |
| `TsQueues.TSQueue.Pop` | libgo/ts_queue.h:186-200 | removes and returns the first element, clears its hook and drops one reference |
| `TsQueues.TSQueue.Erase` | libgo/ts_queue.h:266-278 | removes any element by its tag; a foreign tag changes nothing |
| `TsQueues.TSQueue.Splice` | libgo/ts_queue.h:202-213 | appends a detached list and empties it; counts of references stay |
| `TsQueues.TSQueue.PopFront` | libgo/ts_queue.h:216-232 | a front piece of min(n, size) elements, one for n = 0, and the rest |
| `TsQueues.TSQueue.PopBack` | libgo/ts_queue.h:235-249 | a back piece in order, and the rest |
| `TsQueues.TSQueue.PopAll` | libgo/ts_queue.h:251-264 | everything, and the empty queue |
| `TsQueues.TSQueue.Forward` | libgo/ts_queue.h:221-225 | the walk reaches the last node of the piece |
| `TsQueues.TSQueue.Backward` | libgo/ts_queue.h:240-244 | the walk back reaches the first node of the piece and never the sentinel |
| `TsQueues.StealHalf` | libgo/processer.cpp:108-118 | half of the victim's tasks, rounded up, move from its end to the thief's end; both orders, the combined multiset and all reference counts are kept |
| `SkipQueues.MaskLeavesRemainder` | libgo/ts_queue.h:376-377 | masking with a power of two less one is the remainder |
| `SkipQueues.Divide` | libgo/ts_queue.h:376-376 | the quotient counts whole skip distances |
| `SkipQueues.Jump` | libgo/ts_queue.h:374-388 | the index to start from and the steps from there reach the n-th element, and the remaining offsets account for the remaining elements |
| `SkipQueues.TSSkipQueue.Push` | libgo/ts_queue.h:339-357 | appends, with every index at its position |
| `SkipQueues.TSSkipQueue.Find` | libgo/ts_queue.h:366-391 | finds the n-th element and leaves the layer of the rest; the branch without indexes is never taken |
| `SkipQueues.TSSkipQueue.PopFront` | libgo/ts_queue.h:359-399 | exactly the first min(n, count) elements in order, for any power-of-two distance |
| `Processers.Processer.Run` | libgo/processer.cpp:23-87 | a pass swaps in exactly a front piece of the list in order, leaves the rest followed by those that stay in order, counts the done ones, and stops exactly when as many have run as are left, or with a task's exception |
| `Processers.AtLeastHalf` | libgo/processer.cpp:34-86 | at least half of the tasks, rounded up, at most all, none twice |
| `Processers.AllStayAllRun` | libgo/processer.cpp:34-86 | if all stay runnable all run and the list is as before |
| `Processers.NoneStayHalfRun` | libgo/processer.cpp:34-86 | if none stays, exactly half run, rounded up, and the others are untouched |
| `Schedulers.StepKeepsInv` | libgo/scheduler.cpp:63-190 | every step of processers, wakers, cancellers, sleepers, creators, and thieves with any count read before, keeps placement, tags, timers and counts |
| `Schedulers.ExactlyOnePlace` | libgo/processer.cpp:23-118 | in every reachable state each live task is in exactly one place, once |
| `Schedulers.OnlyLiveTasks` | libgo/processer.cpp:72-82 | and nothing but live tasks is in any place |
| `Schedulers.HookIsFree` | libgo/ts_queue.h:173-200 | a task pushed into an intrusive list has a free hook, one taken out is in that very list |
| `Schedulers.CountIsExact` | libgo/scheduler.cpp:155-190 | `task_count_` is live tasks plus done tasks not yet subtracted, per processer, and the sleep list's assertion never fails |
| `SchedulerRuns.CanRun` | libgo/scheduler.cpp:63-190 | no task is ever stranded: from every reachable state, for every live task, there are steps that make it current |
| `SchedulerRuns.ListsAreQueues` | libgo/ts_queue.h:173-320 | over every run, whoever stays in a list is never overtaken there |
| `SchedulerRuns.ThiefTakesTheBack` | libgo/processer.cpp:100-118 | a thief takes from behind those who stay |
| `SchedulerRuns.SignalsConserved` | libgo/block_object.cpp:97-170 | the signals stored are those of wake-ups that found nobody, less those that parking tasks have found |
| `SchedulerRuns.SubtractSettles` | libgo/scheduler.cpp:155-190 | after a subtraction the count is the live tasks and what other processers have still to subtract |
| `Schedulers.SleeperFound` | libgo/sleep_wait.cpp:51-57 | a sleeper's timer finds it in the sleep list |
| `HttpParsers.StepPlus` | natsu/http_parser.h:65-255 | more bytes leave a move already made as it was |
| `HttpParsers.CutAgreesOrOverlong` | natsu/http_parser.h:50-57 | any cut gives the answer and state of the whole, or fails over a line limit |
| `HttpParsers.CutAgrees` | natsu/http_parser.h:50-57 | if all lines fit, any cut gives the same answer |
| `HttpParsers.OverlongFails` | natsu/http_parser.h:248-252 | if a line does not fit, there is a cut that fails |
| `HttpParsers.SplitIndependence` | natsu/http_parser.h:50-255 | all cuts give the same first definite answer if and only if all lines fit or the whole fails anyway |
| `HttpParsers.LongLineDepends` | natsu/http_parser.h:189-255 | every request line of 1024 bytes or more that the parser accepts, ended by an empty line, is done in one call and fails in some cut |
| `HttpParsers.ShortLineAgrees` | natsu/http_parser.h:189-255 | every shorter one gives the same answer in every cut |
| `HttpParsers.LongGetDepends` | natsu/http_parser.h:189-255 | a `GET` with a path of 1025 bytes is such a request |
| `HttpParsers.SameRequest` | natsu/http_parser.h:50-62 | and then the same method, path, headers and body, with the bytes behind the request left over |
| `HttpParsers.HexSize` | natsu/http_parser.h:283-287 | the size line of a chunk reads back as its size |
| `HttpParsers.ChunkedBody` | natsu/http_parser.h:80-117 | a body encoded as in section 7.1 of RFC 9112 is read as the concatenation of its chunks |
| `HttpParsers.ChunkedBodyInPieces` | natsu/http_parser.h:80-117 | the parser reads it so however the bytes are cut, and leaves what follows |
| `HttpParsers.ChunkedRequest` | natsu/http_parser.h:50-117 | a whole chunked request, head and body cut anywhere, is done with the head's method, path and headers and the chunks for a body |
| `HttpParsers.DoneConsumes` | natsu/http_parser.h:66-255 | a request that is done has taken its first line from the buffer, and no call gives bytes back |
| `HttpParsers.ServePlus` | natsu/http_parser.h:38-57 | for a caller that calls `parse()` after each request: more bytes leave the requests already served as they were |
| `HttpParsers.ServeAgrees` | natsu/http_parser.h:38-57 | under `Steady`, any cut of a connection's bytes gives the same requests in the same order, the same last answer and the same bytes left |
| `HttpParsers.UnsteadyDiffers` | natsu/http_parser.h:38-255 | without it, some beginning of the bytes fails on a long line, and the whole gives other requests or another answer |
| `HttpParsers.ServiceIndependence` | natsu/http_parser.h:38-255 | the requests of a connection and its last answer are independent of the cuts if and only if the lines of the requests that are done fit, and those behind them fit or fail |
| `HttpParsers.Pipelined` | natsu/http_parser.h:38-57 | complete requests one behind the other, cut anywhere, are served as if each had come alone, and the parser waits for the next |
| `HttpParsers.BareIsComplete` | natsu/http_parser.h:189-255 | a request of one accepted line under 1024 bytes is such a request |
| `HttpParsers.NothingBehindChunks` | natsu/http_parser.h:38-117 | behind a chunked request, cut anywhere and whatever follows, the next `parse()` fails |
| `HttpRequests.WholeRequest` | natsu/http_parser.h:50-290 | a text made of a method in any case, a path, headers and a body that they announce, by length or in chunks, is done in any cut with exactly that method, path, headers and body, and what follows is left |
| `HttpRequests.RequestReads` | natsu/http_parser.h:50-290 | in one call also with longer lines |
| `HttpRequests.RequestIsComplete` | natsu/http_parser.h:66-255 | without chunks it can be followed by another |
| `HttpRequests.AcceptedLine` | natsu/http_parser.h:189-246 | a request line is accepted if and only if it has 14 bytes, two blanks and the name of a method in front of the first |
| `HttpRequests.ShapedLineReads` | natsu/http_parser.h:189-246 | what every line with two blanks is read as, refusals included |
| `HttpRequests.AcceptedField` | natsu/http_parser.h:119-187 | a header line is accepted if and only if it has a colon, and not in front |
| `HttpRequests.FieldReads` | natsu/http_parser.h:150-175 | a header is read as its key in lower case and its value, without the spaces around the colon |
| `HttpRequests.BadRequestLine` | natsu/http_parser.h:189-255 | a text whose first line is no request line fails in every cut |
| `HttpRequests.BadHeaderLine` | natsu/http_parser.h:119-187 | so does one with a line among the headers that is no header |
| `HttpRequests.StrToLReads` | natsu/http_parser.h:283-287 | `strtol` on white space, a sign, a numeral and anything behind it |
| `HttpRequests.ToSizeIs` | natsu/http_parser.h:283-287 | the size is congruent to the number modulo 2^32, widened with the sign of an `int` |
| `HttpRequests.LongestWait` | natsu/http_parser.h:248-252 | without a line end the parser waits up to 1024 bytes, and up to 10 for a chunk size |
| `HttpRequests.HugeChunk` | natsu/http_parser.h:80-117 | a chunk size from FFFFFFFC to FFFFFFFF throws, one from 80000000 on waits for ever |
| `HttpParsers.HttpParser.ParseRest` | natsu/http_parser.h:38-48 | `parse()` starts anew on the bytes left |
| `HttpParsers.HttpParser.Parse` | natsu/http_parser.h:50-57 | one call is the specification's step on the buffer and the new bytes |
| `HttpParsers.HttpParser.ParseFirstLine` | natsu/http_parser.h:189-255 | answer and state are those of the specification |
| `HttpParsers.HttpParser.ParseHeaders` | natsu/http_parser.h:119-187 | answer and state are those of the specification |
| `HttpParsers.HttpParser.ParseBodyWithLength` | natsu/http_parser.h:66-78 | with `content_length_` bytes in the buffer they are the body and leave the buffer, and answer and state are those of the specification |
| `HttpParsers.HttpParser.ParseBodyWithChunk` | natsu/http_parser.h:80-117 | the loop's answer and state are those of the specification |
| `HttpParsers.TrimLeft` | natsu/http_parser.h:257-269 | the number of leading spaces |
| `HttpParsers.TrimRight` | natsu/http_parser.h:271-281 | the last index that is no space, never below zero |
| `JsonNumbers.Acceptance` | natsu/gci-json.cc:392-448 | a number token is accepted if and only if it is one of the grammar in section 6 of RFC 8259 and nothing follows that would carry it on |
| `JsonNumbers.AcceptedIsLongest` | natsu/gci-json.cc:392-448 | the accepted token is the longest prefix that is a number |
| `JsonTexts.ParseIff` | natsu/gci-json.cc:335-647 | a text is accepted if and only if it is a value of the grammar written with any blanks, and then the tree is what that text means |
| `JsonTexts.ObjectMeans` | natsu/gci-json.cc:519-558 | an object holds, sorted by key, for every key in the text the first value given to it |
| `JsonTexts.QuotableIff` | natsu/gci-json.cc:450-500 | a string is exactly what plain characters, escapes and four-digit codes spell |
| `JsonTexts.NumberMeans` | natsu/gci-json.cc:392-448 | the value of a number is that of its sign, whole part, fraction and exponent |
| `JsonTexts.TidyIs` | natsu/gci-json.cc:519-558 | insertion in turn leaves the first value of every key, in order |
| `Jsons.InsertIs` | natsu/gci-json.cc:529-541 | a member is there after an insertion if and only if it was, or is the new one and its key is new |
| `Jsons.BeforeIs` | natsu/gci-json.cc:529-541 | keys are ordered by the first byte in which they differ, a beginning of a key before the key |
| `JsonTexts.RoundTrip` | natsu/gci-json.cc:293-333 | parsing a printed tree gives the tree back |
| `JsonTexts.PrintIsStable` | natsu/gci-json.cc:293-333 | print, parse, print is print |
| `JsonTexts.ParsePrintParse` | natsu/gci-json.cc:293-647 | any accepted text with small whole numbers means the same as its printed form |
| `Jsons.InsertKeepsNormal` | natsu/gci-json.cc:519-558 | members stay sorted by key, without repetition |
| `JsonParsers.Parser.NextCharacter` | natsu/gci-json.h:582-587 | moves one on unless the terminator was passed; the position stays within -1..length |
| `JsonParsers.Parser.Retract` | natsu/gci-json.h:570-570 | moves one back |
| `JsonParsers.Parser.SkipWhitespaces` | natsu/gci-json.cc:638-647 | skips exactly the blanks |
| `JsonParsers.Parser.ConsumeSpecific` | natsu/gci-json.cc:612-620 | succeeds exactly on that word |
| `JsonParsers.Parser.ConsumeNumber` | natsu/gci-json.cc:392-448 | accepts exactly the specification's token, with its exact decimal value |
| `JsonParsers.Parser.ConsumeString` | natsu/gci-json.cc:450-501 | accepts exactly well-formed raw strings |
| `JsonParsers.Parser.ConsumeArray` | natsu/gci-json.cc:560-598 | verdict, tree and remaining text are those of the specification |
| `JsonParsers.Parser.ConsumeObject` | natsu/gci-json.cc:519-558 | verdict, tree and remaining text are those of the specification, of which `JsonTexts.ObjectMeans` says which members it holds |
| `JsonParsers.Parser.ConsumePair` | natsu/gci-json.cc:600-610 | verdict, key and value are those of the specification |
| `JsonParsers.Parser.ConsumeValue` | natsu/gci-json.cc:365-390 | terminates on every input with the specification's verdict, tree and rest |
| `JsonParsers.Parser.Parse` | natsu/gci-json.cc:365-390 | a whole document: one value and the end of the text |
| `Snowflakes.OrIsSum` | natsu/natsu_snowflake.h:14-42 | the three fields share no bit of a 64-bit word |
| `Snowflakes.WordIsPack` | natsu/natsu_snowflake.h:14-42 | the word made by the shifts, masks and disjunctions is the packed number, for any machine and sequence number |
| `Snowflakes.DrawIsWord` | natsu/natsu_snowflake.h:14-44 | every id drawn is the word of the reading it was drawn at |
| `Snowflakes.SnowFlake.Generate` | natsu/natsu_snowflake.h:14-44 | the id and state of the specification, for any clock readings |
| `Snowflakes.IdsIncrease` | natsu/natsu_snowflake.h:14-44 | with a clock that never goes back, ids of any run are strictly increasing, across sequence overflow too |
| `Snowflakes.IdsOfOneTick` | natsu/natsu_snowflake.h:14-44 | while the clock stands still the sequence counts from one to 4095, and then the call waits |
| `Snowflakes.NextTick` | natsu/natsu_snowflake.h:14-44 | another millisecond starts the count again, at one, or at zero for a call that has waited for it |
| `Snowflakes.AgeTest` | natsu/natsu_rpc.cpp:436-450 | the test fires if and only if the id is from the future, or older than 15000 ms, or exactly that old with smaller low bits |
| `Snowflakes.ScanByAge` | natsu/natsu_rpc.cpp:436-450 | in a run, the scan fires for requests drawn before its own id only at 15000 ms or more and always beyond that, and always for those drawn after it |

## Left out

- Interleaved channel operators, reader and writer locks, `SchedulerSwitch` and `IOBlockTriggered` are steps of transition systems on values, because each spans several atomic sections; the objects' try and unlock methods are modelled as running undisturbed from any state. Destruction of an object in use is not captured.
- Ledgers.BlockObject.AddWaitTask: arming the timer under the same lock is in `TimedWaits.ExecAddWait`, not in this method.
- Ledgers.BlockObject.CancelWait: the tests of `block_` and `block_sequence_` before the erase are in `TimedWaits.ExecTimer`.
- TsQueues.TSQueue.Erase: a hook that carries this list's tag is taken to be in this list; that the callers keep to it is `Schedulers.HookIsFree`.
- `Channels` takes the section under the queue lock for one step; `LockedChannels` has the lock as a mutex.
- A task that holds the reader/writer lock does not enter it again.
- `Channel<void>`, debug printing, statistics, exception-handling modes and destructor checks.
- Context switches, memory ordering, real epoll, sockets and threads: a switch always succeeds, atomics are sequentially consistent, clocks and epoll answers are parameters.
- FdContexts.FileDescriptorCtx.RemoveEvents: failing `epoll_ctl` calls inside `del_events`, which the source ignores, are not modelled; a failing call in `add_into_reactor` is.
- FdContexts.FileDescriptorCtx.TriggerTaskList: the `revents` written to a sentry's `pollfd` entries are not modelled.
- JsonParsers.Parser.ConsumeNumber: the value is the exact decimal, where `atof` rounds.
- ChannelObjects.ChannelImpl.TryPop: stops at its first yield; the later rounds are steps of `Channels`.
- Per-thread epoll descriptors and `fork`; a descriptor belongs to one epoll set.
- Wrap-around of counters and of the 32-bit argument of `pop_front` and `pop_back`.
- Timers.CoTimerMgr.HandOut: callbacks that add timers while the loop runs are not modelled.
- Ledgers.FirstComeFirstServed: is about histories without cancelled waits; `NoOvertaking` is what holds with them.
- Processers.Processer.Run: arrivals and steals by other threads during the pass are not modelled; they are steps of the scheduler model.
- JsonTexts.RoundTrip: numbers are whole and of magnitude below 10^6, the range that the stream's default precision prints in full; negative zero, other doubles and rounding by `atof` are not modelled.
- JsonParsers.Parser.Parse: the text holds no NUL before its end, as for any C string.
- Snowflakes.IdsIncrease: the clock fits 41 bits and never goes back.
- `parse()` has no caller in the repository, which closes a connection after one request; the requests of a connection are those of a caller that calls it after each success.
- The rest of natsu (RPC transport, router, redis, regular expressions, configuration), the system-call hooks, the context backends, xhook and the Windows stubs.
