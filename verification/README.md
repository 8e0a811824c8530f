# A verified model of the xtern (Parrot) scheduler

xtern schedules the synchronisation operations of a multi-threaded program
deterministically. One thread at a time holds *the turn*; the others queue for
it in a FIFO run queue or sleep on a wait queue with logical timeouts. A thread
about to block in a system call leaves the run queue without taking the turn,
and comes back through a set of pending wake-ups. On top of this the pthread
primitives are re-implemented as loops of try, wait and signal.

The project has four layers.

1. **The scheduler as a protocol.** `SchedCore` and `SchedSpec` give the
   scheduler's data and what each operation does to it. `Protocol` makes a
   transition system of it: every spin-lock or mutex section, and every stretch
   of code only the turn holder can observe, is one step, and the steps of all
   threads interleave freely. `Guard` is control flow only, `Asserts` collects
   what the code asserts in the step, `Apply` is its effect. `ProtocolInv` and
   `ProtocolSteps` prove one invariant for every step, `ProtocolTheorems` draws
   the consequences for all reachable states and all runs, `Progress` shows that
   the turn keeps moving and how soon it reaches a thread, `Effects`, `Arrival`,
   `Looks`, `ClockBound` and `Promises` say on the fields of the state what the
   steps do to queues, clocks and promises, `Determinism` shows
   that physical interleavings are invisible, `WaitFrame` says who may start or
   stop waiting in a step, and `Timeouts` when.
2. **The scheduler as code.** `Scheduler.RRScheduler` is the object with its
   fields and delete-while-iterating loops. Its methods are proved against
   `SchedSpec`; whole calls are proved to be runs of the protocol, from the
   constructor's state on (`Scheduler.ProgBegin`). `RunQueue`, `NonDetSet` and
   `TidMaps` are the containers it uses, and `Containers` has the operations that
   work on them run on the linked queue and the indexed set themselves.
   `Interleaved` lets the other threads act between the critical sections of the
   calls that release the turn.
3. **The primitives.** `UnitSync` (mutexes, semaphores, the mutex side of
   condition variables), `Barrier`, `Lineup` (the soft barrier) and `Join` each
   put a primitive on top of the protocol: a state is a protocol state plus the
   primitive's fields plus where each thread stands in the primitive's code,
   and theorems quantify over all runs.
4. **The binary call log.** `CallLog` writes calls as fixed-size records and
   reads them back.

Where a property does not hold for all inputs, the exact condition under which
it does is part of the theorem: `Timeouts.PromiseMet`, `CallLog.RoundTrip`,
`CallLog.InsidRoundTrip`, `CallLog.SequenceNumbers`, `CallLog.RecordCounts`,
`CallLog.ArgsAddUp`, `CallLog.ExtraRecordsFit`, `Join.JoinersReleased`,
`RunQueue.RunQ.Erase`, `TidMaps.TidMap.Create`. A failing input is shown by
`Timeouts.PastDeadline`, `CallLog.TooManyArgs`, `Join.TwoJoiners` and
`RunQueue.StaleHead`.

Code and comments disagree in two places, and the model follows the code. The
comment in relTimeToTurn says that a negative interval counts as
`5 * nthread + 1` turns; the interval is passed as an unsigned number and counts
as 1,000,000 (`Timeouts.PromiseMet`, `Timeouts.PastDeadline`). The assertion in
setInsid accepts 2^29 - 1, which reads back as "no instruction id"
(`CallLog.InsidRoundTrip`).

## Model

| member | source | states |
|---|---|---|
| SchedCore.MoveConserves | lib/runtime/record-scheduler.cpp:133-154 | taking threads off the wait queue loses and invents nobody: both queues together keep their multiset of threads |
| SchedCore.MoveSane | lib/runtime/record-scheduler.cpp:356-385 | waking any set of waiters keeps both queues duplicate-free and disjoint, and moves exactly that set |
| SchedCore.LongestWaiter | lib/runtime/record-scheduler.cpp:366-381 | a single signal wakes the waiter on the channel nearest the front of the wait queue |
| SchedCore.SignalsMakeBroadcast | lib/runtime/record-scheduler.cpp:356-385 | as many single signals as there are waiters have the same effect as one broadcast, order of arrival included |
| ProtocolSteps.StepSafe | lib/runtime/record-scheduler.cpp:133-610 | every enabled step from an invariant state meets every assertion of the code and keeps the invariant |
| ProtocolTheorems.RunInv | lib/runtime/record-scheduler.cpp:180-610 | the invariant holds over every run, however the threads interleave |
| ProtocolInv.InitInv | lib/runtime/record-scheduler.cpp:411-423 | the state the constructor leaves satisfies the invariant |
| ProtocolTheorems.NoAssertionFails | lib/runtime/record-scheduler.cpp:184-198 | no assertion in next, putTurn, wait, block, interProStart, interProEnd, nextRunnable, tryPutTurn, wakeUpIdleThread or the non-det set can fail in any reachable state |
| ProtocolTheorems.AssertionsSpelt | lib/runtime/record-scheduler.cpp:180-610 | the assertions one by one, on queues, statuses, program points and the non-det set of a reachable state |
| ProtocolTheorems.TurnConserved | lib/runtime/record-scheduler.cpp:64-115 | until the program ends there is exactly one turn, posted or held, and it belongs to the front of the run queue |
| ProtocolTheorems.RelaysAgree | include/tern/runtime/record-scheduler.h:99-108 | a thread's flag is set exactly when its semaphore is positive, and only taking the turn clears a set flag although every reset overwrites it: the relays are interchangeable |
| ProtocolTheorems.SelfCheckPasses | lib/runtime/record-scheduler.cpp:425-472 | selfcheck succeeds in every reachable state |
| ProtocolTheorems.NobodyLost | lib/runtime/record-scheduler.cpp:156-176 | every thread is in at most one queue; one in no queue is in a blocking call, between interProEnd and wakeup, in a non-det region, pending or ended; a waiting or ended thread has no wake-up pending |
| ProtocolTheorems.TurnReachesThread | lib/runtime/record-scheduler.cpp:513-578 | the turn is never posted to a thread that sits in a blocking call |
| ProtocolTheorems.NonDetFirst | include/tern/runtime/non-det-thread-set.h:49-102 | the non-det list and map hold the same threads, exactly those outside both queues, and the first has the smallest logical clock |
| ProtocolTheorems.IdleFindsAnother | lib/runtime/record-scheduler.cpp:246-264 | when the sleeping idle thread hands over, the run queue is not empty and the turn goes to another thread: idle never wakes itself |
| ProtocolTheorems.LookShrinks | lib/runtime/record-scheduler.cpp:513-578 | one iteration of nextRunnable grants, stops, or drops the front element |
| ProtocolTheorems.NextRunnableTerminates | lib/runtime/record-scheduler.cpp:513-578 | under every interleaving the loop examines at most one element more than were queued when it began |
| ProtocolTheorems.BoundedBypass | lib/runtime/record-scheduler.cpp:301-385 | a thread at index k is served, or out of the queue, before the turn is released k + 1 times |
| ProtocolTheorems.OnlyStoppedDropped | lib/runtime/record-scheduler.cpp:550-556 | a thread leaves the run queue without having had the turn only when found at the front blocked in a system call |
| Promises.OnePromiseAtMost | lib/runtime/record-scheduler.cpp:580-596 | at most one thread besides the owner of the turn is ever marked RUNNING, and none while idle is awake and has not marked one |
| Effects.TimeoutsBeforeWakeups | lib/runtime/record-scheduler.cpp:389-395 | after a counted turn the run queue holds who remains, in order, then whoever timed out, in wait-queue order, then whoever check_wakeup re-queues |
| Looks.StoppedExactly | lib/runtime/record-scheduler.cpp:513-541 | a look ends the program exactly when the run queue is empty at a thread's end and nobody waits or main ends |
| Looks.StoppedForGood | lib/runtime/record-scheduler.cpp:205-206 | after that no turn is ever posted |
| Looks.IdleWoken | lib/runtime/record-scheduler.cpp:519-541 | any other empty run queue makes the look wake idle, and only idle, and grant it the turn |
| Looks.NonDetWaiters | lib/runtime/record-scheduler.cpp:542-549 | the threads on nonDetCV are woken exactly when idle finds only itself queued: all of them, behind idle, in order of arrival |
| ClockBound.PutBackExactly | lib/runtime/record-scheduler.cpp:598-610 | putTurn and thread end move the outside thread of smallest clock to the end of the run queue exactly when turn > clock + bound, and nobody else outside moves |
| ClockBound.BackWithin | lib/runtime/record-scheduler.cpp:598-610 | once its bound has passed, a thread at position k of the set is back in the run queue within k + 1 turns put or threads ended |
| ClockBound.OutOfTheSet | lib/runtime/record-scheduler.cpp:163-170 | whoever leaves the non-det set is in the run queue |
| ClockBound.EntersNow | lib/runtime/record-scheduler.cpp:281-282 | whoever enters the non-det set is its last member, with the turn at which it left as its clock |
| Arrival.ArrivalOrder | lib/runtime/record-scheduler.cpp:335-345 | a step keeps the order of those who go on waiting, and who starts to wait stands last |
| Arrival.FirstStaysFirst | lib/runtime/record-scheduler.cpp:335-345 | over every run, of two waiting threads the one that came first stays first |
| Arrival.SignalTakesFirst | lib/runtime/record-scheduler.cpp:366-381 | signal moves exactly the first-come waiter on the channel to the end of the run queue |
| Arrival.BroadcastTakesAll | lib/runtime/record-scheduler.cpp:366-381 | broadcast moves exactly the waiters on the channel behind the run queue, in order of arrival |
| Progress.TurnMovesOn | lib/runtime/record-scheduler.cpp:180-264 | in every reachable state before the end some enabled step moves the turn on or strictly shortens the way to one that does: the turn never gets stuck |
| Progress.ServedWithin | lib/runtime/record-scheduler.cpp:301-385 | a thread at index k of the run queue is served, or dropped as blocked, before the turn has moved on 5k + 5 times (take, release, drain, look, post), however the others interleave |
| Determinism.TokenCommutes | lib/runtime/record-scheduler.cpp:268-395 | a step of the turn has the same effect and the same logged result whoever has already reached getTurn |
| Determinism.RunIsSchedule | include/tern/runtime/scheduler.h:235-242 | every physical run equals, up to who already waits for the turn, one sequential schedule cut after as many turn steps |
| Determinism.Deterministic | include/tern/runtime/scheduler.h:235-242 | of any two runs of the same program one log of (turn, thread, operation, result) is a prefix of the other; equally long runs agree on scheduler and memory |
| Determinism.RunsReachable | lib/runtime/record-scheduler.cpp:268-395 | every state of a physical run from the start is a reachable state of the protocol |
| Determinism.TurnNeverFails | lib/runtime/record-scheduler.cpp:268-395 | in a physical run no assertion ever stands in the way of the turn |
| Determinism.LogRecords | lib/runtime/record-scheduler.cpp:268-395 | taking the turn is logged with turn number, taker and wait result; what a holder does with its command and answer; nothing else is |
| Determinism.LogCounts | lib/runtime/record-scheduler.cpp:268-395 | a run with k turns taken has k such entries, and one for each act of a holder |
| WaitFrame.StepFrame | lib/runtime/record-scheduler.cpp:335-395 | in every step: who starts to wait, who stops, and with which result; result 0 only through a signal on its channel, ETIMEDOUT only through an increment past its limit |
| Timeouts.TimeDiff | lib/runtime/record-runtime.cpp:146-157 | the difference in nanoseconds is exact, and normalised for normalised arguments |
| Timeouts.TurnsBounded | lib/runtime/record-runtime.cpp:216-251 | at least 5 * nthread + 1 turns, at most that or a million, and never more turns than the interval holds otherwise |
| Timeouts.PromiseMet | lib/runtime/record-runtime.cpp:236-251 | the number of turns is what the comment promises exactly when the interval is not negative; a negative one gives a million |
| Timeouts.PastDeadline | lib/runtime/record-runtime.cpp:241-248 | a deadline one second in the past waits a million turns |
| Timeouts.ExactTimeout | lib/runtime/record-scheduler.cpp:133-154 | over every run a waiting thread leaves the wait queue either signalled with result 0, or with ETIMEDOUT at exactly the increment to max(limit, counter) + 1; with FOREVER only a signal wakes it |
| Timeouts.RelativeDeadline | lib/runtime/record-runtime.cpp:791-820 | over every run: a timed call at turn count T whose limit is getTurnCount() + n, with n from relTimeToTurn, leaves the wait queue signalled, or with ETIMEDOUT at exactly the increment to T + n |
| Scheduler.RRScheduler.constructor | lib/runtime/record-scheduler.cpp:411-423 | the main thread is queued, running, and has the first turn posted: the protocol's initial state |
| Scheduler.ProgBegin | lib/runtime/helper.cpp:123-153 | from the constructor, main's three operations up to the creation of the idle thread are a run of the protocol from its initial state, count three turns, and end with the turn posted |
| Scheduler.RRScheduler.GetTurn | lib/runtime/record-scheduler.cpp:268-275 | taking a posted turn is the protocol's step, and the taker is the front of the run queue |
| Scheduler.RRScheduler.CreateThread | include/tern/runtime/scheduler.h:259-265 | the new thread gets the next id, a clean wait record, and the last place in the run queue |
| Scheduler.RRScheduler.FireTimeouts | lib/runtime/record-scheduler.cpp:133-154 | the loop is the stable move of all expired waiters; the result counts them |
| Scheduler.RRScheduler.Signal | lib/runtime/record-scheduler.cpp:356-385 | the loop wakes the longest waiter, or all of them in order, and leaves the others |
| Scheduler.RRScheduler.CheckWakeup | lib/runtime/record-scheduler.cpp:156-176 | in whichever order the set is traversed, exactly the pending threads not queued are appended and leave the non-det set |
| Scheduler.RRScheduler.IncTurnCount | lib/runtime/record-scheduler.cpp:389-395 | increments, fires timeouts, then drains the wake-ups; returns the old count |
| Scheduler.RRScheduler.CountTurn | lib/runtime/record-scheduler.cpp:389-395 | incTurnCount of the turn holder is the protocol's Inc |
| Scheduler.RRScheduler.SignalTurn | lib/runtime/record-scheduler.cpp:356-385 | signal of the turn holder is the protocol's Sig with the same channel |
| Scheduler.RRScheduler.InterProStart | lib/runtime/record-scheduler.cpp:487-502 | is the protocol's Start: the thread goes to block() exactly when it is promised the turn, and into its system call otherwise |
| Scheduler.RRScheduler.InterProEnd | lib/runtime/record-scheduler.cpp:504-511 | is the protocol's Finish, at any moment of anybody's turn |
| Scheduler.RRScheduler.Wakeup | lib/runtime/record-scheduler.cpp:291-297 | is the protocol's Wake: the thread is pending, the flag agrees with the set |
| Scheduler.RRScheduler.WakeUpIdleThread | lib/runtime/record-scheduler.cpp:218-244 | the loop moves the idle thread, and only it, to the run queue |
| Scheduler.RRScheduler.NextRunnable | lib/runtime/record-scheduler.cpp:513-578 | terminates, is a run of protocol looks, and returns the granted front thread; InvalidTid only at a thread's end |
| Scheduler.RRScheduler.HandOver | lib/runtime/record-scheduler.cpp:198-216 | draining, searching and posting are a run of the protocol that ends with the turn posted, or, at a thread's end only, with the program |
| Scheduler.RRScheduler.PutTurn | lib/runtime/record-scheduler.cpp:301-331 | putTurn is the protocol's PutTurn followed by a hand-over, and ends with the turn posted |
| Scheduler.RRScheduler.EndThread | lib/runtime/record-scheduler.cpp:308-311 | putTurn at thread end is the protocol's End (one joiner signalled) followed by a hand-over |
| Scheduler.RRScheduler.WaitRelease | lib/runtime/record-scheduler.cpp:335-347 | wait up to its getTurn is the protocol's WaitOn with the same channel and limit followed by a hand-over |
| Scheduler.RRScheduler.BlockRelease | lib/runtime/record-scheduler.cpp:277-289 | block after its getTurn is the protocol's Block followed by a hand-over |
| Scheduler.RRScheduler.TryPutTurn | lib/runtime/record-scheduler.cpp:580-596 | promises the turn to the first runnable thread behind idle, or finds that there is none |
| Scheduler.RRScheduler.IdleThreadCondWait | lib/runtime/record-scheduler.cpp:246-264 | idle sleeps exactly when some thread behind it is runnable, after promising it the turn, and otherwise puts the turn; either way a run of the protocol |
| Scheduler.RRScheduler.CheckNonDetBound | lib/runtime/record-scheduler.cpp:598-610 | re-queues the first thread of the non-det set exactly when the clock bound is exceeded |
| Interleaved.PlayedAll | lib/runtime/record-scheduler.cpp:291-297 | every run of the other threads is one the interleaved calls admit between their sections |
| Interleaved.Others | lib/runtime/record-scheduler.cpp:487-511 | what other threads do between two critical sections is a run of their own steps |
| Interleaved.HandOver | lib/runtime/record-scheduler.cpp:198-216 | with arbitrary steps of the other threads before each drain, look and post, next is still a run of the protocol that ends with the turn posted, or, at a thread's end only, with the program |
| Interleaved.NextRunnable | lib/runtime/record-scheduler.cpp:513-578 | terminates however the others interleave, and returns the granted front thread |
| Interleaved.PutTurn | lib/runtime/record-scheduler.cpp:301-331 | putTurn amid the others' steps |
| Interleaved.EndThread | lib/runtime/record-scheduler.cpp:308-311 | the end of a thread amid the others' steps |
| Interleaved.WaitRelease | lib/runtime/record-scheduler.cpp:335-347 | wait amid the others' steps, with the same channel and limit |
| Interleaved.BlockRelease | lib/runtime/record-scheduler.cpp:277-289 | block amid the others' steps |
| Interleaved.TryPutTurn | lib/runtime/record-scheduler.cpp:580-596 | with the others acting between its looks at the queue: when it succeeds a queued thread has been promised the turn |
| Interleaved.IdleThreadCondWait | lib/runtime/record-scheduler.cpp:246-264 | whatever the others do, idle sleeps only after a promise, and its hand-over ends with the turn posted |
| RunQueue.RunQ.ContentsNoDup | include/tern/runtime/run-queue.h:84-120 | the linked list stands for a duplicate-free sequence of thread ids |
| RunQueue.RunQ.CreateThdElem | include/tern/runtime/run-queue.h:182-189 | a new element is known and not queued |
| RunQueue.RunQ.Linked | include/tern/runtime/run-queue.h:263-278 | an element is queued exactly when it has a neighbour or is head and tail, the head's stale prev included |
| RunQueue.RunQ.In | include/tern/runtime/run-queue.h:263-278 | the pointer test is exactly membership in the sequence |
| RunQueue.RunQ.PushBack | include/tern/runtime/run-queue.h:338-357 | appends one thread id |
| RunQueue.RunQ.Front | include/tern/runtime/run-queue.h:360-365 | the first thread id of the sequence |
| RunQueue.RunQ.PopFront | include/tern/runtime/run-queue.h:389-399 | removes the first thread id and keeps the list proper although the new head's prev still points at the element that left |
| RunQueue.RunQ.Erase | include/tern/runtime/run-queue.h:308-335 | at end() nothing happens; otherwise exactly that position is removed and its successor returned, and the list is proper afterwards exactly when the element was not a head with a stale prev |
| RunQueue.RunQ.EraseHead | include/tern/runtime/run-queue.h:308-335 | erasing the head of a longer queue leaves a proper list exactly when its prev is not stale |
| RunQueue.RunQ.EraseOnly | include/tern/runtime/run-queue.h:308-335 | erasing the only element leaves a proper empty list exactly when its prev is not stale |
| RunQueue.StaleHead | include/tern/runtime/run-queue.h:308-335 | two pushes, one pop and an erase of the head break the list |
| RunQueue.RunQ.Add | include/tern/runtime/scheduler.h:259-265 | a new thread gets an element and the last place |
| Containers.CheckWakeup | lib/runtime/record-scheduler.cpp:156-176 | on the linked queue and the indexed set, in any traversal order: exactly the pending threads not queued are appended and leave the set |
| Containers.CheckNonDetBound | lib/runtime/record-scheduler.cpp:598-610 | on the linked queue and the indexed set: the first thread is re-queued exactly when the bound is exceeded |
| Containers.FireTimeouts | lib/runtime/record-scheduler.cpp:133-154 | on the linked queue: the stable move of all expired waiters |
| Containers.Signal | lib/runtime/record-scheduler.cpp:356-385 | on the linked queue: the longest waiter, or all of them in order |
| Containers.FirstRunnable | lib/runtime/record-scheduler.cpp:580-596 | along the links: the first runnable thread behind the front, or none |
| Containers.RotateFront | lib/runtime/record-scheduler.cpp:320-326 | pop_front and push_back rotate the queue |
| Containers.DropStopped | lib/runtime/record-scheduler.cpp:550-558 | a stopped front thread leaves the linked queue and enters the set at the current turn |
| NonDetSet.NonDetThreadSet.In | include/tern/runtime/non-det-thread-set.h:88-102 | index look-up and list search both decide membership |
| NonDetSet.NonDetThreadSet.Insert | include/tern/runtime/non-det-thread-set.h:49-55 | appended to the list and entered in the index |
| NonDetSet.NonDetThreadSet.Erase | include/tern/runtime/non-det-thread-set.h:57-72 | removed from both, the others keep their order |
| NonDetSet.NonDetThreadSet.Size | include/tern/runtime/non-det-thread-set.h:73-76 | list and map have the same size |
| NonDetSet.NonDetThreadSet.FirstThread | include/tern/runtime/non-det-thread-set.h:78-81 | the first thread that arrived, and it has a clock |
| NonDetSet.NonDetThreadSet.GetClock | include/tern/runtime/non-det-thread-set.h:83-86 | the clock the thread was inserted with |
| TidMaps.TidMap.Create | include/tern/runtime/scheduler.h:51-57 | a thread id never given before; the maps stay mutual inverses; a live thread can be taken for a zombie exactly when its pthread id is that of an unjoined zombie |
| TidMaps.TidMap.Zombify | include/tern/runtime/scheduler.h:69-76 | the thread leaves both maps and becomes a zombie |
| TidMaps.TidMap.Reap | include/tern/runtime/scheduler.h:79-81 | the zombie is gone, the maps are untouched |
| TidMaps.TidMap.GetTid | include/tern/runtime/scheduler.h:84-89 | the thread id that maps back to the pthread id, or InvalidTid exactly for unknown ones |
| TidMaps.TidMap.GetPthreadTid | include/tern/runtime/scheduler.h:92-97 | the inverse look-up |
| UnitSync.UnitStep | lib/runtime/record-runtime.cpp:594-604 | every step of lock, timedlock, unlock, cond_wait, cond_timedwait, sem_wait, sem_timedwait, sem_post, and every other step of the protocol, keeps the no-lost-wake-up invariant |
| UnitSync.NotifyCounts | lib/runtime/record-runtime.cpp:1406-1421 | a release whose signal leaves a waiter behind has woken another one |
| UnitSync.UnitNeverFails | lib/runtime/record-runtime.cpp:594-604 | no step of these primitives can fail an assertion of the scheduler |
| UnitSync.NoLostWakeup | lib/runtime/record-runtime.cpp:1318-1421 | over every run: while a thread waits for a unit, available units are at most the signalled threads in the run queue that have yet to retry (plus the signal the holder owes); an untimed wait never reports ETIMEDOUT |
| UnitSync.UnitsConserved | lib/runtime/record-runtime.cpp:594-604 | over every run, available units plus successful tries equal the initial units plus releases: no unit is lost or made |
| UnitSync.MutualExclusion | lib/runtime/record-runtime.cpp:822-847 | a mutex released by its owner only has exactly one owner or is free, over every run |
| UnitSync.LoopsEnd | lib/runtime/record-runtime.cpp:1361-1403 | a thread is in the loop exactly from a failed try to its success or ETIMEDOUT |
| UnitSync.HolderBranches | lib/runtime/record-runtime.cpp:594-604 | which branch the holder takes, from units and wait result alone |
| Barrier.BarStep | lib/runtime/record-runtime.cpp:883-958 | every step of barrier_wait and every other step of the protocol keeps the barrier invariant |
| Barrier.BarNeverFails | lib/runtime/record-runtime.cpp:921-930 | no step of a barrier call can fail an assertion; in particular the counter never overflows |
| Barrier.BarrierGenerations | lib/runtime/record-runtime.cpp:883-958 | over every run the counter equals the number of waiting threads and stays below count, and every finished generation has exactly count distinct threads |
| Barrier.OneSerialEach | lib/runtime/record-runtime.cpp:924-951 | nobody returns before its generation is complete or twice from one, and exactly its last arrival returns PTHREAD_BARRIER_SERIAL_THREAD |
| Barrier.EveryoneReleased | lib/runtime/record-runtime.cpp:924-951 | each thread of a finished generation has returned or is off the barrier's wait queue |
| Barrier.HolderBranches | lib/runtime/record-runtime.cpp:930-951 | an arrival fills the barrier exactly when it is the last of count, and waits otherwise |
| Lineup.LineStep | lib/runtime/record-runtime.cpp:1484-1562 | every step of lineupStart and lineupEnd and every other step of the protocol keeps the lineup invariant |
| Lineup.LineNeverFails | lib/runtime/record-runtime.cpp:1556-1560 | no step of a lineup call can fail an assertion, and lineupEnd never wraps nactive around |
| Lineup.BatchesNeverMix | lib/runtime/record-runtime.cpp:1484-1541 | over every run: LEAVING means nobody waits; ARRIVING means the batch is not full, nobody is inside, and nactive counts the waiting and the timed-out threads; every active thread belongs to the current batch |
| Lineup.ReopensEmpty | lib/runtime/record-runtime.cpp:1543-1562 | the phase returns to ARRIVING only in lineupEnd and only when every entrant has ended |
| Lineup.ZeroCountNeverOpens | lib/runtime/record-runtime.cpp:1502-1536 | a lineup with count 0 never leaves ARRIVING, so count >= 1 is needed |
| Lineup.HolderBranches | lib/runtime/record-runtime.cpp:1497-1560 | which branch of lineupStart, of the code after its wait, and of lineupEnd is taken |
| Join.JoinersReleased | lib/runtime/record-scheduler.cpp:308-311 | the end of a thread releases everybody who joins it exactly when at most one thread is waiting for it |
| Join.JoinNeverFails | lib/runtime/record-runtime.cpp:510-547 | no step of a join can fail an assertion of the scheduler |
| Join.NobodyJoinsTheDead | lib/runtime/record-runtime.cpp:510-547 | with one joiner per thread, over every run nobody waits for an ended thread, and a joiner off the wait queue finds a zombie |
| Join.SecondJoinerStuck | lib/runtime/record-runtime.cpp:510-518 | whoever still waits for an ended thread waits in every later state |
| Join.HolderBranches | lib/runtime/record-runtime.cpp:513-547 | the only joiner reaps exactly when its thread is a zombie, and waits otherwise |
| Join.TwoJoiners | lib/runtime/record-runtime.cpp:510-518 | in a reachable state with two joiners the later one still waits in every state after the end of the thread |
| Join.TwoWaitingReached | lib/runtime/record-runtime.cpp:467-518 | a run from the constructor's state to the one in which main and thread 2 both join thread 3 |
| CallLog.InsidRoundTrip | include/tern/logdefs.h:68-86 | an accepted instruction id comes back exactly when it is not 2^29 - 1 |
| CallLog.ExtraRecordsFit | include/tern/logdefs.h:195-202 | there are enough records; each extra record reports one to three arguments exactly below 32767 arguments; each reports what was written into it exactly when there are less than 768 arguments or their number is 3m + 2 |
| CallLog.ArgsAddUp | include/tern/logdefs.h:195-202 | the counts in a call's records, taken with their 8-bit numbers, add up to its arguments exactly when there are less than 768 or their number is 3m + 2 |
| CallLog.EncodeAppend | lib/runtime/record-log.cpp:263-390 | logging one more event appends its records |
| CallLog.RoundTrip | lib/runtime/record-log.cpp:263-390 | reading a log gives back every event, argument and return value in order exactly when each id is not 2^29 - 1 and each call has fewer than 768 arguments or a number of the form 3m + 2 |
| CallLog.InsidEverywhere | lib/runtime/record-log.cpp:263-390 | every record of an event carries its instruction id |
| CallLog.CallFields | lib/runtime/record-log.cpp:319-334 | the call record field by field, unwritten slots included |
| CallLog.ExtraFields | lib/runtime/record-log.cpp:336-355 | extra record i slot by slot: argument 2 + 3(i - 1) + j or what was there, its number cut to 8 bits, its flags untouched |
| CallLog.PlainFields | lib/runtime/record-log.cpp:263-295 | the other records field by field |
| CallLog.TooManyArgs | lib/runtime/record-log.cpp:336-355 | 768 arguments are not read back: the last record is numbered 0, claims three arguments instead of one, and the counts add up to 770 |
| CallLog.SequenceNumbers | lib/runtime/record-log.cpp:317-387 | the 8-bit sequence numbers of a call and its return count 0, 1, 2, ... exactly up to 764 arguments |
| CallLog.RecordCounts | include/tern/logdefs.h:180-193 | a call record knows how many records its call takes; an extra record does exactly when the flags byte logCall leaves unwritten agrees about CallNoReturn |
| CallLog.ReturnCounts | include/tern/logdefs.h:180-193 | a return record knows how many records its call and it take |
| CallLog.BinLogger.LogCall | lib/runtime/record-log.cpp:297-355 | the loops write exactly the records of the call, exit and pthread_exit marked as not returning, the 16-bit loop bound included |
| CallLog.BinLogger.FillInline | lib/runtime/record-log.cpp:329-332 | the first two arguments, then what was there |
| CallLog.BinLogger.FillExtra | lib/runtime/record-log.cpp:346-352 | the arguments of one extra record up to the 16-bit loop bound, then what was there |
| CallLog.BinLogger.LogRet | lib/runtime/record-log.cpp:357-390 | the return record of the call |
| CallLog.BinLogger.LogInsid | lib/runtime/record-log.cpp:263-271 | one instruction-id record |
| CallLog.BinLogger.LogLoad | lib/runtime/record-log.cpp:273-283 | one load record |
| CallLog.BinLogger.LogStore | lib/runtime/record-log.cpp:285-295 | one store record |

## Left out

- fork and childForkReturn: pending wake-ups and the non-det set survive a fork, so the invariants would need assumptions the code does not make.
- The XTERN_PLUS_DBUG branches: they call a library that is not part of this model.
- The semaphore handshake of pthreadCreate: creation is one step of the turn holder; the child starts outside the scheduler.
- The end of the program after nextRunnable has returned InvalidTid, idle_done, and exit without an idle thread. Until the idle thread exists the main thread only takes turns and creates threads, which is all __tern_prog_begin does.
- rwlocks, which are the mutex loop again, and RecordSerializer, which is nondeterministic by design.
- Mutexes and semaphores shared between deterministic code and non-det regions: those operations bypass the scheduler.
- Text and test loggers, logSync, statistics, the byte layout of records, and growing the log file: formatting and I/O.
- push_front and deep_clear of run_queue: the scheduler's own operations do not use them.
- nextTimeout and absTimeToTurn: not called by what is modelled.
- Turn numbers are assumed to stay below UINT_MAX, idle_mutex to be uncontended, and the hardware to be sequentially consistent.
- The test `nNonDetWait > 0` before the broadcast on nonDetCV: without a waiter the broadcast changes nothing.
- Determinism.Deterministic: covers threads that keep to turn-based calls, and takes what a thread does with the turn to be a function of what happened under earlier turns, which is what freedom from data races gives.
- The RRScheduler class keeps the run queue and the non-det set as values; the operations that touch the real containers are in Containers, with the same specification. Its own calls are uninterrupted; Interleaved has them with the other threads acting between their critical sections.
- Scheduler.RRScheduler.EndThread: not the end of the idle thread itself, which ends only at the shutdown that is left out (idle_done).
- Interleaved.EndThread: not the end of the idle thread either, for the same reason.
- The primitives are transition systems and not methods: each call spans several turns during which every other thread acts.
- What pthreadJoin does after a detached thread's id, which stays in the zombie set for ever, has been reused: TidMap.Create says when that happens.
- Join.NobodyJoinsTheDead: assumes one joiner per thread; JoinersReleased and SecondJoinerStuck say what happens otherwise.
- Lineup.BatchesNeverMix: assumes that each thread pairs lineupStart with lineupEnd.
- Timeouts.TurnsBounded: relTimeToTurn of a null pointer (0 turns) is not modelled, since every caller passes the address of a local, nor is an interval whose nanoseconds overflow 64 bits.
- CallLog.RoundTrip: arguments are given with the call, so a negative narg is not modelled.
