# FreeRTOS kernel: a verified model

This project models the core of the FreeRTOS kernel in Dafny and proves properties of the
model. One configuration is fixed: one core, generic task selection, preemption and time
slicing, mutexes, task suspension, no queue sets. The tick width is symbolic: tick counts are
numbers below a `modulus`. Task selection on several cores is a separate module.

Each part has the same shape. A specification is written on values: a sequence, a clock that
never wraps, a state machine whose steps are critical sections or single memory accesses. A
class holds the kernel's own fields and its methods are proved against that specification;
lemmas then prove what the kernel promises about the specification, for every input, every
interleaving or every run.

| file | what it holds |
|---|---|
| Lists.dfy | the intrusive ring with its moving index, against a sequence and an index |
| RoundRobin.dfy | how long an item of a ready list waits for its turn |
| TickMath.dfy, TimedLists.dfy | wrapped tick arithmetic against absolute time; lists ordered by time |
| Delays.dfy, DelayedTasks.dfy | the two delayed lists, ticks, pended ticks and suspension, against an unbounded clock |
| KernelRuns.dfy | whole runs of delays, releases, ticks, suspensions and jumps of the tick count |
| Timeouts.dfy | timeout checks and periodic delays |
| Timers.dfy, TimerRuns.dfy | the software timer service, and whole runs of it |
| QueueStorage.dfy | the byte ring of a queue as a double-ended queue |
| QueueWakeup.dfy | blocking on a queue, lock counts and wake-ups |
| Mutexes.dfy, MutexRuns.dfy | mutexes and priority inheritance; runs in which a holder ends up below a waiter or an assertion fails |
| StreamBuffer.dfy, StreamSpsc.dfy | stream and message buffers; one writer and one reader interleaved, on bytes and on messages |
| EventGroups.dfy | event groups and the rendezvous |
| ReadyLists.dfy, Turns.dfy | where each task's state item is, selection, and whose turn it is |
| Smp.dfy | selection on several cores |
| Notifications.dfy | direct-to-task notifications |
| Options.dfy | optional values |

## Findings

Some properties one would expect hold only under a condition. In each case the code is modelled
as it is, a lemma names an input or a run that fails, and the exact condition is proved.

- Mutexes: the comment in `xTaskPriorityDisinherit` (FreeRTOS-Kernel/tasks.c:6801-6808) says that
  giving the last mutex should cause a switch "whether a task is waiting on it or not", but
  `xQueueGenericSend` (FreeRTOS-Kernel/queue.c:1040-1062) looks at that result only if nobody
  waits on the mutex. A giver can go on running below a ready task, and if it then takes a
  mutex that is still waited for, its priority stays below a waiter's. `MissedYield` is such a
  run, `MutexProtocol.GiveKeepsTopIff` the exact condition, and
  `MutexProtocol.NoHolderBelowItsWaiters` the guarantee for runs without it.
- Mutexes: suspending the task that a give has woken wakes nobody in its place
  (FreeRTOS-Kernel/tasks.c:3149-3201). The mutex stays free while others wait for it, and a
  task of lower priority that takes it then inherits nothing. `SuspendedCandidate` is such a
  run and `MutexProtocol.SuspendKeepsDonationIff` the exact condition.
- Mutexes: nothing keeps a task from waiting with a timeout for a mutex it holds itself, and the
  assertion in `vTaskPriorityDisinheritAfterTimeout` (FreeRTOS-Kernel/tasks.c:6873-6877) that it
  cannot have inherited its own priority does not hold: if another waiter has lent it a priority
  and gives up first, the assertion fails. `TimeoutOnOwnMutex` is such a run,
  `MutexProtocol.OwnTimeoutAssertFailsIff` the exact condition, which
  `Mutexes.Kernel.DisinheritAfterTimeout` meets on every call.
- Ready lists: an item with k items ahead need not be chosen within k + 1 advances, even if it
  was not at the index at first (`RoundRobin.PlainBoundFails`). `RoundRobin.NextChoosesIff` is
  exact.
- `xTaskCheckForTimeOut` has a blind spot after more than one whole lap
  (`Timeouts.LongWaitsAreMissed`, `Timeouts.CheckExactIffNotAliased`).
- `xTaskDelayUntil` needs the previous wake time not to be in the future
  (`Timeouts.FutureWakeIsNotWaitedFor`, `Timeouts.DelayUntilExactIffPreviousPassed`).
- A timer command handled a whole tick range late may be placed wrongly
  (`TimerPlans.LateCommandMisplaced`, `TimerPlans.LateCommandExactIff`).
- A block time of zero just before the tick count wraps would break the list switch
  (`DelayLists.ZeroBlockAtWrapFails`); at any other time it lasts until the next tick
  (`DelayLists.ZeroBlockHarmlessIffNotAtWrap`). Only the timer daemon can ask for zero ticks,
  and it does so only at tick zero (`TimerStates.WaitFacts`).
- Overwriting a full queue whose items have size zero counts past its length
  (`QueueStorage.OverwriteCountsPastLength`, `QueueStorage.OverwriteBoundedIff`).
- Resetting a queue can leave senders waiting beside free slots
  (`ResetStrandsSender.SenderLeftBesideFreeSlot`, `WakeupProtocol.ResetKeepsWakeUpsIff`).
- Selecting a task for a core when no task at all is ready wraps the recorded top priority below
  zero, and only then (`CoreStates.NobodyReadyReachable`, `Smp.Scheduler.FindTask`); the idle
  tasks rule it out.
- The assertion that a lock count fits its type holds in every run iff there are at most 127
  tasks (`WakeupProtocol.ManyTasksOverflow`, `WakeupProtocol.CountAssertHoldsIff`).

## Assumptions

- A critical section is one step. While the scheduler is suspended only interrupts and the
  suspending task take steps.
- Time, interrupts, block times running out, the choice among equal priorities and the contents
  of messages are parameters of the steps.
- While any timer is linked the timer daemon samples the time less than a tick range after its
  last sample; with none linked any amount of time may pass. A start or reset is handled less
  than a tick range after it was stamped. Callbacks do not change periods.
- In the mutex runs a task woken from a wait list goes on with the take it was blocked in.

## Model

| member | source | states |
|---|---|---|
| Lists.List.constructor | FreeRTOS-Kernel/list.c:49-86 | a new list is an empty ring with the index on the end marker |
| Lists.List.InsertEnd | FreeRTOS-Kernel/list.c:105-136 | the pointer writes turn the ring into the same ring with the item just before the index item; counts, containers and values agree |
| Lists.List.FindInsertionPoint | FreeRTOS-Kernel/list.c:139-199 | the search stops behind every leading value that is not larger, and at the end for the maximum value; it never runs past the end marker |
| Lists.List.Insert | FreeRTOS-Kernel/list.c:139-213 | the ring becomes the sequence with the item at its sorted, stable position; the index keeps pointing at the same item |
| Lists.List.Remove | FreeRTOS-Kernel/list.c:217-247 | the item leaves the ring; an index left on it steps back to its predecessor; the result is the number of items left |
| Lists.List.NextEntry | FreeRTOS-Kernel/include/list.h:286-297 | the next item in rotation order is returned and the end marker is skipped |
| Lists.MoveToEnd | FreeRTOS-Kernel/list.c:105-247 | moving an item from one list to another keeps both rings well formed and separate |
| ListView.InsertEnd | FreeRTOS-Kernel/list.c:105-136 | inserting at the end never moves the index to another item |
| ListView.Remove | FreeRTOS-Kernel/list.c:217-247 | which item the index points at after a removal, in every case |
| ListView.SortedInsertion | FreeRTOS-Kernel/list.c:139-213 | sorted insertion keeps the values ascending, puts the new item behind all equal values, and everything behind it is strictly larger |
| RoundRobin.AheadIsRotationPosition | FreeRTOS-Kernel/include/list.h:286-297 | the number of items ahead of an item is its position in the order in which successive advances reach the items |
| RoundRobin.NextMovesCloser | FreeRTOS-Kernel/include/list.h:286-297 | each advance brings a waiting item one closer, and chooses it exactly when nothing is ahead |
| RoundRobin.ReadyOvertakesOnlyAtIndex | FreeRTOS-Kernel/list.c:105-136 | an item inserted at the end lands behind a given item unless the index points at that item, and only then |
| RoundRobin.UnreadyMovesCloser | FreeRTOS-Kernel/list.c:217-247 | a removal brings an item one closer exactly when the removed item was ahead of it |
| RoundRobin.DistanceBalance | FreeRTOS-Kernel/tasks.c:194-209 | over any run that has not chosen the item, its distance plus advances plus departures from ahead equals its first distance plus overtakes |
| RoundRobin.NextChoosesIff | FreeRTOS-Kernel/tasks.c:194-209 | after such a run the next advance chooses the item iff advances plus departures equal items ahead plus overtakes |
| RoundRobin.BoundedBypass | FreeRTOS-Kernel/tasks.c:194-209 | an item with k items ahead is chosen within k + 1 advances, plus one for every insertion made while the index pointed at it |
| RoundRobin.PlainBoundFails | FreeRTOS-Kernel/list.c:105-136 | a run in which k + 1 advances do not choose an item that did not start at the index: removing the index item moves the index onto it, and later insertions overtake it |
| TickMath.WrapIsModular | FreeRTOS-Kernel/tasks.c:8623-8628 | the wrapped sum and difference used for tick counts are those modulo the tick range and undo each other |
| TickMath.InstantsOrdered | FreeRTOS-Kernel/tasks.c:8623-8651 | how absolute times compare in terms of overflow count and tick |
| TimedLists.InsertFacts | FreeRTOS-Kernel/list.c:139-213 | inserting keeps a timed list ordered by time and adds exactly the new owner |
| TimedLists.WithoutFacts | FreeRTOS-Kernel/list.c:217-247 | removing an owner keeps the list ordered and removes exactly that owner |
| Clocks.TicksClosedForm | FreeRTOS-Kernel/tasks.c:4725-4856 | n ticks of the unbounded clock wake exactly the tasks due by then |
| Clocks.SleepersAreThePendingDeadlines | FreeRTOS-Kernel/tasks.c:4725-4856 | after any run of blocks, early wakes, suspensions and ticks a task sleeps iff the last block in its history was not ended early and its absolute deadline is still ahead |
| KernelSteps.TimeIsConserved | FreeRTOS-Kernel/tasks.c:4097-4125 | after any run of delays, releases, ticks, jumps, and suspensions and resumptions of tasks and the scheduler, clock time plus pended ticks equals the start plus every tick there has been, less a tick range for each time the count of pended ticks wrapped |
| KernelSteps.SleepersHaveDeadlinesAhead | FreeRTOS-Kernel/tasks.c:4011-4157 | after any such run a task sleeps iff the last delay in its history was not ended early, by a release or a suspension, and its deadline is ahead of the clock; a delay of no ticks lasts until the next tick |
| KernelSteps.EveryRunTellsItsStory | FreeRTOS-Kernel/tasks.c:4011-4157 | after any run each task is awake, asleep until its time, or parked, and the clock, the pended ticks and the nesting stand, exactly as the history of the calls tells |
| KernelSteps.ParkedOrAwake | FreeRTOS-Kernel/tasks.c:5394-5445 | a task is parked iff the last step that decided about it was an indefinite delay that took effect or a suspension, and awake iff it is neither parked nor asleep |
| DelayLists.BlockOnCurrentList | FreeRTOS-Kernel/tasks.c:8623-8651 | a wake time that does not wrap on the current list is the absolute deadline now + ticks, also for zero ticks unless the tick count is about to wrap, and the cached unblock time stays a lower bound |
| DelayLists.BlockOnOverflowList | FreeRTOS-Kernel/tasks.c:8628-8634 | a wake time that wraps on the overflow list is the absolute deadline now + ticks |
| DelayLists.EmptyAtWrap | FreeRTOS-Kernel/tasks.c:264-276 | once everything due has been woken the current delayed list is empty if the tick count is about to wrap, so the assertion of the list switch holds |
| DelayLists.ZeroBlockHarmlessIffNotAtWrap | FreeRTOS-Kernel/tasks.c:8579-8651 | a block time of zero keeps the whole invariant, and the next tick wakes the task, exactly when the tick count is not about to wrap; otherwise the switch assertion fails and the task sleeps two more tick ranges |
| DelayLists.ZeroBlockAtWrapFails | FreeRTOS-Kernel/tasks.c:8579-8651 | a sound state in which a block time of zero makes the switch assertion fail and the task sleeps two tick ranges |
| DelayLists.IncrementedFacts | FreeRTOS-Kernel/tasks.c:4746-4759 | incrementing the tick count and switching the lists at the wrap moves the clock on by one and changes no deadline |
| DelayLists.WokenAllIsTick | FreeRTOS-Kernel/tasks.c:4764-4856 | waking tasks that are due until nobody is overdue is one tick of the clock |
| DelayLists.QuietJump | FreeRTOS-Kernel/tasks.c:4559-4596 | a jump of the tick count short of the next unblock time equals that many ticks |
| DelayLists.StopFacts | FreeRTOS-Kernel/tasks.c:3149-3201 | moving a task to the suspended list keeps the invariant and changes no other deadline |
| DelayedTasks.Kernel.constructor | FreeRTOS-Kernel/tasks.c:6067-6103 | the kernel starts with nobody asleep |
| DelayedTasks.Kernel.AddCurrentTaskToDelayedList | FreeRTOS-Kernel/tasks.c:8579-8653 | blocking sets the absolute deadline now + ticks on the clock, also for zero ticks; only zero ticks with the tick count about to wrap leave the state in which the switch assertion fails; blocking indefinitely parks the task; a task already released by an interrupt is not asleep |
| DelayedTasks.Kernel.ResetNextTaskUnblockTime | FreeRTOS-Kernel/tasks.c:6515-6533 | the cached unblock time becomes the earliest wake time of the current list and nothing changes on the clock |
| DelayedTasks.Kernel.Release | FreeRTOS-Kernel/tasks.c:5394-5445 | releasing a blocked task, with or without a timeout, wakes it on the clock at once: it is on a ready list, or held pending while the scheduler is suspended; with or without tickless idle |
| DelayedTasks.Kernel.ReleaseDirectly | FreeRTOS-Kernel/tasks.c:5487-5556 | releasing a task from task level under scheduler suspension makes it ready and wakes it on the clock |
| DelayedTasks.Kernel.Suspend | FreeRTOS-Kernel/tasks.c:3149-3201 | a suspended task is on the suspended list and no other, also not held pending, and is parked on the clock |
| DelayedTasks.Kernel.Resume | FreeRTOS-Kernel/tasks.c:3382-3420 | a resumed task is ready and awake on the clock |
| DelayedTasks.Kernel.AdvanceTickCount | FreeRTOS-Kernel/tasks.c:4746-4759 | the clock moves on by one; the list switch finds an empty current list |
| DelayedTasks.Kernel.UnblockDueTasks | FreeRTOS-Kernel/tasks.c:4764-4856 | the unblocking loop completes exactly one tick of the clock and leaves the cached unblock time right |
| DelayedTasks.Kernel.IncrementTick | FreeRTOS-Kernel/tasks.c:4725-4972 | one tick of the clock if the scheduler runs, otherwise one more pended tick and no change on the clock |
| DelayedTasks.Kernel.SuspendAll | FreeRTOS-Kernel/tasks.c:3837-3890 | suspension nests and changes nothing on the clock |
| DelayedTasks.Kernel.ResumeAll | FreeRTOS-Kernel/tasks.c:4011-4157 | the last resume replays the pended ticks: the clock moves by exactly that many ticks |
| DelayedTasks.Kernel.MovePendingReadyTasks | FreeRTOS-Kernel/tasks.c:4044-4086 | moving the pending-ready tasks to their ready lists changes nothing on the clock |
| DelayedTasks.Kernel.ReplayPendedTicks | FreeRTOS-Kernel/tasks.c:4097-4125 | replaying n pended ticks equals n single ticks |
| DelayedTasks.Kernel.StepTick | FreeRTOS-Kernel/tasks.c:4559-4596 | stepping up to the next unblock time, together with the pended ticks, stands for exactly that many more ticks, so resuming completes them; only a step right up to that time needs the scheduler suspended |
| DelayedTasks.Kernel.CatchUpTicks | FreeRTOS-Kernel/tasks.c:4601-4626 | catching up n ticks is n ticks of the clock |
| Timeouts.TimeOut.Check | FreeRTOS-Kernel/tasks.c:5587-5653 | for a finite wait that was not aborted: a timeout iff the whole time has elapsed in absolute time, else exactly what is left remains and the wait goes on from now, except in the blind spot, where whole laps are overlooked |
| Timeouts.CheckExactIffNotAliased | FreeRTOS-Kernel/tasks.c:5587-5653 | one check agrees with absolute time iff it is not in the blind spot: more than a lap has passed and the overflow count or the tick looks as if it had not |
| Timeouts.LongWaitsAreMissed | FreeRTOS-Kernel/tasks.c:5587-5653 | two overdue waits, of four laps and of two overflows, that the check does not report |
| Timeouts.RepeatedChecksExact | FreeRTOS-Kernel/tasks.c:5587-5653 | over any number of checks with at most one overflow between two, a timeout is reported iff the whole time has elapsed, and otherwise exactly what is left remains |
| Timeouts.DelayUntil | FreeRTOS-Kernel/tasks.c:2377-2428 | within one tick range of the previous wake time the method delays until one increment after it, in absolute time, iff that wake time is not in the future; the reference moves on by the increment |
| Timeouts.DelayUntilExactIffPreviousPassed | FreeRTOS-Kernel/tasks.c:2377-2428 | within one tick range of the previous wake time the delay is right in absolute time iff that wake time is not in the future |
| Timeouts.FutureWakeIsNotWaitedFor | FreeRTOS-Kernel/tasks.c:2377-2428 | with a previous wake time in the future a task that should delay for six ticks does not delay |
| Timeouts.NoDrift | FreeRTOS-Kernel/tasks.c:2377-2428 | the i-th of a series of prompt calls delays until exactly previous + (i + 1) * increment, whatever happened before |
| TimerPlans.PlacementExact | FreeRTOS-Kernel/timers.c:890-931 | for a command handled less than a tick range after issue: process now iff the absolute expiry has passed, otherwise the list of the expiry's epoch |
| TimerPlans.LateCommandExactIff | FreeRTOS-Kernel/timers.c:890-931 | however late the command: process now iff the wrapped delay is at least the period, which is right iff the delay is below a tick range or its wrapped value reaches the period |
| TimerPlans.LateCommandMisplaced | FreeRTOS-Kernel/timers.c:890-931 | a command handled more than a tick range late whose expired timer is linked as if it were still to expire |
| TimerPlans.BacklogIsQuotient | FreeRTOS-Kernel/timers.c:695-711 | the number of whole periods counted one by one is the integer quotient |
| TimerPlans.BacklogOnGrid | FreeRTOS-Kernel/timers.c:695-711 | the grid point a time has reached tells how many periods have passed |
| TimerStates.CallsMatchElapsedPeriods | FreeRTOS-Kernel/timers.c:695-741 | a timer that is not yet due has been called exactly floor((now - started) / period) times |
| TimerStates.SleepingDaemonOwesNoCalls | FreeRTOS-Kernel/timers.c:778-837 | whenever the daemon goes to sleep every active timer has been called exactly once per whole period since its start, and the sleep is bounded if any timer is active |
| TimerStates.WaitFacts | FreeRTOS-Kernel/timers.c:803-816 | the daemon never sleeps past an expiry or a wrap; it asks for zero ticks only at tick zero with an empty current list |
| TimerStates.SwitchAfterDraining | FreeRTOS-Kernel/timers.c:1089-1111 | after draining the current list the switch leaves every timer active iff linked and due on its grid |
| TimerStates.IdleInAnyEpoch | FreeRTOS-Kernel/timers.c:867-887 | while no timer is linked the service is right in whatever epoch it finds itself, switched or not |
| TimerRuns.EveryRunOnTime | FreeRTOS-Kernel/timers.c:744-774 | in every run of turns and commands a timer is flagged active iff it is linked at each boundary, and whenever the daemon sleeps each active timer has been called once for every whole period since it was started |
| TimerRuns.CommandsDecide | FreeRTOS-Kernel/timers.c:997-1076 | in every run a timer has the period last set and runs from the time its last start was issued; a stopped one is inactive and makes no calls until started again, a one-shot timer is active until its one call |
| TimerRuns.HandledIsSound | FreeRTOS-Kernel/timers.c:714-741 | the calls and the new expiry that handling an expiry leaves put the timer back on its grid |
| TimerRuns.OutcomeIsSound | FreeRTOS-Kernel/timers.c:997-1076 | whatever the command, what it leaves of its timer is active iff linked and on its grid |
| Timers.TimerService.InsertTimerInActiveList | FreeRTOS-Kernel/timers.c:890-931 | the branches of the source decide the specified placement and link accordingly |
| Timers.TimerService.ReloadTimer | FreeRTOS-Kernel/timers.c:695-711 | the loop terminates; the timer has been called for every grid point up to now and is linked for the first one after now, on the list of its epoch |
| Timers.TimerService.ProcessExpiredTimer | FreeRTOS-Kernel/timers.c:714-741 | an expiry at X handled at N gives floor((N - X) / P) + 1 calls of an auto-reload timer, one call and deactivation of a one-shot timer; no other timer changes |
| Timers.TimerService.SwitchTimerLists | FreeRTOS-Kernel/timers.c:1089-1111 | every timer of the old current list is handled up to the last tick of its epoch, the loop ends in as many turns as the list had timers, the new overflow list is empty |
| Timers.TimerService.SampleTimeNow | FreeRTOS-Kernel/timers.c:867-887 | sampled less than a tick range after the last sample, or with no timer linked however late, the lists are right for the present epoch: switched iff the epoch has changed, or empty |
| Timers.TimerService.StartTimer | FreeRTOS-Kernel/timers.c:997-1026 | a start stamped C handled at N gives floor((N - C) / P) calls and the next expiry is the first C + kP after N; a late one-shot timer fires once and is inactive |
| Timers.TimerService.ChangeTimerPeriod | FreeRTOS-Kernel/timers.c:1034-1047 | the new period counts from now and its first expiry is always ahead |
| Timers.TimerService.UnlinkAndSample | FreeRTOS-Kernel/timers.c:973-995 | the commanded timer is off its list before a switch can expire it; other timers change only through the switch; with no other timer linked any amount of time may have passed |
| Timers.TimerService.ProcessCommand | FreeRTOS-Kernel/timers.c:934-1086 | after any command, also one after an idle sleep of any length, a timer is active iff linked and due on its grid, and what changed is the step of the runs: the command has its specified outcome, and other timers change only if the lists were switched |
| Timers.TimerService.ProcessTimerOrBlock | FreeRTOS-Kernel/timers.c:778-837 | one turn is the step of the runs: it handles the earliest expiry, switches the lists, or sleeps a right amount with no timer due; with no timer linked it may come any amount of time after the last |
| QueueStorage.SendBackAppends | FreeRTOS-Kernel/queue.c:2421-2434 | write position = read position + 1 + count modulo length is kept and the item is appended |
| QueueStorage.SendFrontPrepends | FreeRTOS-Kernel/queue.c:2435-2447 | a send to the front prepends the item |
| QueueStorage.ReceiveDropsFirst | FreeRTOS-Kernel/queue.c:1537-1542 | a receive removes the oldest item |
| QueueStorage.OverwriteReplaces | FreeRTOS-Kernel/queue.c:2449-2463 | on a queue of one slot overwriting leaves exactly the new item, unless items have no size and there is one already |
| QueueStorage.OverwriteKeepsPositionsIff | FreeRTOS-Kernel/queue.c:955-955 | overwriting keeps the position invariant iff the length is one or the queue is empty, which is what the source asserts |
| QueueStorage.OverwriteBoundedIff | FreeRTOS-Kernel/queue.c:2402-2470 | overwriting stays within the length iff items have a size or there is room: overwriting a full semaphore counts past its length |
| QueueStorage.OverwriteCountsPastLength | FreeRTOS-Kernel/queue.c:2402-2470 | a new binary semaphore given twice by overwriting counts two |
| QueueStorage.Queue.CopyDataToQueue | FreeRTOS-Kernel/queue.c:2393-2473 | the byte copies and pointer updates implement send to back, to front and overwrite on the slots |
| QueueStorage.Queue.CopyDataFromQueue | FreeRTOS-Kernel/queue.c:2476-2494 | the item returned is the one after the read position, which moves on with wrap-around |
| QueueStorage.Queue.TrySend | FreeRTOS-Kernel/queue.c:964-1036 | a send succeeds iff there is room or it overwrites; the contents become push-back, push-front or the single new item; the invariant is left iff a full queue of items without size is overwritten |
| QueueStorage.Queue.TryReceive | FreeRTOS-Kernel/queue.c:1533-1542 | the oldest item is returned and removed, or nothing changes on an empty queue |
| QueueStorage.Queue.TryPeek | FreeRTOS-Kernel/queue.c:1909-1924 | the oldest item is returned and the contents are unchanged |
| QueueStorage.Queue.Reset | FreeRTOS-Kernel/queue.c:318-326 | a reset empties the queue and restores the position invariant |
| WakeupProtocol.NoWakeUpLost | FreeRTOS-Kernel/queue.c:962-1329 | in every interleaving of sends, receives, peeks, interrupts, timeouts and lock steps: a receiver still waiting means messages <= woken receivers + posts while locked; the same for senders and free slots; in every phase a lock count is the number of events while locked capped at the number of tasks |
| WakeupProtocol.QuietQueueKeepsNobodyWaiting | FreeRTOS-Kernel/queue.c:962-1157 | once unlocked and every woken task has retried, nobody waits to receive beside a message or to send beside a free slot, and only one wait list is in use |
| WakeupProtocol.MessagesConserved | FreeRTOS-Kernel/queue.c:962-1329 | in every run the messages waiting are those sent with room less those received, by tasks and interrupts, locked or not, as counted from the history alone |
| WakeupProtocol.ReceiversServedInOrder | FreeRTOS-Kernel/queue.c:1038-1066 | each step wakes exactly the receivers it has a message for, the first in line, and leaves the others in order; unlocking serves as many as were posted while locked |
| WakeupProtocol.SendersServedInOrder | FreeRTOS-Kernel/queue.c:1545-1562 | the same for senders and free slots |
| WakeupProtocol.Joins | FreeRTOS-Kernel/queue.c:1609-1613 | joining a wait list changes that list by one task at its place and nothing else |
| WakeupProtocol.TimesOut | FreeRTOS-Kernel/tasks.c:4764-4856 | a task whose block time ends leaves its wait list, which keeps its order; nothing else changes |
| WakeupProtocol.BlocksIffItMust | FreeRTOS-Kernel/queue.c:1580-1645 | a task that has locked the queue goes on to block iff it is empty, or full for a sender |
| WakeupProtocol.CapWakesTheSame | FreeRTOS-Kernel/queue.c:277-300 | replaying the count capped at the number of tasks wakes exactly the tasks an uncapped count would |
| WakeupProtocol.CountAssertHoldsIff | FreeRTOS-Kernel/queue.c:277-300 | in every run from a fresh queue the assertion that a lock count is below 127 before it grows holds at each interrupt iff there are at most 127 tasks |
| WakeupProtocol.ManyTasksOverflow | FreeRTOS-Kernel/queue.c:277-300 | with more tasks, locking the queue and 127 sends and receives of interrupts make the next send fail the assertion |
| WakeupProtocol.ResetKeepsWakeUpsIff | FreeRTOS-Kernel/queue.c:327-344 | a reset keeps the no-lost-wake-up invariant iff at most one sender waits or the woken senders can fill the queue |
| ResetStrandsSender.SenderLeftBesideFreeSlot | FreeRTOS-Kernel/queue.c:327-344 | a run from a fresh queue after which a reset leaves a task waiting to send beside a free slot, with nobody left to wake it |
| WakeupProtocol.TaskPeekSound | FreeRTOS-Kernel/queue.c:1913-1939 | a peeking task leaves the message and passes the wake-up on |
| WakeupProtocol.TaskSendSound | FreeRTOS-Kernel/queue.c:964-1075 | a task's send keeps the invariant |
| WakeupProtocol.TaskReceiveSound | FreeRTOS-Kernel/queue.c:1533-1568 | a task's receive keeps the invariant |
| WakeupProtocol.IsrSendSound | FreeRTOS-Kernel/queue.c:1199-1323 | an interrupt's send keeps the invariant whether the queue is locked, half unlocked or unlocked |
| WakeupProtocol.IsrReceiveSound | FreeRTOS-Kernel/queue.c:2070-2129 | an interrupt's receive keeps the invariant |
| WakeupProtocol.PlaceSound | FreeRTOS-Kernel/queue.c:1609-1613 | joining a wait list after having seen the queue empty or full keeps the invariant, whatever interrupts did since |
| WakeupProtocol.UnlockTxSound | FreeRTOS-Kernel/queue.c:2505-2583 | replaying the transmit count keeps the invariant |
| WakeupProtocol.UnlockRxSound | FreeRTOS-Kernel/queue.c:2586-2613 | replaying the receive count keeps the invariant |
| QueueWakeup.Queue.TrySend | FreeRTOS-Kernel/queue.c:964-1075 | a send adds a message iff there is room, wakes the first waiting receiver iff it succeeds, and is the protocol's send step |
| QueueWakeup.Queue.TryReceive | FreeRTOS-Kernel/queue.c:1531-1568 | a receive takes a message iff there is one, wakes the first waiting sender iff it does, and is the protocol's receive step |
| QueueWakeup.Queue.TryPeek | FreeRTOS-Kernel/queue.c:1907-1950 | a peek leaves the messages, wakes the next receiver iff there is one, and is the protocol's peek step |
| QueueWakeup.Queue.SendFromISR | FreeRTOS-Kernel/queue.c:1199-1323 | an interrupt's send adds a message iff there is room, wakes a receiver only if the queue is not locked, is the protocol's step, and its count assertion never fails with at most 127 tasks |
| QueueWakeup.Queue.ReceiveFromISR | FreeRTOS-Kernel/queue.c:2070-2129 | an interrupt's receive takes a message iff there is one, wakes a sender only if the queue is not locked, is the protocol's step, and its count assertion never fails with at most 127 tasks |
| QueueWakeup.Queue.LockQueue | FreeRTOS-Kernel/queue.c:258-270 | locking starts both counts at zero |
| QueueWakeup.Queue.PlaceOnEventList | FreeRTOS-Kernel/queue.c:1611-1612 | the blocking task joins the right wait list at its place |
| QueueWakeup.Queue.UnlockTransmit | FreeRTOS-Kernel/queue.c:2505-2583 | the loop wakes the first receivers, as many as were counted or all of them, and unlocks |
| QueueWakeup.Queue.UnlockReceive | FreeRTOS-Kernel/queue.c:2586-2613 | the loop wakes the first senders, as many as were counted or all of them, and unlocks |
| MutexProtocol.StepKeepsAccounts | FreeRTOS-Kernel/tasks.c:6639-6949 | every step, also waiting for a mutex the task holds itself, keeps: a mutex has a holder iff its count is zero, tasks count the mutexes they hold, priority >= base, and a task holding nothing runs at its base priority |
| MutexProtocol.AccountsInEveryRun | FreeRTOS-Kernel/queue.c:1682-1876 | the same in every run of takes, blocks, gives, timeouts, priority changes and suspensions, with no restriction on which mutex a task waits for |
| MutexProtocol.PrioritySetAccounts | FreeRTOS-Kernel/tasks.c:2899-2917 | changing a base priority keeps the accounts, inherited or not |
| MutexProtocol.AfterTimeoutAccounts | FreeRTOS-Kernel/tasks.c:6845-6947 | disinheriting after a timeout keeps the accounts |
| MutexProtocol.TimeoutGivesBack | FreeRTOS-Kernel/tasks.c:6856-6886 | a timeout gives back what was lent and no more: a holder of only this mutex ends exactly at the least priority that covers its base and every task still waiting, a holder of more keeps its priority |
| MutexProtocol.TakeChanges | FreeRTOS-Kernel/queue.c:1692-1713 | a take obtains the mutex iff it is free, counts it for the taker, and changes nothing else |
| MutexProtocol.BlockChanges | FreeRTOS-Kernel/queue.c:1781-1812 | a blocking task lends the holder its priority, and joins the list behind everyone at its level or above and before all others |
| MutexProtocol.GiveChanges | FreeRTOS-Kernel/queue.c:2404-2419 | a give frees the mutex, wakes its first waiter, and brings the giver to its base iff it was its only mutex |
| MutexProtocol.TimeOutChanges | FreeRTOS-Kernel/tasks.c:4764-4856 | a task whose block time ends leaves its list, which keeps its order, and runs at once iff it is above the running task |
| MutexProtocol.PrioritySetChanges | FreeRTOS-Kernel/tasks.c:2821-2957 | the base becomes the priority set, the effective one follows unless inherited and higher, and when a switch is asked for |
| MutexProtocol.PrioritySetKeepsTop | FreeRTOS-Kernel/tasks.c:2830-2896 | whenever no switch is asked for the running task is still a top-priority ready task |
| MutexProtocol.SuspendChanges | FreeRTOS-Kernel/tasks.c:3149-3201 | a suspended task is neither ready nor woken nor on the list it waited on, which keeps its order |
| MutexProtocol.OwnTimeoutAssertFailsIff | FreeRTOS-Kernel/tasks.c:6870-6877 | a task that times out on its own, only mutex fails the assertion iff it runs above its base with no waiter at its level any more, or the first waiter is above it |
| TimeoutOnOwnMutex.AssertionFails | FreeRTOS-Kernel/tasks.c:6873-6877 | a run from unused mutexes in which a task times out on a mutex it holds itself and the assertion fails |
| MutexProtocol.GiveKeepsTopIff | FreeRTOS-Kernel/queue.c:1036-1066 | after a give the running task is a top-priority ready task iff no yield was missed: the giver did not drop its priority below a ready task while the first waiter was no higher than its new priority |
| MutexProtocol.BlockDonated | FreeRTOS-Kernel/queue.c:1781-1812 | blocking on a mutex lends the holder the blocker's priority and keeps every holder above its waiters |
| MutexProtocol.TakeDonated | FreeRTOS-Kernel/queue.c:1692-1713 | taking a free mutex that is still waited for keeps the taker above the waiters |
| MutexProtocol.GiveDonated | FreeRTOS-Kernel/queue.c:2404-2419 | a give that misses no yield keeps every holder above its waiters and leaves a candidate for the rest of the wait list |
| MutexProtocol.AfterTimeoutDonated | FreeRTOS-Kernel/tasks.c:6845-6947 | after a timeout the holder's priority falls no further than to the first task still waiting |
| MutexProtocol.NoHolderBelowItsWaiters | FreeRTOS-Kernel/queue.c:1682-1876 | in every restricted run, suspensions included, without a missed yield and without suspending the only task woken for a free mutex, each holder's priority is at least that of every waiter on its mutexes |
| MissedYield.HolderEndsBelowAWaiter | FreeRTOS-Kernel/queue.c:1040-1062 | a run, within the restrictions except for one missed yield, that ends with a holder of priority 1 and a waiter of priority 4 on its mutex |
| MutexProtocol.SuspendKeepsDonationIff | FreeRTOS-Kernel/tasks.c:3149-3201 | suspending a task keeps holders above waiters and a candidate for each free mutex still waited for, iff the task is not the only candidate of one |
| SuspendedCandidate.HolderEndsBelowAWaiter | FreeRTOS-Kernel/tasks.c:3149-3201 | a run from unused mutexes, with the woken task suspended, that ends with a holder of priority 1 and a waiter of priority 4 on its mutex |
| MutexProtocol.FreshIsDonated | FreeRTOS-Kernel/queue.c:607-635 | a kernel whose mutexes have not been used satisfies what the runs keep |
| Mutexes.Kernel.PriorityInherit | FreeRTOS-Kernel/tasks.c:6639-6735 | the holder ends at least at the caller's priority; inheritance is reported iff its base priority is below the caller's |
| Mutexes.Kernel.PriorityDisinherit | FreeRTOS-Kernel/tasks.c:6742-6829 | priority is dropped to base iff it was inherited and the last mutex is given, and exactly then a switch is asked for |
| Mutexes.Kernel.DisinheritAfterTimeout | FreeRTOS-Kernel/tasks.c:6836-6949 | a holder of just this mutex ends exactly at the least priority that covers its base and its waiters, its base if there are none, and a holder of more is unchanged; the assertion holds iff the holder is another task, holds more, or is at that priority already |
| Mutexes.Kernel.PrioritySet | FreeRTOS-Kernel/tasks.c:2821-3001 | the new base and effective priority, and when a switch is asked for |
| Mutexes.Kernel.TryTake | FreeRTOS-Kernel/queue.c:1684-1713 | a mutex is taken iff it has no holder |
| Mutexes.Kernel.Give | FreeRTOS-Kernel/queue.c:964-1075 | giving a held mutex frees it and wakes the first waiter, giving a free one fails; when the call asks for a switch |
| Mutexes.Kernel.TakeRecursive | FreeRTOS-Kernel/queue.c:818-858 | a recursive take succeeds iff the mutex is free or the caller's own, and counts the call; otherwise it is refused or has to wait according to the block time |
| Mutexes.Kernel.GiveRecursive | FreeRTOS-Kernel/queue.c:759-811 | only the holder can give, and the mutex is freed exactly by the give that matches its first take |
| ByteRing.WriteUncommitted | FreeRTOS-Kernel/stream_buffer.c:1476-1519 | bytes written behind the head change nothing observable until the head moves |
| ByteRing.WriteCommitted | FreeRTOS-Kernel/stream_buffer.c:1476-1519 | moving the head over written bytes appends them |
| ByteRing.ReadCommitted | FreeRTOS-Kernel/stream_buffer.c:1522-1563 | moving the tail drops exactly the bytes read |
| ByteRing.WrittenTwice | FreeRTOS-Kernel/stream_buffer.c:1024-1046 | writing header and data one after the other is one write of both |
| Framing.LengthSurvivesIff | FreeRTOS-Kernel/stream_buffer.c:1013-1017 | a message length survives the length field iff it fits it |
| Framing.FirstFrame | FreeRTOS-Kernel/stream_buffer.c:1285-1324 | the first header of a stream of frames gives the first message, and the rest are the other frames |
| Framing.FramesUnique | FreeRTOS-Kernel/stream_buffer.c:1285-1324 | two lists of messages with the same frame bytes are the same list |
| StreamBuffers.StreamBuffer.BytesInBuffer | FreeRTOS-Kernel/stream_buffer.c:1566-1584 | the wrapped distance is the number of bytes held |
| StreamBuffers.StreamBuffer.SpacesAvailable | FreeRTOS-Kernel/stream_buffer.c:754-788 | the space reported and the bytes held add up to length - 1 |
| StreamBuffers.StreamBuffer.WriteBytes | FreeRTOS-Kernel/stream_buffer.c:1476-1519 | the two copies lay the data over the ring from the given position on |
| StreamBuffers.StreamBuffer.ReadBytes | FreeRTOS-Kernel/stream_buffer.c:1522-1563 | the two copies return the bytes of the ring from the given position on |
| StreamBuffers.StreamBuffer.WriteStream | FreeRTOS-Kernel/stream_buffer.c:1032-1049 | as many bytes as fit are appended |
| StreamBuffers.StreamBuffer.ReadStream | FreeRTOS-Kernel/stream_buffer.c:1308-1327 | as many bytes as asked for and held are returned and removed |
| StreamBuffers.StreamBuffer.WriteMessage | FreeRTOS-Kernel/stream_buffer.c:1009-1049 | a message that fits is appended whole; lack of space or a zero length changes nothing observable |
| StreamBuffers.StreamBuffer.ReceiveMessage | FreeRTOS-Kernel/stream_buffer.c:1240-1327 | the oldest message comes out whole, or nothing changes if the caller's buffer is too small or there is none |
| StreamBuffers.StreamBuffer.NextMessageLength | FreeRTOS-Kernel/stream_buffer.c:1169-1210 | the length of the oldest message, or zero; its assertion holds |
| StreamSpsc.ReceivedIsPrefixOfSent | FreeRTOS-Kernel/stream_buffer.c:767-779 | under every interleaving of single loads, byte copies and index stores the bytes received are a prefix of those sent, with at most length - 1 in between |
| StreamSpsc.CopyMissesUnread | FreeRTOS-Kernel/stream_buffer.c:1476-1519 | no byte the writer copies lands on an unread byte |
| StreamSpsc.SpaceSeenIsSpace | FreeRTOS-Kernel/stream_buffer.c:770-779 | the wrapped subtraction gives the free space at the moment of the load |
| StreamSpsc.StepSound | FreeRTOS-Kernel/stream_buffer.c:1000-1050 | every step keeps: a sampled space or count is never more than the truth, and copied bytes are in place |
| StreamSpsc.SendTakesWhatFits | FreeRTOS-Kernel/stream_buffer.c:1032-1049 | a send takes all its data if it fits, otherwise as much as fits, or nothing if it must go whole |
| StreamSpsc.SamplingRetries | FreeRTOS-Kernel/stream_buffer.c:767-779 | the space is the free space at the load, and is sampled again if the tail has moved |
| StreamSpsc.StoresMoveBytes | FreeRTOS-Kernel/stream_buffer.c:1046-1046 | storing the head sends the whole chunk, storing the tail receives every byte copied, and no other step sends or receives anything |
| MessageSpsc.DeliveredArePrefixOfPosted | FreeRTOS-Kernel/stream_buffer.c:1009-1049 | under every interleaving of the steps of one sender and one receiver of messages, the messages delivered are a prefix of those posted, each whole |
| MessageSpsc.LoadHeadSeesFrame | FreeRTOS-Kernel/stream_buffer.c:1240-1327 | a reader that sees any bytes sees at least the whole next frame |
| MessageSpsc.TakesFirstFrame | FreeRTOS-Kernel/stream_buffer.c:1285-1324 | a receive that goes by the header takes exactly the next message |
| EventBits.PackingRoundTrip | FreeRTOS-Kernel/event_groups.c:394-394 | user bits and control bits in an item value can be taken apart again, and a request never looks like a delivery |
| EventBits.DeliveryRoundTrip | FreeRTOS-Kernel/event_groups.c:626-626 | a delivered value carries the bits and the mark that they were set |
| EventGroupStates.SetFacts | FreeRTOS-Kernel/event_groups.c:567-641 | a set wakes exactly the waiters satisfied by old bits with new, delivers that value to each, and clears exactly what the satisfied clear-on-exit waiters asked for |
| EventGroupStates.SetUnblocks | FreeRTOS-Kernel/event_groups.c:567-612 | a waiter for any leaves iff one of its bits is among the old or new ones, a waiter for all iff none of its bits is missing; nobody joins |
| EventGroupStates.SetLeaves | FreeRTOS-Kernel/event_groups.c:596-633 | a bit stays iff it was set and no unblocked waiter asked for it to be cleared; each unblocked task gets all the bits there were, and nobody else gets any |
| EventGroupStates.WaitChanges | FreeRTOS-Kernel/event_groups.c:336-398 | a wait for any of its bits goes on iff one is set, a wait for all iff all are; it clears its bits if asked to, and otherwise joins the list if it may block |
| EventGroupStates.SyncChanges | FreeRTOS-Kernel/event_groups.c:205-247 | a rendezvous goes on iff none of the bits waited for is missing, and then just those are cleared; an incomplete one leaves the bits as set and joins the list if it may block |
| EventGroupStates.OtherChanges | FreeRTOS-Kernel/event_groups.c:472-501 | clearing takes away just the given bits, a timeout just the task's wait, and giving up clears the bits iff they have come after all |
| EventGroupStates.SetIgnoresOrder | FreeRTOS-Kernel/event_groups.c:577-633 | the order of the wait list does not matter |
| EventGroupStates.RunQuiet | FreeRTOS-Kernel/event_groups.c:185-647 | in every reachable state no blocked waiter's condition holds of the current bits |
| EventGroupStates.BlockedForAReason | FreeRTOS-Kernel/event_groups.c:778-812 | in every run a blocked waiter for any sees none of its bits set, and a blocked waiter for all misses one |
| EventGroupStates.SyncQuiet | FreeRTOS-Kernel/event_groups.c:205-247 | setting and waiting in one call leaves nobody blocked on bits that are set |
| EventGroups.EventGroup.SetBits | FreeRTOS-Kernel/event_groups.c:547-647 | the list-walking loop computes the specified set, leaves the group quiet, and unblocks exactly the waiters for any with one of their bits set and the waiters for all with none missing |
| EventGroups.EventGroup.ClearBits | FreeRTOS-Kernel/event_groups.c:472-501 | the bits as they were are returned and the group stays quiet |
| EventGroups.EventGroup.WaitBits | FreeRTOS-Kernel/event_groups.c:336-404 | the task blocks iff it may and none of the bits it waits for any of is set, or one it waits for all of is missing; otherwise it returns the current bits and clears on request |
| EventGroups.EventGroup.Sync | FreeRTOS-Kernel/event_groups.c:205-248 | a completed rendezvous returns all bits and clears them, an incomplete one blocks or returns |
| EventGroups.EventGroup.Resume | FreeRTOS-Kernel/event_groups.c:406-459 | an unblocked task returns the bits stored for it; a timed-out one the current bits, cleared if they have come to meet its condition |
| Rendezvous.ReusableBarrier | FreeRTOS-Kernel/event_groups.c:185-309 | no task's k-th call returns before all have made their k-th call, every result contains all bits, and with nobody waiting the bits are clear |
| Rendezvous.ArriveLast | FreeRTOS-Kernel/event_groups.c:211-221 | the last arrival releases everybody with all the bits, which are then clear |
| Rendezvous.ArriveAndWait | FreeRTOS-Kernel/event_groups.c:222-238 | any other arrival blocks and releases nobody |
| StateItems.EveryRunSound | FreeRTOS-Kernel/tasks.c:284-290 | in every run each live task is on exactly one list, ready tasks on the list of their priority and none above the recorded top; with a task ready, selection finds one that no ready task outranks |
| StateItems.EveryRunPlaces | FreeRTOS-Kernel/tasks.c:3149-3185 | after any run each task is on the list, with the priority, that the history of blocks, readyings, suspensions, priority changes and deletions says |
| ReadyTurns.ReadyTaskGetsItsTurn | FreeRTOS-Kernel/tasks.c:194-209 | a ready task with k others ahead of it on its list is selected within k + 1 selections from that list, plus one for each task readied while the index stood at it, whatever else the kernel does |
| ReadyTurns.RunFollows | FreeRTOS-Kernel/tasks.c:194-209 | over any run a ready list is what advances, insertions at the end and removals make of it, and they choose a task iff the scheduler selects it |
| StateItems.SelectionFindsIff | FreeRTOS-Kernel/tasks.c:195-203 | the assertion in the selection loop holds iff some task is ready |
| StateItems.SelectionIsHighest | FreeRTOS-Kernel/tasks.c:194-209 | the selected task is ready, of maximal priority, and next in rotation on its list |
| StateItems.SelectionMovesOn | FreeRTOS-Kernel/tasks.c:194-209 | a selection moves on the index of the selected task's list to that task and lowers the record to it; every list keeps its items |
| StateItems.PrioritySound | FreeRTOS-Kernel/tasks.c:2899-2957 | a ready task follows its priority to another list, any other stays where it is, and the partition is kept |
| ReadyLists.Scheduler.RemoveStateItem | FreeRTOS-Kernel/list.c:217-247 | a state item leaves exactly the list it points back to |
| ReadyLists.Scheduler.AddTaskToReadyList | FreeRTOS-Kernel/tasks.c:284-290 | the task joins the list of its priority and the recorded top stays an upper bound |
| ReadyLists.Scheduler.MoveToSuspendedList | FreeRTOS-Kernel/tasks.c:3164-3185 | the item moves to the suspended list and the partition is kept |
| ReadyLists.Scheduler.MoveToReadyList | FreeRTOS-Kernel/tasks.c:3412-3415 | the item moves to the ready list of the task's priority and the partition is kept |
| ReadyLists.Scheduler.ChangePriority | FreeRTOS-Kernel/tasks.c:6669-6701 | the list test on the priority used on entry moves exactly the ready tasks |
| ReadyLists.Scheduler.FindTopPriority | FreeRTOS-Kernel/tasks.c:195-203 | the loop ends at the highest list that is not empty and no ready task is above it |
| ReadyLists.Scheduler.SelectHighestPriorityTask | FreeRTOS-Kernel/tasks.c:194-209 | a ready task of maximal priority becomes current, the index of its list moves on to it, and the record is lowered to its priority |
| ReadyLists.Scheduler.SwitchContext | FreeRTOS-Kernel/tasks.c:5109-5160 | with the scheduler suspended a yield is pended and nothing else changes; otherwise a task is selected |
| CoreStates.SelectionFacts | FreeRTOS-Kernel/tasks.c:1005-1155 | a core gets a ready task of maximal priority among those allowed there and not running elsewhere, or keeps its task if there is none; assignments stay injective and consistent with run states |
| CoreStates.RunningTaskGoesLast | FreeRTOS-Kernel/tasks.c:1020-1038 | the task that had the core, if still ready, is the last of its ready list after a selection, and the lists are otherwise as they were |
| CoreStates.FirstInLineGetsTheCore | FreeRTOS-Kernel/tasks.c:1064-1126 | among the tasks of its priority that may have the core the selected one is the first in line once the running task has gone last |
| CoreStates.EqualsShareTheCore | FreeRTOS-Kernel/tasks.c:1020-1126 | a task that may have the core, that nobody outranks, and that has k others ahead of it on its list, gets the core within k + 1 selections |
| CoreStates.EveryRunAssigned | FreeRTOS-Kernel/tasks.c:349-365 | in every run of selections, yields, readying, and changes of affinity and priority no task is on two cores and every run state agrees with the assignment |
| CoreStates.PrioritySound | FreeRTOS-Kernel/tasks.c:2899-2957 | a change of priority moves a ready task between lists and keeps lists and assignments consistent |
| CoreStates.PriorityChanges | FreeRTOS-Kernel/tasks.c:2899-2957 | a ready task whose priority is set joins the end of the list of the new priority and leaves the old one; nothing else changes |
| CoreStates.AffinityChanges | FreeRTOS-Kernel/tasks.c:3023-3023 | setting an affinity changes just that |
| CoreStates.ReadinessChanges | FreeRTOS-Kernel/tasks.c:284-290 | a task that becomes ready joins the end of its list and raises the record; one that stops being ready leaves its list in order |
| CoreStates.AskChanges | FreeRTOS-Kernel/tasks.c:349-365 | asking a core to yield changes just the run state of its task |
| CoreStates.IdleGivesWay | FreeRTOS-Kernel/tasks.c:1234-1244 | a task gives way to one of higher priority, and an idle task also to one of its own priority that is not idle |
| CoreStates.SearchFacts | FreeRTOS-Kernel/tasks.c:1040-1155 | the search finds the best eligible task at or below a priority, or there is none |
| CoreStates.FallsOn | FreeRTOS-Kernel/tasks.c:1128-1139 | the recorded top priority goes on falling over empty lists, and reaches below zero only if no task is ready |
| CoreStates.NobodyReadyReachable | FreeRTOS-Kernel/tasks.c:1128-1155 | a consistent state in which no task is ready and the record falls below zero |
| CoreStates.PreemptableIsMayMove | FreeRTOS-Kernel/tasks.c:1186-1258 | the cores searched for a displaced task are the other cores it may run on whose task weighs less and has not been asked to yield |
| Smp.Scheduler.FindInList | FreeRTOS-Kernel/tasks.c:1064-1126 | the inner loop finds the first task of a list that may have the core |
| Smp.Scheduler.FindTask | FreeRTOS-Kernel/tasks.c:1040-1155 | the outer loop terminates with the result of the search and lowers the record to the highest list that is not empty, or below zero iff no task is ready |
| Smp.Scheduler.SelectHighestPriorityTask | FreeRTOS-Kernel/tasks.c:1005-1268 | the core gets the best task for it; a ready task it displaces gets the core with the least task among those it may move to, and that core, another one, is asked to yield; if there is none nothing else changes; with no task ready only the recorded top priority changes, by wrapping |
| Smp.Scheduler.SelectFor | FreeRTOS-Kernel/tasks.c:1005-1139 | the search and the hand-over are the specified selection, or with no task ready leave the core its task |
| Smp.Scheduler.Rehome | FreeRTOS-Kernel/tasks.c:1180-1267 | the masking and the search for a core for a displaced task find the least task on the cores it may move to, or there is none |
| Smp.Scheduler.YieldCore | FreeRTOS-Kernel/tasks.c:349-365 | a yield is pended for the own core or another core's task is marked, once; assignments stay consistent |
| Smp.Scheduler.SetCoreAffinity | FreeRTOS-Kernel/tasks.c:3010-3062 | a task running where it may not run any more is asked to yield; assignments stay consistent |
| Smp.Scheduler.FindCoreToPreempt | FreeRTOS-Kernel/tasks.c:1229-1258 | of the allowed cores running a task of lower weight with no yield pending, one with the least is found, or there is none |
| NotifyProtocol.NoNotificationLost | FreeRTOS-Kernel/tasks.c:7807-7863 | under every interleaving of notifications with the marking, joining and resuming steps, whenever the scheduler is not suspended no task is blocked on an index that has been notified |
| NotifyProtocol.GivesAreConserved | FreeRTOS-Kernel/tasks.c:7692-7790 | over any run that uses an index to count, the count at the end is what it was and all gives, less the takes that found it above zero, whatever interrupts, timeouts and suspensions do |
| NotifyProtocol.NotificationChanges | FreeRTOS-Kernel/tasks.c:7923-8015 | what a notification does to the value, in numbers and bits, that it marks the index received, and whom it makes ready or holds pending; nothing else changes |
| NotifyProtocol.FinishChanges | FreeRTOS-Kernel/tasks.c:7758-7783 | a take consumes one of the count or all of it, a wait clears the given bits iff a notification has come, and the index is no longer waited on |
| NotifyProtocol.MarkChanges | FreeRTOS-Kernel/tasks.c:7816-7837 | a take blocks iff the count is zero, a wait iff nothing has been received, and only a wait that blocks clears bits |
| NotifyProtocol.PlaceChanges | FreeRTOS-Kernel/tasks.c:3149-3201 | joining a list, timeouts and suspension move the task and change no value; a suspension ends its waits |
| NotifyProtocol.ResumptionChanges | FreeRTOS-Kernel/tasks.c:3443-3532 | only a task suspended by hand is resumed, at once, or held pending if an interrupt does it under suspension |
| NotifyProtocol.SuspendedTestExact | FreeRTOS-Kernel/tasks.c:3312-3375 | the test vTaskResume relies on holds exactly for tasks suspended by hand |
| NotifyProtocol.NotifyFromIsrSound | FreeRTOS-Kernel/tasks.c:8067-8197 | an interrupt may notify at any point of a wait |
| NotifyProtocol.MarkSound | FreeRTOS-Kernel/tasks.c:7816-7837 | marking as waiting only if nothing has been received keeps the invariant, whatever bits are cleared on entry |
| NotifyProtocol.ResumeSound | FreeRTOS-Kernel/tasks.c:4044-4053 | resuming makes every task held pending ready |
| NotifyProtocol.OtherSound | FreeRTOS-Kernel/tasks.c:3382-3420 | timeouts, resumption and clearing of states keep the invariant |
| NotifyProtocol.SuspendTaskSound | FreeRTOS-Kernel/tasks.c:3149-3201 | suspending a task at any point outside its own marking keeps the invariant |
| NotifyProtocol.ResumeFromIsrSound | FreeRTOS-Kernel/tasks.c:3443-3532 | an interrupt may resume a task at any time, which is held pending while the scheduler is suspended |
| NotifyProtocol.WordBits | FreeRTOS-Kernel/tasks.c:7935-7937 | setting and clearing bits of a 32-bit value, bit by bit |
| Notifications.Kernel.MarkWaiting | FreeRTOS-Kernel/tasks.c:7714-7730 | the first critical section blocks iff the count is zero, or iff no notification is pending, and then clears the bits given for entry |
| Notifications.Kernel.FinishWait | FreeRTOS-Kernel/tasks.c:7758-7783 | what the call returns; a take consumes one or all of the count, a wait clears the bits given for exit iff a notification came |
| Notifications.Kernel.NotifyTask | FreeRTOS-Kernel/tasks.c:7923-8015 | a waiting task is made ready; the value is refused iff it must not overwrite a pending one |
| Notifications.Kernel.NotifyTaskFromISR | FreeRTOS-Kernel/tasks.c:8067-8197 | a waiting task is made ready, or held pending while the scheduler is suspended |
| Notifications.Kernel.ResumeTaskFromISR | FreeRTOS-Kernel/tasks.c:3443-3532 | only a task suspended by hand is resumed, at once or held pending |
| Notifications.Kernel.ResumeAll | FreeRTOS-Kernel/tasks.c:4033-4053 | the last resume makes all pending tasks ready |

## Left out

- The port layer: context switches, stacks, interrupt masks, memory barriers and spin locks.
- Creating and deleting queues, timers, stream buffers and event groups; memory allocation; MPU settings; thread-local storage.
- Tracing, run-time statistics, name search, formatted task tables and the queue registry.
- Queue sets: their notifications are not capped the way task wake-ups are.
- WakeupProtocol.NoWakeUpLost: queue resets and task deletion are not steps of the protocol; the effect of a reset is stated separately.
- WakeupProtocol.PlaceSound: the place in a wait list is any place, since who is woken first does not matter to the invariant.
- MutexProtocol.NoHolderBelowItsWaiters: does not cover tasks that block on a mutex while holding one, priorities set by hand, or gives and takes under scheduler suspension, because inheritance is not passed along chains and wait lists are not reordered.
- Mutexes.Kernel.TakeRecursive: blocking on a mutex that another task holds is the Block step of the protocol, after which the take is tried again.
- MutexProtocol.BlockDonated: the decision to block is one step, since neither other tasks nor interrupts can touch the mutex while the queue is locked.
- Mutexes: the mark that an event list item's value is in use by an event group, which stops its priority from being updated, is not part of the mutex model.
- EventGroupStates.SetFacts: bits are sets of bit numbers; the packing of bits and control bits into one word is proved separately on 32-bit words.
- Framing.FirstFrame: the length field is taken to be stored least significant byte first.
- StreamBuffers.StreamBuffer.SpacesAvailable: the loop against a concurrent reader is modelled step by step in StreamSpsc.
- Stream buffers: blocking with a trigger level and its notifications.
- NotifyProtocol.NoNotificationLost: tasks blocked on queues or event groups at the same time as notifications arrive are not part of this machine.
- NotifyProtocol.SuspendedTestExact: for tasks on no event list, as above.
- StateItems.EveryRunSound: the place of a task on a delayed list is any place; that it is the right one is proved with the delayed lists.
- ReadyLists: deleting the running task before the scheduler starts.
- Smp: the configuration that lets only one priority run at a time, preemption disabling, and prvYieldForTask.
- Coroutines: they repeat the two-list tick scheme and the selection of the highest priority.
- The demo boards, drivers and network test headers of the repository.
