/** The blocking and tick entry points of tasks.c, proved against the clock of `Clocks`. */
module DelayedTasks {
  import opened Clocks
  import opened TickMath
  import opened TimedLists
  import opened DelayLists
  import opened KernelSteps

  class Kernel {
    const modulus: nat
    const ticklessIdle: bool
    var tickCount: nat
    var numOfOverflows: nat
    var delayed: seq<Entry>
    var overflowDelayed: seq<Entry>
    var ready: set<TaskId>
    var suspendedList: set<TaskId>
    var pendingReady: seq<TaskId>
    var nextTaskUnblockTime: nat
    var schedulerSuspended: nat
    var pendedTicks: nat

    ghost function Snapshot(): State
      reads this
    {
      State(modulus, tickCount, numOfOverflows, delayed, overflowDelayed, ready, suspendedList, pendingReady,
          nextTaskUnblockTime)
    }

    ghost function Now(): Clock
      reads this
    {
      Snapshot().Meaning()
    }

    /** The kernel as KernelSteps sees it. */
    ghost function Seen(): View
      reads this
    {
      View(modulus, Now(), Snapshot().Held(), schedulerSuspended, pendedTicks)
    }

    /** From the given view the kernel has taken an admissible step. */
    ghost predicate Took(before: View, e: Step)
      reads this
    {
      Valid() && KernelSteps.Enabled(before, e) && Seen() == KernelSteps.After(before, e)
    }

    /** Invariant of the whole kernel state; ticks and released tasks are held back only
        while the scheduler is suspended. */
    ghost predicate Valid()
      reads this
    {
      && Snapshot().Consistent() && pendedTicks < modulus
      && (schedulerSuspended == 0 ==> pendingReady == [] && pendedTicks == 0)
    }

    constructor (modulus: nat, initialTickCount: nat, tasks: set<TaskId>, ticklessIdle: bool)
      requires modulus >= 2 && initialTickCount < modulus
      ensures Valid() && Seen() == View(modulus, Clock(initialTickCount, map[], tasks, {}), {}, 0, 0)
    {
      this.modulus, this.ticklessIdle := modulus, ticklessIdle;
      tickCount, numOfOverflows := initialTickCount, 0;
      delayed, overflowDelayed := [], [];
      ready, suspendedList, pendingReady := tasks, {}, [];
      nextTaskUnblockTime := modulus - 1;
      schedulerSuspended, pendedTicks := 0, 0;
      new;
      SleepersAre(Snapshot(), map[]);
    }

    /** What the kernel shows in its view is sane. */
    lemma SeenIsSane()
      requires Valid()
      ensures Seen().Sane()
    {
      var s := Snapshot();
      forall t | t in s.Meaning().sleepers ensures s.Meaning().now <= s.Meaning().sleepers[t] {
        if t in Owners(s.delayed) { assert s.delayed[Position(s.delayed, t)] in s.delayed; }
      }
    }

    /** prvAddCurrentTaskToDelayedList.  A task that an interrupt has already released goes
        onto a list but is not asleep on the clock.  Only a block time of zero with the tick
        count about to wrap leaves the invariant. */
    method AddCurrentTaskToDelayedList(current: TaskId, ticksToWait: nat, canBlockIndefinitely: bool)
      requires Valid() && current in ready && ticksToWait < modulus
      modifies `ready, `suspendedList, `delayed, `overflowDelayed, `nextTaskUnblockTime
      ensures ticksToWait != 0 || tickCount != modulus - 1 ==>
                Took(old(Seen()), Delay(current, ticksToWait, ticksToWait == modulus - 1 && canBlockIndefinitely))
      ensures ticksToWait == 0 && tickCount == modulus - 1 ==>
                Snapshot() == BlockedOnCurrent(old(Snapshot()), current, tickCount) && !SwitchAssertHolds(Snapshot())
    {
      if ticksToWait == modulus - 1 && canBlockIndefinitely {
        JoinSuspendedList(current);
      } else {
        var timeToWake := WrapAdd(tickCount, ticksToWait, modulus);
        if timeToWake < tickCount {
          JoinOverflowList(current, timeToWake, ticksToWait);
        } else {
          JoinCurrentList(current, timeToWake, ticksToWait);
        }
      }
    }

    /** The branch for a task that blocks without a timeout. */
    method JoinSuspendedList(t: TaskId)
      requires Valid() && t in ready
      modifies `ready, `suspendedList
      ensures Valid() && Now() == if t in pendingReady then old(Now()) else Park(old(Now()), t)
    {
      ghost var s := Snapshot();
      ready := ready - {t};
      suspendedList := suspendedList + {t};
      ParkIndefinitely(s, t, Snapshot());
    }

    /** The branch for a wake time beyond the next wrap. */
    method JoinOverflowList(t: TaskId, timeToWake: nat, ghost ticks: nat)
      requires Valid() && t in ready && ticks < modulus <= tickCount + ticks
               && timeToWake == tickCount + ticks - modulus
      modifies `ready, `overflowDelayed
      ensures Valid() && Now() == if t in pendingReady then old(Now()) else Block(old(Now()), t, ticks)
    {
      ghost var s := Snapshot();
      ready := ready - {t};
      overflowDelayed := Insert(overflowDelayed, Entry(timeToWake, t));
      BlockOnOverflowList(s, t, ticks, Snapshot());
    }

    /** The branch for a wake time in the present epoch, which may be the earliest. */
    method JoinCurrentList(t: TaskId, timeToWake: nat, ghost ticks: nat)
      requires Valid() && t in ready && timeToWake == tickCount + ticks < modulus
      modifies `ready, `delayed, `nextTaskUnblockTime
      ensures Snapshot() == BlockedOnCurrent(old(Snapshot()), t, timeToWake)
      ensures tickCount != modulus - 1 ==>
                Valid() && Now() == if t in pendingReady then old(Now()) else Block(old(Now()), t, ticks)
      ensures tickCount == modulus - 1 ==> !SwitchAssertHolds(Snapshot())
    {
      ghost var s := Snapshot();
      ready := ready - {t};
      delayed := Insert(delayed, Entry(timeToWake, t));
      if timeToWake < nextTaskUnblockTime {
        nextTaskUnblockTime := timeToWake;
      }
      if tickCount == modulus - 1 {
        InsertFacts(s.delayed, Entry(timeToWake, t));
        assert Entry(timeToWake, t) in delayed;
      } else {
        BlockOnCurrentList(s, t, ticks, Snapshot());
      }
    }

    /** prvResetNextTaskUnblockTime. */
    method ResetNextTaskUnblockTime()
      requires Snapshot().Consistent()
      modifies `nextTaskUnblockTime
      ensures Snapshot().Consistent() && Now() == old(Now())
      ensures nextTaskUnblockTime == HeadOr(delayed, modulus)
    {
      ghost var s := Snapshot();
      if delayed == [] {
        nextTaskUnblockTime := modulus - 1;
      } else {
        nextTaskUnblockTime := delayed[0].wake;
      }
      HeadIsLeast(delayed, modulus);
      assert delayed != [] ==> delayed[0] in delayed;
      assert Snapshot().Held() == s.Held() && Snapshot().Blocked() == s.Blocked();
      SleepersAre(Snapshot(), s.Meaning().sleepers);
    }

    /** Take a state item off whichever list holds it and put it on a ready list. */
    method MoveToReadyList(t: TaskId)
      modifies `delayed, `overflowDelayed, `suspendedList, `ready
      ensures Snapshot() == Moved(old(Snapshot()), t)
    {
      delayed := Without(delayed, t);
      overflowDelayed := Without(overflowDelayed, t);
      suspendedList := suspendedList - {t};
      ready := ready + {t};
    }

    /** xTaskRemoveFromEventList and the notification calls: release a blocked task.  With the
        scheduler suspended it is only noted on the pending-ready list.  The cached unblock
        time is refreshed only if it may be needed to decide how long to sleep. */
    method Release(t: TaskId)
      requires Valid() && t !in pendingReady
      requires t in suspendedList || t in Owners(delayed) || t in Owners(overflowDelayed)
               || (t in ready && schedulerSuspended != 0)
      modifies `delayed, `overflowDelayed, `suspendedList, `ready, `pendingReady, `nextTaskUnblockTime
      ensures Took(old(Seen()), KernelSteps.Release(t))
      ensures t in Now().awake && t !in Now().parked && t !in Now().sleepers
      ensures if schedulerSuspended == 0 then t in ready && t !in suspendedList else t in pendingReady
    {
      if schedulerSuspended == 0 {
        ReleaseAtOnce(t);
      } else {
        ghost var s := Snapshot();
        pendingReady := pendingReady + [t];
        ReleaseLater(s, t, Snapshot());
      }
    }

    /** The branch for a scheduler that is running. */
    method ReleaseAtOnce(t: TaskId)
      requires Valid() && t !in pendingReady
      requires t in suspendedList || t in Owners(delayed) || t in Owners(overflowDelayed)
      modifies `delayed, `overflowDelayed, `suspendedList, `ready, `nextTaskUnblockTime
      ensures Valid() && Now() == Wake(old(Now()), t)
    {
      ghost var s := Snapshot();
      MoveToReadyList(t);
      ReleaseNow(s, t, Snapshot());
      if ticklessIdle {
        ResetNextTaskUnblockTime();
      }
    }

    /** vTaskRemoveFromUnorderedEventList and xTaskAbortDelay: release a task from task level
        while the scheduler is suspended. */
    method ReleaseDirectly(t: TaskId)
      requires Valid() && t !in pendingReady && schedulerSuspended != 0
      requires t in suspendedList || t in Owners(delayed) || t in Owners(overflowDelayed)
      modifies `delayed, `overflowDelayed, `suspendedList, `ready
      ensures Took(old(Seen()), KernelSteps.ReleaseDirectly(t))
      ensures t in Now().awake && t !in Now().parked && t !in Now().sleepers && t in ready
    {
      ghost var s := Snapshot();
      MoveToReadyList(t);
      ReleaseNow(s, t, Snapshot());
    }

    /** Take a task off whichever list holds it, and off the pending-ready list, and put it on
        the suspended list. */
    method MoveToSuspendedList(t: TaskId)
      requires Snapshot().Consistent()
      requires t in ready || t in suspendedList || t in Owners(delayed) || t in Owners(overflowDelayed)
      modifies `delayed, `overflowDelayed, `suspendedList, `ready, `pendingReady
      ensures Snapshot().Consistent() && Now() == Stop(old(Now()), t)
      ensures Snapshot().Held() == old(Snapshot()).Held() - {t} && t in suspendedList && t !in pendingReady
      ensures old(pendingReady) == [] ==> pendingReady == []
    {
      ghost var s := Snapshot();
      delayed := Without(delayed, t);
      overflowDelayed := Without(overflowDelayed, t);
      ready := ready - {t};
      pendingReady := Dropped(pendingReady, t);
      suspendedList := suspendedList + {t};
      StopFacts(s, t, Snapshot());
    }

    /** vTaskSuspend. */
    method Suspend(t: TaskId)
      requires Valid() && (t in ready || t in suspendedList || t in Owners(delayed) || t in Owners(overflowDelayed))
      modifies `delayed, `overflowDelayed, `suspendedList, `ready, `pendingReady, `nextTaskUnblockTime
      ensures Took(old(Seen()), SuspendTask(t))
      ensures t in Now().parked && t !in Now().awake && t !in Now().sleepers && t in suspendedList && t !in pendingReady
    {
      MoveToSuspendedList(t);
      ResetNextTaskUnblockTime();
    }

    /** vTaskResume of a task on the suspended list. */
    method Resume(t: TaskId)
      requires Valid() && t in suspendedList && t !in pendingReady
      modifies `delayed, `overflowDelayed, `suspendedList, `ready
      ensures Took(old(Seen()), ResumeTask(t))
      ensures t in Now().awake && t !in Now().parked && t !in Now().sleepers && t in ready && t !in suspendedList
    {
      ghost var s := Snapshot();
      MoveToReadyList(t);
      ReleaseNow(s, t, Snapshot());
    }

    /** The tick count update of xTaskIncrementTick, with taskSWITCH_DELAYED_LISTS. */
    method AdvanceTickCount()
      requires Snapshot().Consistent()
      modifies `tickCount, `numOfOverflows, `delayed, `overflowDelayed, `nextTaskUnblockTime
      ensures Snapshot() == Incremented(old(Snapshot()))
      ensures Snapshot().AlmostConsistent()
      ensures Now() == old(Now()).(now := old(Now()).now + 1)
    {
      ghost var s := Snapshot();
      var newTickCount := if tickCount == modulus - 1 then 0 else tickCount + 1;
      tickCount := newTickCount;
      if newTickCount == 0 {
        assert delayed == [];
        delayed, overflowDelayed := overflowDelayed, delayed;
        numOfOverflows := numOfOverflows + 1;
        nextTaskUnblockTime := if delayed == [] then modulus - 1 else delayed[0].wake;
      }
      IncrementedFacts(s, Snapshot());
    }

    /** The unblocking loop of xTaskIncrementTick. */
    method UnblockDueTasks(ghost c: Clock)
      requires Snapshot().AlmostConsistent() && pendingReady == []
      requires Now() == c.(now := c.now + 1)
      modifies `delayed, `overflowDelayed, `suspendedList, `ready, `nextTaskUnblockTime
      ensures Snapshot().Consistent() && Now() == Tick(c)
    {
      ghost var due: set<TaskId> := {};
      assert WokenAll(Now(), due) == Now();
      if nextTaskUnblockTime <= tickCount {
        while delayed != [] && delayed[0].wake <= tickCount
          invariant Snapshot().AlmostConsistent()
          invariant due <= c.sleepers.Keys && forall t :: t in due ==> c.sleepers[t] <= c.now + 1
          invariant Now() == WokenAll(c.(now := c.now + 1), due)
          decreases |delayed|
        {
          ghost var s := Snapshot();
          MoveToReadyList(delayed[0].owner);
          UnblockHead(s, Snapshot(), c, due);
          due := due + {s.delayed[0].owner};
        }
        HeadIsLeast(delayed, modulus);
        ghost var s := Snapshot();
        nextTaskUnblockTime := if delayed == [] then modulus - 1 else delayed[0].wake;
        UnblockingDone(s, Snapshot(), c, due);
      } else {
        UnblockingDone(Snapshot(), Snapshot(), c, due);
      }
    }

    /** xTaskIncrementTick. */
    method IncrementTick()
      requires Valid()
      modifies this
      ensures Took(old(Seen()), TickInterrupt)
    {
      if schedulerSuspended == 0 {
        ghost var c := Now();
        AdvanceTickCount();
        UnblockDueTasks(c);
      } else {
        pendedTicks := WrapAdd(pendedTicks, 1, modulus);
      }
    }

    /** vTaskSuspendAll. */
    method SuspendAll()
      requires Valid()
      modifies `schedulerSuspended
      ensures Took(old(Seen()), KernelSteps.SuspendAll)
    {
      schedulerSuspended := schedulerSuspended + 1;
    }

    /** xTaskResumeAll: release the pending tasks, then replay the pended ticks. */
    method ResumeAll()
      requires Valid() && schedulerSuspended != 0
      modifies this
      ensures Took(old(Seen()), KernelSteps.ResumeAll)
    {
      schedulerSuspended := schedulerSuspended - 1;
      assert Snapshot() == old(Snapshot());
      if schedulerSuspended == 0 {
        MovePendingReadyTasks();
        ReplayPendedTicks();
      }
    }

    /** The first loop of xTaskResumeAll. */
    method MovePendingReadyTasks()
      requires Snapshot().Consistent()
      modifies `delayed, `overflowDelayed, `suspendedList, `ready, `pendingReady, `nextTaskUnblockTime
      ensures Snapshot().Consistent() && pendingReady == [] && Now() == old(Now())
    {
      var moved := pendingReady != [];
      while pendingReady != []
        invariant Snapshot().Consistent() && Now() == old(Now())
        decreases |pendingReady|
      {
        ghost var s := Snapshot();
        var t := pendingReady[0];
        pendingReady := pendingReady[1..];
        MoveToReadyList(t);
        MovePending(s, Snapshot());
      }
      if moved {
        ResetNextTaskUnblockTime();
      }
    }

    /** The second loop of xTaskResumeAll. */
    method ReplayPendedTicks()
      requires Snapshot().Consistent() && pendingReady == [] && pendedTicks < modulus
      modifies `tickCount, `numOfOverflows, `delayed, `overflowDelayed, `suspendedList, `ready,
               `nextTaskUnblockTime, `pendedTicks
      ensures Snapshot().Consistent() && pendedTicks == 0
      ensures Now() == Ticks(old(Now()), old(pendedTicks))
    {
      var pendedCounts := pendedTicks;
      while pendedCounts > 0
        invariant Snapshot().Consistent() && pendedTicks == old(pendedTicks)
        invariant Ticks(Now(), pendedCounts) == Ticks(old(Now()), old(pendedTicks))
      {
        ghost var c := Now();
        AdvanceTickCount();
        UnblockDueTasks(c);
        pendedCounts := pendedCounts - 1;
      }
      ghost var s := Snapshot();
      pendedTicks := 0;
      assert Snapshot() == s && Ticks(Now(), 0) == Now();
    }

    /** vTaskStepTick.  A jump up to the next unblock time leaves its last tick pended, so
        that resuming the scheduler does the unblocking. */
    method StepTick(ticksToJump: nat)
      requires Valid() && tickCount + ticksToJump <= nextTaskUnblockTime
      requires tickCount + ticksToJump == nextTaskUnblockTime ==> schedulerSuspended != 0 && ticksToJump != 0
      modifies `tickCount, `pendedTicks
      ensures var back := if old(tickCount) + ticksToJump == nextTaskUnblockTime then 1 else 0;
              Took(old(Seen()), StepTicks(ticksToJump - back, back))
      ensures old(pendedTicks) + 1 < modulus ==>
                Ticks(Now(), pendedTicks) == Ticks(old(Now()), old(pendedTicks) + ticksToJump)
    {
      ghost var s := Snapshot();
      var jump := ticksToJump;
      if tickCount + ticksToJump == nextTaskUnblockTime {
        pendedTicks := WrapAdd(pendedTicks, 1, modulus);
        jump := jump - 1;
      }
      tickCount := tickCount + jump;
      QuietJump(s, jump, Snapshot());
      TicksCompose(old(Now()), jump, pendedTicks);
    }

    /** xTaskCatchUpTicks. */
    method CatchUpTicks(ticksToCatchUp: nat)
      requires Valid() && schedulerSuspended == 0 && ticksToCatchUp < modulus
      modifies this
      ensures Took(old(Seen()), CatchUp(ticksToCatchUp))
    {
      SuspendAll();
      pendedTicks := WrapAdd(pendedTicks, ticksToCatchUp, modulus);
      assert Snapshot() == old(Snapshot());
      ResumeAll();
    }
  }
}
