/** Blocking with a timeout (tasks.c).  The kernel keeps two delayed lists ordered by a tick
    count that wraps; the specification is a clock that never wraps and a deadline per
    sleeping task. */
module Clocks {

  type TaskId = nat

  /** `parked` are the tasks blocked without a timeout. */
  datatype Clock = Clock(now: nat, sleepers: map<TaskId, nat>, awake: set<TaskId>, parked: set<TaskId>)

  function Block(c: Clock, t: TaskId, ticks: nat): Clock {
    c.(sleepers := c.sleepers[t := c.now + ticks], awake := c.awake - {t})
  }

  function Park(c: Clock, t: TaskId): Clock {
    c.(parked := c.parked + {t}, awake := c.awake - {t})
  }

  function Wake(c: Clock, t: TaskId): Clock {
    c.(sleepers := c.sleepers - {t}, parked := c.parked - {t}, awake := c.awake + {t})
  }

  /** Suspended by hand, whatever it was doing. */
  function Stop(c: Clock, t: TaskId): Clock {
    c.(sleepers := c.sleepers - {t}, parked := c.parked + {t}, awake := c.awake - {t})
  }

  function Tick(c: Clock): Clock {
    var late := set t | t in c.sleepers && c.sleepers[t] <= c.now + 1;
    c.(now := c.now + 1, sleepers := c.sleepers - late, awake := c.awake + late)
  }

  function Ticks(c: Clock, n: nat): Clock
    decreases n
  {
    if n == 0 then c else Ticks(Tick(c), n - 1)
  }

  /** n ticks at once: everyone due by then is awake. */
  function Advanced(c: Clock, n: nat): Clock {
    var late := set t | t in c.sleepers && c.sleepers[t] <= c.now + n;
    c.(now := c.now + n, sleepers := c.sleepers - late, awake := c.awake + late)
  }

  ghost predicate Punctual(c: Clock) {
    forall t :: t in c.sleepers ==> c.now < c.sleepers[t]
  }

  lemma {:induction false} TicksClosedForm(c: Clock, n: nat)
    requires Punctual(c)
    ensures Ticks(c, n) == Advanced(c, n) && Punctual(Ticks(c, n))
    decreases n
  {
    if n == 0 {
      assert Advanced(c, 0).sleepers == c.sleepers && Advanced(c, 0).awake == c.awake;
    } else {
      TicksClosedForm(Tick(c), n - 1);
      assert Advanced(Tick(c), n - 1).sleepers == Advanced(c, n).sleepers;
      assert Advanced(Tick(c), n - 1).awake == Advanced(c, n).awake;
    }
  }

  lemma NobodyDue(c: Clock, n: nat)
    requires Punctual(c.(now := c.now + n))
    ensures Ticks(c, n) == c.(now := c.now + n)
  {
    TicksClosedForm(c, n);
    var late := set t | t in c.sleepers && c.sleepers[t] <= c.now + n;
    assert late == {};
    assert c.sleepers - late == c.sleepers && c.awake + late == c.awake;
  }

  lemma {:induction false} TicksCompose(c: Clock, m: nat, n: nat)
    ensures Ticks(Ticks(c, m), n) == Ticks(c, m + n)
    decreases m
  {
    if m > 0 { TicksCompose(Tick(c), m - 1, n); }
  }

  // ----- whole runs

  datatype Event = Blocks(t: TaskId, ticks: nat) | Parks(t: TaskId) | Wakes(t: TaskId) | Stops(t: TaskId) | Ticked

  predicate Enabled(c: Clock, e: Event) {
    match e
    case Blocks(t, ticks) => t in c.awake && ticks > 0
    case Parks(t) => t in c.awake
    case Wakes(t) => t in c.sleepers || t in c.parked
    case Stops(t) => t in c.awake || t in c.sleepers || t in c.parked
    case Ticked => true
  }

  function After(c: Clock, e: Event): Clock {
    match e
    case Blocks(t, ticks) => Block(c, t, ticks)
    case Parks(t) => Park(c, t)
    case Wakes(t) => Wake(c, t)
    case Stops(t) => Stop(c, t)
    case Ticked => Tick(c)
  }

  predicate IsRun(c: Clock, run: seq<Event>) {
    run == [] || (IsRun(c, run[..|run|-1]) && Enabled(Outcome(c, run[..|run|-1]), run[|run|-1]))
  }

  function Outcome(c: Clock, run: seq<Event>): Clock {
    if run == [] then c else After(Outcome(c, run[..|run|-1]), run[|run|-1])
  }

  function Time(start: nat, run: seq<Event>): nat {
    if run == [] then start else Time(start, run[..|run|-1]) + if run[|run|-1] == Ticked then 1 else 0
  }

  /** Read off the history alone: the deadline set by t's last block, unless something other
      than the passage of time has ended that block since. */
  function LastDeadline(start: nat, run: seq<Event>, t: TaskId): (d: int)
    ensures d >= -1
  {
    if run == [] then -1 else
    var earlier := run[..|run|-1];
    match run[|run|-1]
    case Blocks(u, ticks) => if u == t then Time(start, earlier) + ticks else LastDeadline(start, earlier, t)
    case Parks(u) => if u == t then -1 else LastDeadline(start, earlier, t)
    case Wakes(u) => if u == t then -1 else LastDeadline(start, earlier, t)
    case Stops(u) => if u == t then -1 else LastDeadline(start, earlier, t)
    case Ticked => LastDeadline(start, earlier, t)
  }

  /** After any run, a task sleeps iff the last block in its history was not ended early and
      its deadline is still ahead. */
  lemma {:induction false} SleepersAreThePendingDeadlines(c: Clock, run: seq<Event>, t: TaskId)
    requires c.sleepers == map[] && IsRun(c, run) && c.awake !! c.parked
    ensures var o := Outcome(c, run); var d := LastDeadline(c.now, run, t);
            && o.now == Time(c.now, run)
            && o.awake !! o.parked && o.awake !! o.sleepers.Keys && o.parked !! o.sleepers.Keys
            && (t in o.sleepers <==> d > o.now)
            && (t in o.sleepers ==> o.sleepers[t] == d)
    decreases |run|
  {
    if run != [] {
      var earlier, e := run[..|run|-1], run[|run|-1];
      SleepersAreThePendingDeadlines(c, earlier, t);
      DisjointAfter(Outcome(c, earlier), e);
    }
  }

  lemma DisjointAfter(c: Clock, e: Event)
    requires c.awake !! c.parked && c.awake !! c.sleepers.Keys && c.parked !! c.sleepers.Keys && Enabled(c, e)
    ensures var o := After(c, e); o.awake !! o.parked && o.awake !! o.sleepers.Keys && o.parked !! o.sleepers.Keys
  {
  }
}

/** The kernel's own representation: two lists ordered by wrapped wake time, a cached next
    unblock time, ticks pended and tasks held back while the scheduler is suspended. */
module DelayLists {
  import opened ListView
  import opened Clocks
  import opened TickMath
  import opened TimedLists

  // ----- the kernel state and what it means

  datatype State = State(
    modulus: nat, tick: nat, overflows: nat,
    delayed: seq<Entry>, overflowDelayed: seq<Entry>,
    ready: set<TaskId>, suspendedList: set<TaskId>, pendingReady: seq<TaskId>,
    nextUnblock: nat)
  {
    function Blocked(): set<TaskId> { Owners(delayed) + Owners(overflowDelayed) }

    function Held(): set<TaskId> { set t | t in pendingReady }

    function Epoch(): nat { EpochStart(overflows, modulus) }

    /** The invariant between incrementing the tick count and having released every task
        that is now due. */
    ghost predicate AlmostConsistent() {
      && modulus >= 2 && tick < modulus && nextUnblock < modulus
      && Ordered(delayed) && Ordered(overflowDelayed) && Owners(delayed) !! Owners(overflowDelayed)
      && (forall e :: e in delayed ==> nextUnblock <= e.wake < modulus)
      && (forall e :: e in overflowDelayed ==> e.wake < modulus)
      && ready !! suspendedList && ready !! Blocked() && suspendedList !! Blocked()
      && Held() <= ready + suspendedList + Blocked() && Distinct(pendingReady)
    }

    /** The invariant between operations: nothing on the current list is overdue, the list
        is empty when the tick count is about to wrap, and the cached unblock time is a lower
        bound for that list and not in the past. */
    ghost predicate Consistent() {
      && AlmostConsistent()
      && (forall e :: e in delayed ==> tick <= e.wake)
      && SwitchAssertHolds(this) && tick <= nextUnblock
    }

    /** The absolute wake time of a task on a delayed list. */
    function Deadline(t: TaskId): nat
      requires t in Blocked()
    {
      if t in Owners(delayed) then Epoch() + WakeOf(delayed, t)
      else Epoch() + modulus + WakeOf(overflowDelayed, t)
    }

    /** The clock this state stands for.  A task on the pending-ready list counts as awake
        whatever list its state item is still on. */
    function Meaning(): Clock {
      Clock(Epoch() + tick,
            map t | t in Blocked() - Held() :: Deadline(t),
            ready + Held(), suspendedList - Held())
    }
  }

  /** configASSERT of taskSWITCH_DELAYED_LISTS. */
  predicate SwitchAssertHolds(s: State) {
    s.tick + 1 == s.modulus ==> s.delayed == []
  }

  lemma MeaningIsPunctual(s: State)
    requires s.AlmostConsistent() && forall e :: e in s.delayed ==> s.tick < e.wake
    ensures Punctual(s.Meaning())
  {
    forall t | t in s.Meaning().sleepers ensures s.Meaning().now < s.Meaning().sleepers[t] {
      if t in Owners(s.delayed) { assert s.delayed[Position(s.delayed, t)] in s.delayed; }
    }
  }

  lemma SleepersAre(r: State, m: map<TaskId, nat>)
    requires m.Keys == r.Blocked() - r.Held()
    requires forall u :: u in m ==> m[u] == r.Deadline(u)
    ensures r.Meaning().sleepers == m
  {
  }

  /** Moving t from the ready list to a delayed list, deadline `ticks` from now. */
  lemma BlockedMeaning(s: State, r: State, t: TaskId, ticks: nat)
    requires r.modulus == s.modulus && r.tick == s.tick && r.overflows == s.overflows
    requires r.pendingReady == s.pendingReady && r.suspendedList == s.suspendedList
    requires t in s.ready && t !in s.Blocked() && r.ready == s.ready - {t} && r.Blocked() == s.Blocked() + {t}
    requires forall u :: u in r.Blocked() ==> r.Deadline(u) == if u == t then s.Meaning().now + ticks else s.Deadline(u)
    ensures r.Meaning() == if t in s.pendingReady then s.Meaning() else Block(s.Meaning(), t, ticks)
  {
    assert r.Held() == s.Held() && (t in s.Held() <==> t in s.pendingReady);
    var m := if t in s.pendingReady then s.Meaning() else Block(s.Meaning(), t, ticks);
    assert r.Meaning().awake == m.awake;
    SleepersAre(r, m.sleepers);
  }

  function BlockedOnCurrent(s: State, t: TaskId, wake: nat): State {
    s.(ready := s.ready - {t}, delayed := Insert(s.delayed, Entry(wake, t)),
       nextUnblock := if wake < s.nextUnblock then wake else s.nextUnblock)
  }

  lemma DeadlineOnCurrent(s: State, t: TaskId, wake: nat, r: State, u: TaskId)
    requires Ordered(s.delayed) && t !in Owners(s.delayed) && r == BlockedOnCurrent(s, t, wake)
             && u in s.Blocked() + {t}
    ensures u in r.Blocked() && r.Deadline(u) == if u == t then s.Epoch() + wake else s.Deadline(u)
  {
    InsertFacts(s.delayed, Entry(wake, t));
    if u in Owners(r.delayed) { InsertWakes(s.delayed, Entry(wake, t), u); }
  }

  lemma BlockOnCurrentList(s: State, t: TaskId, ticks: nat, r: State)
    requires s.Consistent() && t in s.ready && s.tick + ticks < s.modulus && s.tick != s.modulus - 1
    requires r == BlockedOnCurrent(s, t, s.tick + ticks)
    ensures r.Consistent()
    ensures r.Meaning() == if t in s.pendingReady then s.Meaning() else Block(s.Meaning(), t, ticks)
  {
    var e := Entry(s.tick + ticks, t);
    InsertFacts(s.delayed, e);
    assert r.Blocked() == s.Blocked() + {t} && r.Held() == s.Held();
    forall u | u in r.Blocked() ensures r.Deadline(u) == if u == t then s.Epoch() + e.wake else s.Deadline(u) {
      DeadlineOnCurrent(s, t, e.wake, r, u);
    }
    BlockedMeaning(s, r, t, ticks);
  }

  function BlockedOnOverflow(s: State, t: TaskId, wake: nat): State {
    s.(ready := s.ready - {t}, overflowDelayed := Insert(s.overflowDelayed, Entry(wake, t)))
  }

  lemma BlockOnOverflowList(s: State, t: TaskId, ticks: nat, r: State)
    requires s.Consistent() && t in s.ready && ticks < s.modulus <= s.tick + ticks
    requires r == BlockedOnOverflow(s, t, s.tick + ticks - s.modulus)
    ensures r.Consistent()
    ensures r.Meaning() == if t in s.pendingReady then s.Meaning() else Block(s.Meaning(), t, ticks)
  {
    var e := Entry(s.tick + ticks - s.modulus, t);
    InsertFacts(s.overflowDelayed, e);
    assert r.Blocked() == s.Blocked() + {t} && r.Held() == s.Held();
    forall u | u in r.Blocked() ensures r.Deadline(u) == if u == t then s.Meaning().now + ticks else s.Deadline(u) {
      if u !in Owners(r.delayed) { InsertWakes(s.overflowDelayed, e, u); }
    }
    BlockedMeaning(s, r, t, ticks);
  }

  lemma ParkIndefinitely(s: State, t: TaskId, r: State)
    requires s.Consistent() && t in s.ready
    requires r == s.(ready := s.ready - {t}, suspendedList := s.suspendedList + {t})
    ensures r.Consistent()
    ensures r.Meaning() == if t in s.pendingReady then s.Meaning() else Park(s.Meaning(), t)
  {
    assert r.Held() == s.Held() && (t in s.Held() <==> t in s.pendingReady);
    var m := if t in s.pendingReady then s.Meaning() else Park(s.Meaning(), t);
    assert r.Meaning().awake == m.awake && r.Meaning().parked == m.parked;
    SleepersAre(r, m.sleepers);
  }

  /** A block time of zero puts the task on the current list at the present tick.  Exactly
      when the tick count is not about to wrap, that keeps the invariant, and the next tick
      wakes the task; otherwise the switch finds the list occupied and the task waits two
      more epochs. */
  lemma ZeroBlockHarmlessIffNotAtWrap(s: State, t: TaskId, r: State)
    requires s.Consistent() && t in s.ready && t !in s.pendingReady && r == BlockedOnCurrent(s, t, s.tick)
    ensures r.Consistent() <==> s.tick != s.modulus - 1
    ensures SwitchAssertHolds(r) <==> s.tick != s.modulus - 1
    ensures s.tick != s.modulus - 1 ==> r.Meaning() == Block(s.Meaning(), t, 0) && t in Tick(r.Meaning()).awake
    ensures s.tick == s.modulus - 1 ==>
      var n := Incremented(r);
      t in n.Blocked() && t !in Owners(n.delayed) && n.Deadline(t) == s.Meaning().now + 2 * s.modulus
  {
    var e := Entry(s.tick, t);
    InsertFacts(s.delayed, e);
    assert e in r.delayed;
    if s.tick == s.modulus - 1 {
      InsertWakes(s.delayed, e, t);
      assert t in Owners(Incremented(r).overflowDelayed);
    } else {
      BlockOnCurrentList(s, t, 0, r);
    }
  }

  /** A sound state with the tick count about to wrap, in which a task blocks for no time: the
      assertion of the list switch fails, and the task sleeps for 32 ticks. */
  lemma ZeroBlockAtWrapFails()
    ensures var s := State(16, 15, 0, [], [], {0}, {}, [], 15);
            var r := BlockedOnCurrent(s, 0, 15);
            && s.Consistent() && !SwitchAssertHolds(r)
            && 0 in Incremented(r).Blocked() && Incremented(r).Deadline(0) == s.Meaning().now + 32
  {
    var s := State(16, 15, 0, [], [], {0}, {}, [], 15);
    assert s.Held() == {};
    ZeroBlockHarmlessIffNotAtWrap(s, 0, BlockedOnCurrent(s, 0, 15));
  }

  // ----- releasing tasks

  /** Unlink t's state item and put it on a ready list. */
  function Moved(s: State, t: TaskId): State {
    s.(delayed := Without(s.delayed, t), overflowDelayed := Without(s.overflowDelayed, t),
       suspendedList := s.suspendedList - {t}, ready := s.ready + {t})
  }

  lemma MovedFacts(s: State, t: TaskId, r: State)
    requires s.AlmostConsistent() && r == Moved(s, t) && t in s.ready + s.suspendedList + s.Blocked()
    ensures r.AlmostConsistent() && r.Blocked() == s.Blocked() - {t}
    ensures forall e :: e in r.delayed ==> e in s.delayed
    ensures forall u :: u in r.Blocked() ==> r.Deadline(u) == s.Deadline(u)
  {
    WithoutFacts(s.delayed, t);
    WithoutFacts(s.overflowDelayed, t);
    assert r.Held() == s.Held();
    forall u | u in r.Blocked() ensures r.Deadline(u) == s.Deadline(u) {
      if u in Owners(r.delayed) { WithoutWakes(s.delayed, t, u); } else { WithoutWakes(s.overflowDelayed, t, u); }
    }
  }

  lemma ReleaseNow(s: State, t: TaskId, r: State)
    requires s.AlmostConsistent() && t in s.suspendedList + s.Blocked() && t !in s.pendingReady && r == Moved(s, t)
    ensures r.AlmostConsistent() && r.Meaning() == Wake(s.Meaning(), t)
    ensures s.Consistent() ==> r.Consistent()
  {
    MovedFacts(s, t, r);
    assert r.Held() == s.Held();
    var m := Wake(s.Meaning(), t);
    assert r.Meaning().awake == m.awake && r.Meaning().parked == m.parked;
    SleepersAre(r, m.sleepers);
  }

  /** While the scheduler is suspended the event item goes on the pending-ready list and the
      state item stays where it is; on the clock the task is awake at once. */
  lemma ReleaseLater(s: State, t: TaskId, r: State)
    requires s.Consistent() && t in s.ready + s.suspendedList + s.Blocked() && t !in s.pendingReady
    requires r == s.(pendingReady := s.pendingReady + [t])
    ensures r.Consistent() && r.Meaning() == Wake(s.Meaning(), t)
  {
    assert r.Held() == s.Held() + {t};
    var m := Wake(s.Meaning(), t);
    assert r.Meaning().awake == m.awake && r.Meaning().parked == m.parked;
    SleepersAre(r, m.sleepers);
  }

  /** Moving the head of the pending-ready list to a ready list changes nothing on the clock. */
  lemma MovePending(s: State, r: State)
    requires s.Consistent() && s.pendingReady != []
    requires r == Moved(s.(pendingReady := s.pendingReady[1..]), s.pendingReady[0])
    ensures r.Consistent() && r.Meaning() == s.Meaning()
  {
    var t := s.pendingReady[0];
    var mid := s.(pendingReady := s.pendingReady[1..]);
    assert t in s.Held() && mid.Held() == s.Held() - {t} && mid.Blocked() == s.Blocked();
    MovedFacts(mid, t, r);
    MovedPendingMeaning(s, mid, t, r);
  }

  lemma MovedPendingMeaning(s: State, mid: State, t: TaskId, r: State)
    requires t in s.Held() && mid.Held() == s.Held() - {t} && r.Held() == mid.Held()
    requires r.Epoch() == s.Epoch() && r.tick == s.tick
    requires r.ready == s.ready + {t} && r.suspendedList == s.suspendedList - {t} && r.Blocked() == s.Blocked() - {t}
    requires forall u :: u in r.Blocked() ==> r.Deadline(u) == s.Deadline(u)
    ensures r.Meaning() == s.Meaning()
  {
    assert r.Meaning().awake == s.Meaning().awake && r.Meaning().parked == s.Meaning().parked;
    SleepersAre(r, s.Meaning().sleepers);
  }

  /** uxListRemove of an event item, if it is on the list. */
  function Dropped(list: seq<TaskId>, t: TaskId): seq<TaskId> {
    if t in list then Removed(list, IndexOf(list, t)) else list
  }

  /** vTaskSuspend: the state item moves to the suspended list, and the event item leaves the
      pending-ready list if it was there. */
  function Stopped(s: State, t: TaskId): State {
    s.(delayed := Without(s.delayed, t), overflowDelayed := Without(s.overflowDelayed, t), ready := s.ready - {t},
       suspendedList := s.suspendedList + {t},
       pendingReady := Dropped(s.pendingReady, t))
  }

  lemma StoppedLists(s: State, t: TaskId, r: State)
    requires s.Consistent() && r == Stopped(s, t) && t in s.ready + s.suspendedList + s.Blocked()
    ensures r.Blocked() == s.Blocked() - {t} && r.Held() == s.Held() - {t} && Distinct(r.pendingReady)
    ensures Ordered(r.delayed) && Ordered(r.overflowDelayed)
    ensures forall e :: e in r.delayed ==> e in s.delayed
    ensures forall e :: e in r.overflowDelayed ==> e in s.overflowDelayed
    ensures forall u :: u in r.Blocked() ==> r.Deadline(u) == s.Deadline(u)
  {
    WithoutFacts(s.delayed, t);
    WithoutFacts(s.overflowDelayed, t);
    if t in s.pendingReady { RemovedFacts(s.pendingReady, IndexOf(s.pendingReady, t)); }
    forall u | u in r.Blocked() ensures r.Deadline(u) == s.Deadline(u) {
      if u in Owners(r.delayed) { WithoutWakes(s.delayed, t, u); } else { WithoutWakes(s.overflowDelayed, t, u); }
    }
  }

  lemma StopFacts(s: State, t: TaskId, r: State)
    requires s.Consistent() && r == Stopped(s, t) && t in s.ready + s.suspendedList + s.Blocked()
    ensures r.Consistent() && r.Meaning() == Stop(s.Meaning(), t) && r.Held() == s.Held() - {t}
  {
    StoppedLists(s, t, r);
    var m := Stop(s.Meaning(), t);
    assert r.Meaning().awake == m.awake && r.Meaning().parked == m.parked;
    SleepersAre(r, m.sleepers);
  }

  // ----- the tick

  /** Incrementing the tick count, with the list switch when it wraps. */
  function Incremented(s: State): State
    requires s.modulus >= 2
  {
    if s.tick + 1 < s.modulus then s.(tick := s.tick + 1)
    else s.(tick := 0, overflows := s.overflows + 1, delayed := s.overflowDelayed, overflowDelayed := s.delayed,
            nextUnblock := HeadOr(s.overflowDelayed, s.modulus))
  }

  /** prvResetNextTaskUnblockTime. */
  function HeadOr(delayed: seq<Entry>, modulus: nat): nat
    requires modulus >= 2
  {
    if delayed == [] then modulus - 1 else delayed[0].wake
  }

  lemma HeadMember(s: seq<Entry>)
    ensures s != [] ==> s[0] in s
  {
  }

  /** Once everything due has been woken the current list is empty if the tick count is about
      to wrap. */
  lemma EmptyAtWrap(s: State)
    requires s.AlmostConsistent() && s.tick == s.modulus - 1 && forall e :: e in s.delayed ==> s.tick < e.wake
    ensures s.delayed == []
  {
    HeadMember(s.delayed);
  }

  lemma IncrementedFacts(s: State, r: State)
    requires s.Consistent() && r == Incremented(s)
    ensures r.AlmostConsistent() && r.Meaning() == s.Meaning().(now := s.Meaning().now + 1)
  {
    if s.tick + 1 < s.modulus {
      assert r.Held() == s.Held() && r.Blocked() == s.Blocked();
      SleepersAre(r, s.Meaning().sleepers);
    } else {
      WrappedFacts(s, r);
    }
  }

  lemma WrappedFacts(s: State, r: State)
    requires s.Consistent() && r == Incremented(s) && s.tick == s.modulus - 1
    ensures r.AlmostConsistent() && r.Meaning() == s.Meaning().(now := s.Meaning().now + 1)
  {
    WrappedDeadlines(s, r);
    HeadIsLeast(s.overflowDelayed, s.modulus);
    SleepersAre(r, s.Meaning().sleepers);
  }

  /** With the current list empty, changing the lists over moves no deadline. */
  lemma WrappedDeadlines(s: State, r: State)
    requires s.modulus >= 2 && s.delayed == [] && s.tick == s.modulus - 1 && r == Incremented(s)
    ensures r.Held() == s.Held() && r.Blocked() == s.Blocked() && r.Epoch() == s.Epoch() + s.modulus
    ensures forall u :: u in s.Blocked() ==> r.Deadline(u) == s.Deadline(u)
  {
    assert Owners([]) == {};
    assert EpochStart(s.overflows + 1, s.modulus) == EpochStart(s.overflows, s.modulus) + s.modulus;
  }

  lemma HeadIsLeast(delayed: seq<Entry>, modulus: nat)
    requires modulus >= 2 && Ordered(delayed)
    ensures forall e :: e in delayed ==> HeadOr(delayed, modulus) <= e.wake
  {
    forall e | e in delayed ensures HeadOr(delayed, modulus) <= e.wake {
      assert delayed[IndexOf(delayed, e)] == e;
    }
  }

  /** c after the tasks in `due` have been woken. */
  function WokenAll(c: Clock, due: set<TaskId>): Clock {
    c.(sleepers := c.sleepers - due, awake := c.awake + due)
  }

  /** Waking tasks that are due until nobody is overdue is what a tick does. */
  lemma WokenAllIsTick(c: Clock, due: set<TaskId>)
    requires due <= c.sleepers.Keys && forall t :: t in due ==> c.sleepers[t] <= c.now + 1
    requires Punctual(WokenAll(c.(now := c.now + 1), due))
    ensures WokenAll(c.(now := c.now + 1), due) == Tick(c)
  {
    var late := set t | t in c.sleepers && c.sleepers[t] <= c.now + 1;
    var after := WokenAll(c.(now := c.now + 1), due);
    forall t | t in late ensures t in due {
      assert t in due || t in after.sleepers;
    }
    assert late == due;
  }

  lemma WakeOneMore(c: Clock, due: set<TaskId>, t: TaskId)
    requires t !in c.parked
    ensures Wake(WokenAll(c, due), t) == WokenAll(c, due + {t})
  {
    assert c.sleepers - due - {t} == c.sleepers - (due + {t}) && c.parked - {t} == c.parked;
    assert c.awake + due + {t} == c.awake + (due + {t});
  }

  /** One turn of the unblocking loop. */
  lemma UnblockHead(s: State, r: State, c: Clock, due: set<TaskId>)
    requires s.AlmostConsistent() && s.pendingReady == [] && s.delayed != [] && s.delayed[0].wake <= s.tick
    requires s.Meaning() == WokenAll(c.(now := c.now + 1), due)
    requires r == Moved(s, s.delayed[0].owner)
    ensures var t := s.delayed[0].owner;
            && r.AlmostConsistent() && r.Meaning() == WokenAll(c.(now := c.now + 1), due + {t})
            && t in c.sleepers && c.sleepers[t] <= c.now + 1
    ensures |r.delayed| < |s.delayed|
  {
    var t := s.delayed[0].owner;
    HeadDeadline(s);
    ReleaseNow(s, t, r);
    WakeOneMore(c.(now := c.now + 1), due, t);
  }

  lemma HeadDeadline(s: State)
    requires s.AlmostConsistent() && s.pendingReady == [] && s.delayed != []
    ensures var e := s.delayed[0];
            e.owner in s.Blocked() && e.owner in s.Meaning().sleepers
                && s.Meaning().sleepers[e.owner] == s.Epoch() + e.wake
  {
    assert s.delayed[0] in s.delayed;
    WakeOfMember(s.delayed, s.delayed[0]);
  }

  /** The loop stops when the head of the current list is not due. */
  lemma UnblockingDone(s: State, r: State, c: Clock, due: set<TaskId>)
    requires s.AlmostConsistent() && s.Meaning() == WokenAll(c.(now := c.now + 1), due)
    requires due <= c.sleepers.Keys && forall t :: t in due ==> c.sleepers[t] <= c.now + 1
    requires forall e :: e in s.delayed ==> s.tick < e.wake
    requires r == s.(nextUnblock := r.nextUnblock)
    requires s.tick < r.nextUnblock || r.nextUnblock == s.modulus - 1
    requires forall e :: e in s.delayed ==> r.nextUnblock <= e.wake
    requires r.nextUnblock < s.modulus
    ensures r.Consistent() && r.Meaning() == Tick(c)
  {
    MeaningIsPunctual(s);
    if s.tick == s.modulus - 1 { EmptyAtWrap(s); }
    WokenAllIsTick(c, due);
    assert r.Held() == s.Held() && r.Blocked() == s.Blocked();
    SleepersAre(r, s.Meaning().sleepers);
  }

  /** Ticks that stay short of the next unblock time only move the clock. */
  lemma QuietJump(s: State, jump: nat, r: State)
    requires s.Consistent() && r == s.(tick := s.tick + jump)
    requires s.tick + jump < s.nextUnblock || jump == 0
    ensures r.Consistent() && r.Meaning() == Ticks(s.Meaning(), jump)
    ensures jump == 0 || Punctual(s.Meaning().(now := s.Meaning().now + jump))
  {
    assert r.Held() == s.Held() && r.Blocked() == s.Blocked();
    SleepersAre(r, s.Meaning().sleepers);
    if jump > 0 {
      MeaningIsPunctual(r);
      NobodyDue(s.Meaning(), jump);
    }
  }
}
