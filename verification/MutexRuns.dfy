/** A run in which a holder ends up below a waiter: two mutexes given back in the order that
    makes xQueueGenericSend ignore the drop in the giver's priority. */
module MissedYield {
  import opened Options
  import opened ListView
  import opened MutexProtocol

  const H: Id := 0
  const W1: Id := 1
  const W4: Id := 2
  const W5: Id := 3
  const A: MutexId := 0
  const B: MutexId := 1

  /** Four tasks of base priority 1, 1, 4 and 5; only the first changes. */
  function Scene(h: Task, a: Mutex, b: Mutex, ready: set<Id>, running: Id, woken: map<Id, MutexId>): State {
    State(map[H := h, W1 := Task(1, 1, 1, 0), W4 := Task(4, 4, 4, 0), W5 := Task(5, 5, 5, 0)],
          map[A := a, B := b], ready, running, woken)
  }

  function AllFree(): State { Scene(Task(1, 1, 1, 0), Mutex(1, None, []), Mutex(1, None, []), {H}, H, map[]) }
  function ATaken(): State { Scene(Task(1, 1, 1, 1), Mutex(0, Some(H), []), Mutex(1, None, []), {H}, H, map[]) }
  function BothTaken(): State { Scene(Task(1, 1, 1, 2), Mutex(0, Some(H), []), Mutex(0, Some(H), []), {H}, H, map[]) }
  function W1Ready(): State { Scene(Task(1, 1, 1, 2), Mutex(0, Some(H), []), Mutex(0, Some(H), []), {H, W1}, H, map[]) }
  function W1Running(): State {
    Scene(Task(1, 1, 1, 2), Mutex(0, Some(H), []), Mutex(0, Some(H), []), {H, W1}, W1, map[])
  }
  function W1Blocked(): State { Scene(Task(1, 1, 1, 2), Mutex(0, Some(H), [W1]), Mutex(0, Some(H), []), {H}, H, map[]) }
  function W4Running(): State {
    Scene(Task(1, 1, 1, 2), Mutex(0, Some(H), [W1]), Mutex(0, Some(H), []), {H, W4}, W4, map[])
  }
  function W4Blocked(): State {
    Scene(Task(1, 4, 4, 2), Mutex(0, Some(H), [W1]), Mutex(0, Some(H), [W4]), {H}, H, map[])
  }
  function W5Running(): State {
    Scene(Task(1, 4, 4, 2), Mutex(0, Some(H), [W1]), Mutex(0, Some(H), [W4]), {H, W5}, W5, map[])
  }
  function W5Blocked(): State {
    Scene(Task(1, 5, 5, 2), Mutex(0, Some(H), [W1]), Mutex(0, Some(H), [W5, W4]), {H}, H, map[])
  }
  function BGiven(): State {
    Scene(Task(1, 5, 5, 1), Mutex(0, Some(H), [W1]), Mutex(1, None, [W4]), {H, W5}, H, map[W5 := B])
  }
  function AGiven(): State {
    Scene(Task(1, 1, 1, 0), Mutex(1, None, []), Mutex(1, None, [W4]), {H, W5, W1}, H, map[W5 := B, W1 := A])
  }
  function BTakenAgain(): State {
    Scene(Task(1, 1, 1, 1), Mutex(1, None, []), Mutex(0, Some(H), [W4]), {H, W5, W1}, H, map[W5 := B, W1 := A])
  }

  lemma TakesA()
    ensures Leads(AllFree(), Take(A), ATaken())
  {
  }

  lemma TakesB()
    ensures Leads(ATaken(), Take(B), BothTaken())
  {
  }

  lemma W1Wakes()
    ensures Leads(BothTaken(), Wake(W1, H), W1Ready())
  {
  }

  lemma SwitchesToW1()
    ensures Leads(W1Ready(), Slice(W1), W1Running())
  {
  }

  lemma W1Blocks()
    ensures Leads(W1Running(), Block(A, H), W1Blocked())
  {
    assert InsertedAt([], 0, W1) == [W1];
    assert After(W1Running(), Block(A, H)).mutexes == W1Blocked().mutexes;
  }

  lemma W4Wakes()
    ensures Leads(W1Blocked(), Wake(W4, W4), W4Running())
  {
  }

  lemma W4Blocks()
    ensures Leads(W4Running(), Block(B, H), W4Blocked())
  {
    assert InsertedAt([], 0, W4) == [W4];
    var r := After(W4Running(), Block(B, H));
    assert r.mutexes == W4Blocked().mutexes && r.tasks == W4Blocked().tasks;
  }

  lemma W5Wakes()
    ensures Leads(W4Blocked(), Wake(W5, W5), W5Running())
  {
  }

  lemma W5Blocks()
    ensures Leads(W5Running(), Block(B, H), W5Blocked())
  {
    assert InsertedAt([W4], 0, W5) == [W5, W4];
    var r := After(W5Running(), Block(B, H));
    assert r.mutexes == W5Blocked().mutexes && r.tasks == W5Blocked().tasks;
  }

  lemma GivesB()
    ensures Leads(W5Blocked(), Give(B, H), BGiven())
  {
  }

  /** Freeing A drops the priority of its holder, and its one waiter is no higher. */
  lemma FreesA()
    ensures var f := Scene(Task(1, 1, 1, 0), Mutex(1, None, [W1]), Mutex(1, None, [W4]), {H, W5}, H, map[W5 := B]);
            Freed(BGiven(), A) == f && WakeFirst(f, A) == AGiven()
  {
    var f := Scene(Task(1, 1, 1, 0), Mutex(1, None, [W1]), Mutex(1, None, [W4]), {H, W5}, H, map[W5 := B]);
    assert Freed(BGiven(), A).tasks == f.tasks && Freed(BGiven(), A).mutexes == f.mutexes;
    var r := WakeFirst(f, A);
    assert [W1][1..] == [];
    assert r.mutexes == AGiven().mutexes && r.ready == AGiven().ready && r.woken == AGiven().woken;
  }

  lemma GivesA()
    ensures Leads(BGiven(), Give(A, H), AGiven())
  {
    FreesA();
    assert !GiveYields(BGiven(), A);
  }

  lemma TakesBAgain()
    ensures Leads(AGiven(), Take(B), BTakenAgain())
  {
  }

  function FromAGiven(): seq<Step> { [Take(B)] + [] }
  function FromBGiven(): seq<Step> { [Give(A, H)] + FromAGiven() }
  function FromW5Blocked(): seq<Step> { [Give(B, H)] + FromBGiven() }
  function FromW5Running(): seq<Step> { [Block(B, H)] + FromW5Blocked() }
  function FromW4Blocked(): seq<Step> { [Wake(W5, W5)] + FromW5Running() }
  function FromW4Running(): seq<Step> { [Block(B, H)] + FromW4Blocked() }
  function FromW1Blocked(): seq<Step> { [Wake(W4, W4)] + FromW4Running() }
  function FromW1Running(): seq<Step> { [Block(A, H)] + FromW1Blocked() }
  function FromW1Ready(): seq<Step> { [Slice(W1)] + FromW1Running() }
  function FromBothTaken(): seq<Step> { [Wake(W1, H)] + FromW1Ready() }
  function FromATaken(): seq<Step> { [Take(B)] + FromBothTaken() }
  function FromAllFree(): seq<Step> { [Take(A)] + FromATaken() }

  lemma SecondHalf()
    ensures IsRun(W4Running(), FromW4Running()) && Outcome(W4Running(), FromW4Running()) == BTakenAgain()
  {
    TakesBAgain(); Extend(AGiven(), Take(B), BTakenAgain(), []);
    GivesA(); Extend(BGiven(), Give(A, H), AGiven(), FromAGiven());
    GivesB(); Extend(W5Blocked(), Give(B, H), BGiven(), FromBGiven());
    W5Blocks(); Extend(W5Running(), Block(B, H), W5Blocked(), FromW5Blocked());
    W5Wakes(); Extend(W4Blocked(), Wake(W5, W5), W5Running(), FromW5Running());
    W4Blocks(); Extend(W4Running(), Block(B, H), W4Blocked(), FromW4Blocked());
  }

  lemma FirstHalf()
    ensures IsRun(AllFree(), FromAllFree()) && Outcome(AllFree(), FromAllFree()) == BTakenAgain()
  {
    SecondHalf();
    W4Wakes(); Extend(W1Blocked(), Wake(W4, W4), W4Running(), FromW4Running());
    W1Blocks(); Extend(W1Running(), Block(A, H), W1Blocked(), FromW1Blocked());
    SwitchesToW1(); Extend(W1Ready(), Slice(W1), W1Running(), FromW1Running());
    W1Wakes(); Extend(BothTaken(), Wake(W1, H), W1Ready(), FromW1Ready());
    TakesB(); Extend(ATaken(), Take(B), BothTaken(), FromBothTaken());
    TakesA(); Extend(AllFree(), Take(A), ATaken(), FromATaken());
  }

  lemma StartIsSound()
    ensures Donated(AllFree())
  {
    FreshIsDonated(AllFree());
  }

  lemma YieldIsMissed()
    ensures BGiven().Closed() && BGiven().tasks[H].mutexesHeld > 0 && MissesYield(BGiven(), A)
  {
    var s := BGiven();
    assert W5 in s.ready && s.Priority(W5) == 5 && s.mutexes[A].waiters == [W1];
    assert s.Priority(W1) == 1 && Drops(s, H);
  }

  lemma EndIsWrong()
    ensures var s, r := AGiven(), BTakenAgain();
            && s.running == H && W5 in s.ready && s.tasks[H].priority < s.tasks[W5].priority
            && r.mutexes[B].holder == Some(H) && r.mutexes[B].waiters == [W4]
                && r.tasks[H].priority < r.tasks[W4].priority
  {
  }

  /** From a sound state, by steps within the restrictions, the first task gives back A, goes
      on at priority 1 while a task of priority 5 is ready, and takes B again although a task
      of priority 4 waits for it. */
  lemma HolderEndsBelowAWaiter()
    ensures Donated(AllFree()) && IsRun(AllFree(), FromAllFree())
    ensures Outcome(AllFree(), FromAllFree()) == BTakenAgain()
    ensures BTakenAgain().mutexes[B].holder == Some(H) && BTakenAgain().mutexes[B].waiters == [W4]
            && BTakenAgain().tasks[H].priority < BTakenAgain().tasks[W4].priority
  {
    StartIsSound();
    FirstHalf();
    EndIsWrong();
  }
}

/** A run in which a holder ends up below a waiter because the task woken to take the mutex is
    suspended before it does: nobody else on the wait list is woken in its place. */
module SuspendedCandidate {
  import opened Options
  import opened ListView
  import opened MutexProtocol

  const L: Id := 0
  const W4: Id := 1
  const W5: Id := 2
  const W6: Id := 3
  const B: MutexId := 0

  /** Four tasks of base priority 1, 4, 5 and 6; only the first changes. */
  function Scene(l: Task, b: Mutex, ready: set<Id>, running: Id, woken: map<Id, MutexId>): State {
    State(map[L := l, W4 := Task(4, 4, 4, 0), W5 := Task(5, 5, 5, 0), W6 := Task(6, 6, 6, 0)],
          map[B := b], ready, running, woken)
  }

  function AllFree(): State { Scene(Task(1, 1, 1, 0), Mutex(1, None, []), {L}, L, map[]) }
  function BTaken(): State { Scene(Task(1, 1, 1, 1), Mutex(0, Some(L), []), {L}, L, map[]) }
  function W4Running(): State { Scene(Task(1, 1, 1, 1), Mutex(0, Some(L), []), {L, W4}, W4, map[]) }
  function W4Blocked(): State { Scene(Task(1, 4, 4, 1), Mutex(0, Some(L), [W4]), {L}, L, map[]) }
  function W5Running(): State { Scene(Task(1, 4, 4, 1), Mutex(0, Some(L), [W4]), {L, W5}, W5, map[]) }
  function W5Blocked(): State { Scene(Task(1, 5, 5, 1), Mutex(0, Some(L), [W5, W4]), {L}, L, map[]) }
  function BGiven(): State { Scene(Task(1, 1, 1, 0), Mutex(1, None, [W4]), {L, W5}, W5, map[W5 := B]) }
  function W6Running(): State { Scene(Task(1, 1, 1, 0), Mutex(1, None, [W4]), {L, W5, W6}, W6, map[W5 := B]) }
  function W5Suspended(): State { Scene(Task(1, 1, 1, 0), Mutex(1, None, [W4]), {L, W6}, W6, map[]) }
  function W6Asleep(): State { Scene(Task(1, 1, 1, 0), Mutex(1, None, [W4]), {L}, L, map[]) }
  function BTakenByL(): State { Scene(Task(1, 1, 1, 1), Mutex(0, Some(L), [W4]), {L}, L, map[]) }

  lemma TakesB()
    ensures Leads(AllFree(), Take(B), BTaken())
  {
  }

  lemma W4Wakes()
    ensures Leads(BTaken(), Wake(W4, W4), W4Running())
  {
  }

  lemma W4Blocks()
    ensures Leads(W4Running(), Block(B, L), W4Blocked())
  {
    assert InsertedAt([], 0, W4) == [W4];
    var r := After(W4Running(), Block(B, L));
    assert r.mutexes == W4Blocked().mutexes && r.tasks == W4Blocked().tasks;
  }

  lemma W5Wakes()
    ensures Leads(W4Blocked(), Wake(W5, W5), W5Running())
  {
  }

  lemma W5Blocks()
    ensures Leads(W5Running(), Block(B, L), W5Blocked())
  {
    assert InsertedAt([W4], 0, W5) == [W5, W4];
    var r := After(W5Running(), Block(B, L));
    assert r.mutexes == W5Blocked().mutexes && r.tasks == W5Blocked().tasks;
  }

  lemma FreesB()
    ensures var f := Scene(Task(1, 1, 1, 0), Mutex(1, None, [W5, W4]), {L}, L, map[]);
            Freed(W5Blocked(), B) == f && WakeFirst(f, B) == BGiven().(running := L)
  {
    var f := Scene(Task(1, 1, 1, 0), Mutex(1, None, [W5, W4]), {L}, L, map[]);
    assert Freed(W5Blocked(), B).tasks == f.tasks && Freed(W5Blocked(), B).mutexes == f.mutexes;
    var r := WakeFirst(f, B);
    assert [W5, W4][1..] == [W4];
    assert r.mutexes == BGiven().mutexes && r.ready == BGiven().ready && r.woken == BGiven().woken;
  }

  lemma GivesB()
    ensures Leads(W5Blocked(), Give(B, W5), BGiven())
  {
    FreesB();
    assert GiveYields(W5Blocked(), B);
  }

  lemma W6Wakes()
    ensures Leads(BGiven(), Wake(W6, W6), W6Running())
  {
  }

  lemma W5IsSuspended()
    ensures Leads(W6Running(), Suspend(W5, None, L), W5Suspended())
  {
  }

  lemma W6Sleeps()
    ensures Leads(W5Suspended(), Sleep(L), W6Asleep())
  {
  }

  lemma LTakesB()
    ensures Leads(W6Asleep(), Take(B), BTakenByL())
  {
  }

  function FromW6Asleep(): seq<Step> { [Take(B)] + [] }
  function FromW5Suspended(): seq<Step> { [Sleep(L)] + FromW6Asleep() }
  function FromW6Running(): seq<Step> { [Suspend(W5, None, L)] + FromW5Suspended() }
  function FromBGiven(): seq<Step> { [Wake(W6, W6)] + FromW6Running() }
  function FromW5Blocked(): seq<Step> { [Give(B, W5)] + FromBGiven() }
  function FromW5Running(): seq<Step> { [Block(B, L)] + FromW5Blocked() }
  function FromW4Blocked(): seq<Step> { [Wake(W5, W5)] + FromW5Running() }
  function FromW4Running(): seq<Step> { [Block(B, L)] + FromW4Blocked() }
  function FromBTaken(): seq<Step> { [Wake(W4, W4)] + FromW4Running() }
  function FromAllFree(): seq<Step> { [Take(B)] + FromBTaken() }

  lemma SecondHalf()
    ensures IsRun(W5Blocked(), FromW5Blocked()) && Outcome(W5Blocked(), FromW5Blocked()) == BTakenByL()
  {
    LTakesB(); Extend(W6Asleep(), Take(B), BTakenByL(), []);
    W6Sleeps(); Extend(W5Suspended(), Sleep(L), W6Asleep(), FromW6Asleep());
    W5IsSuspended(); Extend(W6Running(), Suspend(W5, None, L), W5Suspended(), FromW5Suspended());
    W6Wakes(); Extend(BGiven(), Wake(W6, W6), W6Running(), FromW6Running());
    GivesB(); Extend(W5Blocked(), Give(B, W5), BGiven(), FromBGiven());
  }

  lemma WholeRun()
    ensures IsRun(AllFree(), FromAllFree()) && Outcome(AllFree(), FromAllFree()) == BTakenByL()
  {
    SecondHalf();
    W5Blocks(); Extend(W5Running(), Block(B, L), W5Blocked(), FromW5Blocked());
    W5Wakes(); Extend(W4Blocked(), Wake(W5, W5), W5Running(), FromW5Running());
    W4Blocks(); Extend(W4Running(), Block(B, L), W4Blocked(), FromW4Blocked());
    W4Wakes(); Extend(BTaken(), Wake(W4, W4), W4Running(), FromW4Running());
    TakesB(); Extend(AllFree(), Take(B), BTaken(), FromBTaken());
  }

  lemma StartIsSound()
    ensures Donated(AllFree())
  {
    FreshIsDonated(AllFree());
  }

  lemma OnlyCandidate()
    ensures W6Running().Closed() && SoleCandidate(W6Running(), W5)
  {
    assert forall c :: c in W6Running().woken ==> c == W5;
  }

  lemma EndIsWrong()
    ensures var r := BTakenByL();
            && r.mutexes[B].holder == Some(L) && r.mutexes[B].waiters == [W4]
                && r.tasks[L].priority < r.tasks[W4].priority
  {
  }

  /** The task woken to take B is suspended; the first task then takes B at priority 1 although
      a task of priority 4 waits for it. */
  lemma HolderEndsBelowAWaiter()
    ensures Donated(AllFree()) && IsRun(AllFree(), FromAllFree()) && Outcome(AllFree(), FromAllFree()) == BTakenByL()
    ensures BTakenByL().mutexes[B].holder == Some(L) && BTakenByL().mutexes[B].waiters == [W4]
            && BTakenByL().tasks[L].priority < BTakenByL().tasks[W4].priority
  {
    StartIsSound();
    WholeRun();
    EndIsWrong();
  }
}

/** A run in which a task waits with a timeout for a mutex it holds itself: it has inherited the
    priority of another waiter, that waiter gives up first, and the assertion fails. */
module TimeoutOnOwnMutex {
  import opened Options
  import opened ListView
  import opened MutexProtocol

  const T: Id := 0
  const W: Id := 1
  const Idle: Id := 2
  const B: MutexId := 0

  /** Three tasks of base priority 1, 5 and 0; only the first changes. */
  function Scene(t: Task, b: Mutex, ready: set<Id>, running: Id): State {
    State(map[T := t, W := Task(5, 5, 5, 0), Idle := Task(0, 0, 0, 0)], map[B := b], ready, running, map[])
  }

  function AllFree(): State { Scene(Task(1, 1, 1, 0), Mutex(1, None, []), {T, Idle}, T) }
  function BTaken(): State { Scene(Task(1, 1, 1, 1), Mutex(0, Some(T), []), {T, Idle}, T) }
  function WRunning(): State { Scene(Task(1, 1, 1, 1), Mutex(0, Some(T), []), {T, W, Idle}, W) }
  function WBlocked(): State { Scene(Task(1, 5, 5, 1), Mutex(0, Some(T), [W]), {T, Idle}, T) }
  function TBlocked(): State { Scene(Task(1, 5, 5, 1), Mutex(0, Some(T), [W, T]), {Idle}, Idle) }
  function WTimedOut(): State { Scene(Task(1, 5, 5, 1), Mutex(0, Some(T), [T]), {W, Idle}, W) }
  function WAsleep(): State { Scene(Task(1, 5, 5, 1), Mutex(0, Some(T), [T]), {Idle}, Idle) }
  function TTimedOut(): State { Scene(Task(1, 5, 5, 1), Mutex(0, Some(T), []), {T, Idle}, T) }

  lemma TakesB()
    ensures Leads(AllFree(), Take(B), BTaken())
  {
  }

  lemma WWakes()
    ensures Leads(BTaken(), Wake(W, W), WRunning())
  {
  }

  lemma WBlocks()
    ensures Leads(WRunning(), Block(B, T), WBlocked())
  {
    var r := After(WRunning(), Block(B, T));
    assert InsertedAt([], 0, W) == [W];
    assert r.mutexes == WBlocked().mutexes && r.tasks == WBlocked().tasks;
  }

  /** The holder joins the wait list of its own mutex. */
  lemma TBlocks()
    ensures Leads(WBlocked(), Block(B, Idle), TBlocked())
  {
    assert PlaceFor(WBlocked(), [W], 5) == 1 by { assert [W][1..] == []; }
    assert InsertedAt([W], 1, T) == [W, T];
    assert After(WBlocked(), Block(B, Idle)).mutexes == TBlocked().mutexes;
  }

  lemma WTimesOut()
    ensures Leads(TBlocked(), TimeOut(W, B, W), WTimedOut())
  {
    assert Removed([W, T], 0) == [T];
    assert After(TBlocked(), TimeOut(W, B, W)).mutexes == WTimedOut().mutexes;
  }

  /** Nothing changes, because the holder itself heads the list at the inherited priority. */
  lemma WGivesUp()
    ensures Leads(WTimedOut(), AfterTimeout(B), WTimedOut()) && TimeoutAssertHolds(WTimedOut(), B)
  {
    assert After(WTimedOut(), AfterTimeout(B)).tasks == WTimedOut().tasks;
  }

  lemma WSleeps()
    ensures Leads(WTimedOut(), Sleep(Idle), WAsleep())
  {
  }

  lemma TTimesOut()
    ensures Leads(WAsleep(), TimeOut(T, B, T), TTimedOut())
  {
    assert Removed([T], 0) == [];
    assert After(WAsleep(), TimeOut(T, B, T)).mutexes == TTimedOut().mutexes;
  }

  function FromWAsleep(): seq<Step> { [TimeOut(T, B, T)] + [] }
  function FromWGaveUp(): seq<Step> { [Sleep(Idle)] + FromWAsleep() }
  function FromWTimedOut(): seq<Step> { [AfterTimeout(B)] + FromWGaveUp() }
  function FromTBlocked(): seq<Step> { [TimeOut(W, B, W)] + FromWTimedOut() }
  function FromWBlocked(): seq<Step> { [Block(B, Idle)] + FromTBlocked() }
  function FromWRunning(): seq<Step> { [Block(B, T)] + FromWBlocked() }
  function FromBTaken(): seq<Step> { [Wake(W, W)] + FromWRunning() }
  function FromAllFree(): seq<Step> { [Take(B)] + FromBTaken() }

  lemma WholeRun()
    ensures IsRun(AllFree(), FromAllFree()) && Outcome(AllFree(), FromAllFree()) == TTimedOut()
  {
    TTimesOut(); Extend(WAsleep(), TimeOut(T, B, T), TTimedOut(), []);
    WSleeps(); Extend(WTimedOut(), Sleep(Idle), WAsleep(), FromWAsleep());
    WGivesUp(); Extend(WTimedOut(), AfterTimeout(B), WTimedOut(), FromWGaveUp());
    WTimesOut(); Extend(TBlocked(), TimeOut(W, B, W), WTimedOut(), FromWTimedOut());
    TBlocks(); Extend(WBlocked(), Block(B, Idle), TBlocked(), FromTBlocked());
    WBlocks(); Extend(WRunning(), Block(B, T), WBlocked(), FromWBlocked());
    WWakes(); Extend(BTaken(), Wake(W, W), WRunning(), FromWRunning());
    TakesB(); Extend(AllFree(), Take(B), BTaken(), FromBTaken());
  }

  ghost predicate TimesOutAgainstAssertion(s: State, m: MutexId) {
    s.Closed() && Enabled(s, AfterTimeout(m)) && !TimeoutAssertHolds(s, m)
  }

  lemma OwnTimeout()
    ensures TimesOutAgainstAssertion(TTimedOut(), B)
  {
  }

  /** What xTaskPriorityInherit reports when the running task blocks on its own mutex. */
  predicate InheritanceReported(s: State) {
    s.running in s.tasks && s.tasks[s.running].basePriority < s.tasks[s.running].priority
  }

  lemma StartsUnused()
    ensures Unused(AllFree())
  {
  }

  /** From unused mutexes, the holder of B waits for B itself at a priority it has inherited, so
      that the wait counts as having caused inheritance; when it times out, nobody else waits
      and the assertion fails. */
  lemma AssertionFails()
    ensures Unused(AllFree()) && IsRun(AllFree(), FromAllFree()) && Outcome(AllFree(), FromAllFree()) == TTimedOut()
    ensures InheritanceReported(WBlocked()) && TimesOutAgainstAssertion(TTimedOut(), B)
  {
    StartsUnused();
    WholeRun();
    OwnTimeout();
  }
}
