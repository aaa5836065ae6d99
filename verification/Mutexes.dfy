/** Mutexes with priority inheritance (queue.c and tasks.c), as a machine whose steps are
    critical sections of the running task, ticks and interrupts. */
module MutexProtocol {
  import opened Options
  import opened ListView

  type Id = nat
  type MutexId = nat

  /** `eventPriority` is the priority encoded in the value of the task's event list item. */
  datatype Task = Task(basePriority: nat, priority: nat, eventPriority: nat, mutexesHeld: nat)

  datatype Mutex = Mutex(count: nat, holder: Option<Id>, waiters: seq<Id>)

  /** `woken` maps a task taken off the wait list of a mutex to that mutex, until it retries. */
  datatype State = State(tasks: map<Id, Task>, mutexes: map<MutexId, Mutex>, ready: set<Id>, running: Id,
                         woken: map<Id, MutexId>)
  {
    predicate Closed() {
      && running in tasks && ready <= tasks.Keys
      && (forall m :: m in mutexes ==> mutexes[m].holder.Some? ==> mutexes[m].holder.value in tasks)
      && (forall m, t :: m in mutexes && t in mutexes[m].waiters ==> t in tasks)
    }

    function Priority(t: Id): nat
      requires t in tasks
    {
      tasks[t].priority
    }

    function Held(t: Id): set<MutexId> {
      set m | m in mutexes && mutexes[m].holder == Some(t)
    }
  }

  /** t is a task the scheduler may select. */
  predicate Top(s: State, t: Id)
    requires s.Closed()
  {
    t in s.ready && forall r :: r in s.ready ==> s.Priority(r) <= s.tasks[t].priority
  }

  // ----- the three inheritance functions

  /** xTaskPriorityInherit, called by the running task. */
  function Inherited(s: State, h: Id): State
    requires s.running in s.tasks && h in s.tasks
  {
    var p := s.tasks[s.running].priority;
    if s.tasks[h].priority < p then s.(tasks := s.tasks[h := s.tasks[h].(priority := p, eventPriority := p)]) else s
  }

  /** Whether xTaskPriorityDisinherit drops the priority. */
  predicate Drops(s: State, h: Id)
    requires h in s.tasks
  {
    s.tasks[h].priority != s.tasks[h].basePriority && s.tasks[h].mutexesHeld == 1
  }

  function DisinheritedTask(k: Task): Task
    requires k.mutexesHeld > 0
  {
    var b := k.basePriority;
    if k.priority != b && k.mutexesHeld == 1 then k.(mutexesHeld := 0, priority := b, eventPriority := b)
    else k.(mutexesHeld := k.mutexesHeld - 1)
  }

  /** vTaskPriorityDisinheritAfterTimeout. */
  function TimedOutTask(k: Task, highestWaiting: nat): Task {
    var p := Larger(k.basePriority, highestWaiting);
    if k.priority != p && k.mutexesHeld == 1 then k.(priority := p, eventPriority := p) else k
  }

  /** prvGetHighestPriorityOfWaitToReceiveList. */
  function HighestWaiting(s: State, waiters: seq<Id>): nat
    requires forall t :: t in waiters ==> t in s.tasks
  {
    if waiters == [] then 0 else s.tasks[waiters[0]].eventPriority
  }

  /** What configASSERT( pxTCB != pxCurrentTCB ) in vTaskPriorityDisinheritAfterTimeout comes
      down to when the running task has timed out on m. */
  predicate TimeoutAssertHolds(s: State, m: MutexId)
    requires s.Closed() && m in s.mutexes && s.mutexes[m].holder.Some?
  {
    var h := s.mutexes[m].holder.value;
    h != s.running || s.tasks[h].mutexesHeld != 1
    || s.tasks[h].priority == Larger(s.tasks[h].basePriority, HighestWaiting(s, s.mutexes[m].waiters))
  }

  function Larger(a: nat, b: nat): nat { if a < b then b else a }

  /** vTaskPrioritySet. */
  function RePrioritised(k: Task, p: nat): Task {
    if k.basePriority == p then k
    else if k.basePriority == k.priority || p > k.priority then k.(basePriority := p, priority := p, eventPriority := p)
    else k.(basePriority := p, eventPriority := p)
  }

  /** Where vListInsert puts a task on a wait list ordered by descending priority. */
  function PlaceFor(s: State, waiters: seq<Id>, p: nat): (r: nat)
    requires forall t :: t in waiters ==> t in s.tasks
    ensures r <= |waiters|
    ensures forall i :: 0 <= i < r ==> s.tasks[waiters[i]].eventPriority >= p
    ensures r < |waiters| ==> s.tasks[waiters[r]].eventPriority < p
  {
    if waiters == [] || s.tasks[waiters[0]].eventPriority < p then 0 else 1 + PlaceFor(s, waiters[1..], p)
  }

  // ----- steps

  /** `next` is the task the scheduler selects if the step leads to a context switch.
      TimeOut takes a waiting task off the list of m when its block time ends, and
      AfterTimeout is that task giving up.  Sleep and Wake stand for blocking on anything
      else. */
  datatype Step =
    | Take(m: MutexId) | Block(m: MutexId, next: Id) | Give(m: MutexId, next: Id)
    | TimeOut(t: Id, m: MutexId, next: Id) | AfterTimeout(m: MutexId)
    | PrioritySet(t: Id, p: nat, next: Id) | Suspend(t: Id, from: Option<MutexId>, next: Id)
    | Sleep(next: Id) | Wake(t: Id, next: Id) | Slice(next: Id)

  function SwitchIf(s: State, must: bool, next: Id): State {
    if must then s.(running := next) else s
  }

  /** The critical section of xQueueSemaphoreTake: take the mutex if it is free. */
  function Taken(s: State, m: MutexId): State
    requires s.running in s.tasks && m in s.mutexes
  {
    var t := s.running;
    var retried := s.(woken := s.woken - {t});
    if s.mutexes[m].count == 0 then retried
    else retried.(mutexes := s.mutexes[m := s.mutexes[m].(count := s.mutexes[m].count - 1, holder := Some(t))],
                  tasks := s.tasks[t := s.tasks[t].(mutexesHeld := s.tasks[t].mutexesHeld + 1)])
  }

  function Enlisted(s: State, m: MutexId, t: Id): State
    requires s.Closed() && m in s.mutexes && t in s.tasks
  {
    var waiters := s.mutexes[m].waiters;
    var at := PlaceFor(s, waiters, s.tasks[t].eventPriority);
    s.(mutexes := s.mutexes[m := s.mutexes[m].(waiters := InsertedAt(waiters, at, t))],
       ready := s.ready - {t})
  }

  /** The running task donates its priority, joins the wait list and stops being ready. */
  function Blocked(s: State, m: MutexId): State
    requires s.Closed() && m in s.mutexes && s.mutexes[m].holder.Some?
  {
    Enlisted(Inherited(s, s.mutexes[m].holder.value), m, s.running)
  }

  function Freed(s: State, m: MutexId): State
    requires s.running in s.tasks && s.tasks[s.running].mutexesHeld > 0 && m in s.mutexes
  {
    s.(tasks := s.tasks[s.running := DisinheritedTask(s.tasks[s.running])],
       mutexes := s.mutexes[m := s.mutexes[m].(count := s.mutexes[m].count + 1, holder := None)])
  }

  function WakeFirst(s: State, m: MutexId): State
    requires m in s.mutexes
  {
    var waiters := s.mutexes[m].waiters;
    if waiters == [] then s
    else s.(mutexes := s.mutexes[m := s.mutexes[m].(waiters := waiters[1..])],
            ready := s.ready + {waiters[0]}, woken := s.woken[waiters[0] := m])
  }

  /** prvCopyDataToQueue on a mutex, and waking the first waiter. */
  function Given(s: State, m: MutexId): State
    requires s.running in s.tasks && s.tasks[s.running].mutexesHeld > 0 && m in s.mutexes
  {
    WakeFirst(Freed(s, m), m)
  }

  /** Whether giving m leads to a context switch: a woken task must be above the giver's new
      priority; the giver's own drop counts only if nobody was waiting. */
  predicate GiveYields(s: State, m: MutexId)
    requires s.Closed() && m in s.mutexes && s.tasks[s.running].mutexesHeld > 0
  {
    var waiters, after := s.mutexes[m].waiters, DisinheritedTask(s.tasks[s.running]);
    if waiters == [] then Drops(s, s.running)
    else if waiters[0] == s.running then false
    else s.Priority(waiters[0]) > after.priority
  }

  function Unlisted(s: State, m: MutexId, t: Id): State
    requires m in s.mutexes && t in s.mutexes[m].waiters
  {
    var waiters := s.mutexes[m].waiters;
    s.(mutexes := s.mutexes[m := s.mutexes[m].(waiters := Removed(waiters, IndexOf(waiters, t)))])
  }

  function Suspended(s: State, t: Id, from: Option<MutexId>): State
    requires from.Some? ==> from.value in s.mutexes && t in s.mutexes[from.value].waiters
  {
    (if from.Some? then Unlisted(s, from.value, t) else s).(ready := s.ready - {t}, woken := s.woken - {t})
  }

  predicate SetYields(s: State, t: Id, p: nat)
    requires s.running in s.tasks && t in s.tasks
  {
    var base := s.tasks[t].basePriority;
    if p > base then t != s.running && p > s.tasks[s.running].priority else p < base && t == s.running
  }

  predicate Switches(r: State, must: bool, next: Id)
    requires r.Closed()
  {
    must ==> Top(r, next)
  }

  predicate Waiting(s: State, t: Id) {
    exists m :: m in s.mutexes && t in s.mutexes[m].waiters
  }

  /** Each step with what the source asserts of its caller: a mutex is given back by its
      holder.  Nothing keeps a task from blocking on a mutex it holds itself.  A woken task
      goes on with the take it was blocked in. */
  ghost predicate Enabled(s: State, e: Step)
    requires s.Closed()
  {
    match e
    case Take(m) => m in s.mutexes && (s.running in s.woken ==> s.woken[s.running] == m)
    case Block(m, next) =>
      m in s.mutexes && s.mutexes[m].holder.Some? && s.running !in s.woken && Top(Blocked(s, m), next)
    case Give(m, next) =>
      && m in s.mutexes && s.running !in s.woken
      && (s.mutexes[m].count == 0 ==>
            && s.mutexes[m].holder == Some(s.running) && s.tasks[s.running].mutexesHeld > 0
            && (GiveYields(s, m) ==> Given(s, m).Closed() && Top(Given(s, m), next)))
    case TimeOut(t, m, next) =>
      && m in s.mutexes && t in s.mutexes[m].waiters
      && (var r := Unlisted(s, m, t).(ready := s.ready + {t});
          r.Closed() && (r.Priority(t) > r.Priority(r.running) ==> Top(r, next)))
    case AfterTimeout(m) => m in s.mutexes && s.running !in s.woken && s.mutexes[m].holder.Some?
    case PrioritySet(t, p, next) =>
      && t in s.tasks && s.running !in s.woken
      && (var r := s.(tasks := s.tasks[t := RePrioritised(s.tasks[t], p)]);
          r.Closed() && (SetYields(s, t, p) ==> Top(r, next)))
    case Suspend(t, from, next) =>
      && t in s.tasks && s.running !in s.woken
      && (if from.Some? then from.value in s.mutexes && t in s.mutexes[from.value].waiters else !Waiting(s, t))
      && (var r := Suspended(s, t, from); r.Closed() && (t == s.running ==> Top(r, next)))
    case Sleep(next) => s.running !in s.woken && Top(s.(ready := s.ready - {s.running}), next)
    case Wake(t, next) =>
      && t in s.tasks && t !in s.ready && !Waiting(s, t)
      && (s.Priority(t) > s.Priority(s.running) ==> Top(s.(ready := s.ready + {t}), next))
    case Slice(next) => Top(s, next)
  }

  ghost function After(s: State, e: Step): State
    requires s.Closed() && Enabled(s, e)
  {
    match e
    case Take(m) => Taken(s, m)
    case Block(m, next) => Blocked(s, m).(running := next)
    case Give(m, next) => if s.mutexes[m].count > 0 then s else SwitchIf(Given(s, m), GiveYields(s, m), next)
    case TimeOut(t, m, next) =>
      var r := Unlisted(s, m, t).(ready := s.ready + {t});
      SwitchIf(r, r.Priority(t) > r.Priority(r.running), next)
    case AfterTimeout(m) =>
      var h := s.mutexes[m].holder.value;
      s.(tasks := s.tasks[h := TimedOutTask(s.tasks[h], HighestWaiting(s, s.mutexes[m].waiters))])
    case PrioritySet(t, p, next) =>
      SwitchIf(s.(tasks := s.tasks[t := RePrioritised(s.tasks[t], p)]), SetYields(s, t, p), next)
    case Suspend(t, from, next) => SwitchIf(Suspended(s, t, from), t == s.running, next)
    case Sleep(next) => s.(ready := s.ready - {s.running}, running := next)
    case Wake(t, next) => SwitchIf(s.(ready := s.ready + {t}), s.Priority(t) > s.Priority(s.running), next)
    case Slice(next) => s.(running := next)
  }

  // ----- accounts that every step keeps

  predicate TaskSound(s: State, t: Id)
    requires t in s.tasks
  {
    var k := s.tasks[t];
    k.mutexesHeld == |s.Held(t)| && k.basePriority <= k.priority
        && (k.mutexesHeld == 0 ==> k.priority == k.basePriority)
  }

  /** A mutex has a holder iff its count is zero, tasks count the mutexes they hold, no task
      runs below its base priority and a task that holds nothing runs at it. */
  ghost predicate Accounts(s: State) {
    && s.Closed()
    && (forall m :: m in s.mutexes ==>
          s.mutexes[m].count <= 1 && (s.mutexes[m].count == 0 <==> s.mutexes[m].holder.Some?))
    && (forall t :: t in s.tasks ==> TaskSound(s, t))
  }

  /** Steps that leave every holder in place. */
  lemma HoldersKept(s: State, r: State)
    requires r.mutexes.Keys == s.mutexes.Keys
             && forall m :: m in s.mutexes ==> r.mutexes[m].holder == s.mutexes[m].holder
    ensures forall t :: r.Held(t) == s.Held(t)
  {
    forall t ensures r.Held(t) == s.Held(t) {
      assert forall m :: m in r.Held(t) <==> m in s.Held(t);
    }
  }

  /** Tasks that stay as they are, with their mutexes, stay sound. */
  lemma SameTasksSound(s: State, r: State)
    requires forall t :: t in s.tasks ==> TaskSound(s, t)
    requires r.tasks == s.tasks && r.mutexes.Keys == s.mutexes.Keys
    requires forall m :: m in s.mutexes ==> r.mutexes[m].holder == s.mutexes[m].holder
    ensures forall t :: t in r.tasks ==> TaskSound(r, t)
  {
    HoldersKept(s, r);
    forall t | t in r.tasks ensures TaskSound(r, t) { assert TaskSound(s, t); }
  }

  lemma TakenHolders(s: State, r: State, m: MutexId)
    requires m in s.mutexes && s.mutexes[m].holder == None && r.mutexes.Keys == s.mutexes.Keys
    requires r.mutexes[m].holder == Some(s.running)
    requires forall n :: n in s.mutexes && n != m ==> r.mutexes[n].holder == s.mutexes[n].holder
    ensures forall u :: u != s.running ==> r.Held(u) == s.Held(u)
    ensures |r.Held(s.running)| == |s.Held(s.running)| + 1
  {
    assert r.Held(s.running) == s.Held(s.running) + {m} && m !in s.Held(s.running);
    forall u | u != s.running ensures r.Held(u) == s.Held(u) {
      assert forall n :: n in r.Held(u) <==> n in s.Held(u);
    }
  }

  lemma TakeAccounts(s: State, m: MutexId)
    requires Accounts(s) && m in s.mutexes
    ensures Accounts(Taken(s, m))
  {
    var r := Taken(s, m);
    if s.mutexes[m].count == 0 { HoldersKept(s, r); } else { TakenHolders(s, r, m); }
    assert forall u :: u in s.tasks ==> TaskSound(s, u) && TaskSound(r, u);
  }

  lemma FreedAccounts(s: State, m: MutexId, r: State)
    requires Accounts(s) && m in s.mutexes && s.mutexes[m].holder == Some(s.running)
    requires s.tasks[s.running].mutexesHeld > 0 && r == Freed(s, m)
    ensures Accounts(r)
  {
    var t := s.running;
    assert r.Held(t) == s.Held(t) - {m} && m in s.Held(t);
    assert forall u :: u != t ==> r.Held(u) == s.Held(u);
    forall u | u in s.tasks ensures TaskSound(r, u) { assert TaskSound(s, u); }
  }

  lemma GiveAccounts(s: State, m: MutexId)
    requires Accounts(s) && m in s.mutexes && s.mutexes[m].holder == Some(s.running)
    ensures s.tasks[s.running].mutexesHeld > 0 && Accounts(Freed(s, m)) && Accounts(Given(s, m))
  {
    assert m in s.Held(s.running) && TaskSound(s, s.running);
    FreedAccounts(s, m, Freed(s, m));
    WakeAccounts(Freed(s, m), m);
  }

  lemma WakeAccounts(s: State, m: MutexId)
    requires Accounts(s) && m in s.mutexes
    ensures Accounts(WakeFirst(s, m))
  {
    SameTasksSound(s, WakeFirst(s, m));
  }

  lemma InheritAccounts(s: State, m: MutexId)
    requires Accounts(s) && m in s.mutexes && s.mutexes[m].holder.Some?
    ensures Accounts(Inherited(s, s.mutexes[m].holder.value))
  {
    var h := s.mutexes[m].holder.value;
    var r := Inherited(s, h);
    assert m in s.Held(h);
    HoldersKept(s, r);
    assert forall u :: u in s.tasks ==> TaskSound(s, u) && TaskSound(r, u);
  }

  lemma EnlistAccounts(s: State, m: MutexId, t: Id)
    requires Accounts(s) && m in s.mutexes && t in s.tasks
    ensures Accounts(Enlisted(s, m, t))
  {
    EnlistedClosed(s, m, t, Enlisted(s, m, t));
    SameTasksSound(s, Enlisted(s, m, t));
  }

  lemma EnlistedClosed(s: State, m: MutexId, t: Id, r: State)
    requires s.Closed() && m in s.mutexes && t in s.tasks && r == Enlisted(s, m, t)
    ensures r.Closed()
  {
    forall n, w | n in r.mutexes && w in r.mutexes[n].waiters ensures w in r.tasks {
      assert w == t || w in s.mutexes[n].waiters;
    }
  }

  lemma UnlistAccounts(s: State, m: MutexId, t: Id)
    requires Accounts(s) && m in s.mutexes && t in s.mutexes[m].waiters
    ensures Accounts(Unlisted(s, m, t))
  {
    SameTasksSound(s, Unlisted(s, m, t));
  }

  lemma AfterTimeoutAccounts(s: State, m: MutexId, highest: nat)
    requires Accounts(s) && m in s.mutexes && s.mutexes[m].holder.Some?
    ensures var h := s.mutexes[m].holder.value; Accounts(s.(tasks := s.tasks[h := TimedOutTask(s.tasks[h], highest)]))
  {
    var h := s.mutexes[m].holder.value;
    var r := s.(tasks := s.tasks[h := TimedOutTask(s.tasks[h], highest)]);
    assert m in s.Held(h);
    HoldersKept(s, r);
    assert forall u :: u in s.tasks ==> TaskSound(s, u) && TaskSound(r, u);
  }

  /** The waiters are in the order of the priorities in their event list items. */
  predicate EventOrdered(s: State, waiters: seq<Id>)
    requires forall t :: t in waiters ==> t in s.tasks
  {
    forall i, j :: 0 <= i < j < |waiters| ==> s.tasks[waiters[i]].eventPriority >= s.tasks[waiters[j]].eventPriority
  }

  /** p is the least priority that is neither below the base nor below any waiter. */
  predicate LeastCovering(s: State, p: nat, base: nat, waiters: seq<Id>)
    requires forall t :: t in waiters ==> t in s.tasks
  {
    && base <= p && (forall t :: t in waiters ==> s.tasks[t].eventPriority <= p)
    && (p == base || exists t :: t in waiters && s.tasks[t].eventPriority == p)
  }

  lemma HeadIsLeastCovering(s: State, base: nat, waiters: seq<Id>)
    requires (forall t :: t in waiters ==> t in s.tasks) && EventOrdered(s, waiters)
    ensures LeastCovering(s, Larger(base, HighestWaiting(s, waiters)), base, waiters)
  {
    forall t | t in waiters ensures s.tasks[t].eventPriority <= HighestWaiting(s, waiters) {
      assert waiters[IndexOf(waiters, t)] == t;
    }
    if waiters != [] { assert waiters[0] in waiters; }
  }

  /** A timeout gives back what was lent, and no more: a holder of only this mutex ends exactly
      at the least priority that covers its base and whoever still waits, its base if nobody
      does; a holder of more mutexes keeps its priority; nobody else changes. */
  lemma TimeoutGivesBack(s: State, m: MutexId)
    requires Accounts(s) && Enabled(s, AfterTimeout(m)) && EventOrdered(s, s.mutexes[m].waiters)
    requires s.tasks[s.mutexes[m].holder.value].eventPriority == s.tasks[s.mutexes[m].holder.value].priority
    ensures var r, h, waiters := After(s, AfterTimeout(m)), s.mutexes[m].holder.value, s.mutexes[m].waiters;
            var k, after := s.tasks[h], r.tasks[h];
            && r == s.(tasks := r.tasks) && OnlyTask(s, r, h)
            && after.basePriority == k.basePriority && after.mutexesHeld == k.mutexesHeld
            && (k.mutexesHeld != 1 ==> after == k)
            && (k.mutexesHeld == 1 ==>
                  LeastCovering(s, after.priority, k.basePriority, waiters) && after.eventPriority == after.priority)
            && (k.mutexesHeld == 1 && waiters == [] ==> after.priority == k.basePriority)
  {
    HeadIsLeastCovering(s, s.tasks[s.mutexes[m].holder.value].basePriority, s.mutexes[m].waiters);
  }

  lemma PrioritySetAccounts(s: State, t: Id, p: nat)
    requires Accounts(s) && t in s.tasks
    ensures Accounts(s.(tasks := s.tasks[t := RePrioritised(s.tasks[t], p)]))
  {
    var r := s.(tasks := s.tasks[t := RePrioritised(s.tasks[t], p)]);
    HoldersKept(s, r);
    assert forall u :: u in s.tasks ==> TaskSound(s, u) && TaskSound(r, u);
  }

  /** A task that times out on its own, only mutex fails the assertion exactly if it still runs
      at a priority it has inherited and nobody waits at that priority any more, or if the
      first waiter is above it. */
  lemma OwnTimeoutAssertFailsIff(s: State, m: MutexId)
    requires Accounts(s) && m in s.mutexes && s.mutexes[m].holder == Some(s.running)
    requires s.tasks[s.running].mutexesHeld == 1
    ensures var k, first := s.tasks[s.running], HighestWaiting(s, s.mutexes[m].waiters);
            !TimeoutAssertHolds(s, m) <==> first > k.priority || (k.priority > k.basePriority && first < k.priority)
  {
    assert TaskSound(s, s.running);
  }

  /** Changing who is ready, woken or running touches no account. */
  lemma SchedulingAccounts(s: State, r: State)
    requires Accounts(s) && r.tasks == s.tasks && r.mutexes == s.mutexes && r.ready <= s.tasks.Keys
             && r.running in s.tasks
    ensures Accounts(r)
  {
    SameTasksSound(s, r);
  }

  lemma BlockAccounts(s: State, m: MutexId)
    requires Accounts(s) && m in s.mutexes && s.mutexes[m].holder.Some?
    ensures Accounts(Blocked(s, m))
  {
    InheritAccounts(s, m);
    EnlistAccounts(Inherited(s, s.mutexes[m].holder.value), m, s.running);
  }

  lemma SuspendAccounts(s: State, t: Id, from: Option<MutexId>)
    requires Accounts(s) && t in s.tasks
    requires from.Some? ==> from.value in s.mutexes && t in s.mutexes[from.value].waiters
    ensures Accounts(Suspended(s, t, from))
  {
    if from.Some? { UnlistAccounts(s, from.value, t); }
    SchedulingAccounts(if from.Some? then Unlisted(s, from.value, t) else s, Suspended(s, t, from));
  }

  lemma MutexStepAccounts(s: State, e: Step)
    requires Accounts(s) && Enabled(s, e) && (e.Take? || e.Block? || e.Give?)
    ensures Accounts(After(s, e))
  {
    match e
    case Take(m) => TakeAccounts(s, m);
    case Block(m, next) =>
      BlockAccounts(s, m);
      SchedulingAccounts(Blocked(s, m), After(s, e));
    case Give(m, next) =>
      if s.mutexes[m].count == 0 {
        GiveAccounts(s, m);
        SchedulingAccounts(Given(s, m), After(s, e));
      }
  }

  lemma SchedulerStepAccounts(s: State, e: Step)
    requires Accounts(s) && Enabled(s, e) && (e.Suspend? || e.Sleep? || e.Wake? || e.Slice?)
    ensures Accounts(After(s, e))
  {
    match e
    case Suspend(t, from, next) =>
      SuspendAccounts(s, t, from);
      SchedulingAccounts(Suspended(s, t, from), After(s, e));
    case Sleep(next) => SchedulingAccounts(s, After(s, e));
    case Wake(t, next) => SchedulingAccounts(s, After(s, e));
    case Slice(next) => SchedulingAccounts(s, After(s, e));
    case _ =>
  }

  lemma TimeoutStepAccounts(s: State, e: Step)
    requires Accounts(s) && Enabled(s, e) && (e.TimeOut? || e.AfterTimeout? || e.PrioritySet?)
    ensures Accounts(After(s, e))
  {
    match e
    case TimeOut(t, m, next) =>
      UnlistAccounts(s, m, t);
      SchedulingAccounts(Unlisted(s, m, t), After(s, e));
    case AfterTimeout(m) => AfterTimeoutAccounts(s, m, HighestWaiting(s, s.mutexes[m].waiters));
    case PrioritySet(t, p, next) =>
      PrioritySetAccounts(s, t, p);
      SchedulingAccounts(s.(tasks := s.tasks[t := RePrioritised(s.tasks[t], p)]), After(s, e));
    case _ =>
  }

  /** Any step at all keeps the accounts. */
  lemma StepKeepsAccounts(s: State, e: Step)
    requires Accounts(s) && Enabled(s, e)
    ensures Accounts(After(s, e))
  {
    if e.Take? || e.Block? || e.Give? {
      MutexStepAccounts(s, e);
    } else if e.TimeOut? || e.AfterTimeout? || e.PrioritySet? {
      TimeoutStepAccounts(s, e);
    } else {
      SchedulerStepAccounts(s, e);
    }
  }

  // ----- what each step changes, told from the state before it

  /** Nothing changes but who holds m, on which list its waiters are, and these two tasks. */
  predicate OnlyAround(s: State, r: State, m: MutexId, t: Id, u: Id) {
    && r.tasks.Keys == s.tasks.Keys && r.mutexes.Keys == s.mutexes.Keys
    && (forall x :: x in s.tasks && x != t && x != u ==> r.tasks[x] == s.tasks[x])
    && (forall n :: n in s.mutexes && n != m ==> r.mutexes[n] == s.mutexes[n])
  }

  /** A take obtains the mutex exactly if it is free; the wait list stays. */
  lemma TakeChanges(s: State, m: MutexId)
    requires Accounts(s) && Enabled(s, Take(m))
    ensures var r, t := After(s, Take(m)), s.running;
            && OnlyAround(s, r, m, t, t) && r.ready == s.ready && r.running == t && r.woken == s.woken - {t}
            && r.mutexes[m].waiters == s.mutexes[m].waiters
            && r.mutexes[m].holder == (if s.mutexes[m].holder == None then Some(t) else s.mutexes[m].holder)
            && r.tasks[t].mutexesHeld == s.tasks[t].mutexesHeld + (if s.mutexes[m].holder == None then 1 else 0)
            && r.tasks[t].priority == s.tasks[t].priority && r.tasks[t].basePriority == s.tasks[t].basePriority
            && r.tasks[t].eventPriority == s.tasks[t].eventPriority
  {
  }

  /** A blocking task joins the list behind everyone at its priority or above and before all
      others, is ready no longer, and has lent the holder its priority. */
  lemma BlockChanges(s: State, m: MutexId, next: Id)
    requires Accounts(s) && Enabled(s, Block(m, next))
    ensures var r, t, h := After(s, Block(m, next)), s.running, s.mutexes[m].holder.value;
            && OnlyAround(s, r, m, h, h) && r.running == next && r.ready == s.ready - {t} && r.woken == s.woken
            && r.mutexes[m].holder == s.mutexes[m].holder && r.mutexes[m].count == s.mutexes[m].count
            && r.tasks[h].priority == Larger(s.tasks[h].priority, s.tasks[t].priority)
            && r.tasks[h].basePriority == s.tasks[h].basePriority && r.tasks[h].mutexesHeld == s.tasks[h].mutexesHeld
            && exists k: nat :: JoinedAt(r, s.mutexes[m].waiters, k, t, r.mutexes[m].waiters)
  {
    var i := Inherited(s, s.mutexes[m].holder.value);
    LentChanges(s, i, s.mutexes[m].holder.value);
    JoinChanges(i, m, s.running, Blocked(s, m));
    SwitchKeepsPlaces(s, m, Blocked(s, m), After(s, Block(m, next)));
  }

  lemma LentChanges(s: State, i: State, h: Id)
    requires s.running in s.tasks && h in s.tasks && i == Inherited(s, h)
    ensures OnlyTask(s, i, h) && i == s.(tasks := i.tasks)
    ensures i.tasks[h].priority == Larger(s.tasks[h].priority, s.tasks[s.running].priority)
    ensures i.tasks[h].basePriority == s.tasks[h].basePriority && i.tasks[h].mutexesHeld == s.tasks[h].mutexesHeld
  {
  }

  lemma JoinChanges(i: State, m: MutexId, t: Id, r: State)
    requires i.Closed() && m in i.mutexes && t in i.tasks && r == Enlisted(i, m, t)
    ensures r == i.(mutexes := r.mutexes, ready := i.ready - {t}) && r.mutexes.Keys == i.mutexes.Keys
    ensures r.mutexes[m] == i.mutexes[m].(waiters := r.mutexes[m].waiters)
    ensures forall n :: n in i.mutexes && n != m ==> r.mutexes[n] == i.mutexes[n]
    ensures exists k: nat :: JoinedAt(r, i.mutexes[m].waiters, k, t, r.mutexes[m].waiters)
  {
    var before := i.mutexes[m].waiters;
    assert JoinedAt(r, before, PlaceFor(i, before, i.tasks[t].eventPriority), t, r.mutexes[m].waiters);
  }

  lemma SwitchKeepsPlaces(s: State, m: MutexId, b: State, r: State)
    requires m in s.mutexes && m in b.mutexes && r == b.(running := r.running)
    requires exists k: nat :: JoinedAt(b, s.mutexes[m].waiters, k, s.running, b.mutexes[m].waiters)
    ensures exists k: nat :: JoinedAt(r, s.mutexes[m].waiters, k, s.running, r.mutexes[m].waiters)
  {
    var k: nat :| JoinedAt(b, s.mutexes[m].waiters, k, s.running, b.mutexes[m].waiters);
    assert JoinedAt(r, s.mutexes[m].waiters, k, s.running, r.mutexes[m].waiters);
  }

  /** t has joined a list at place k: behind its first k tasks, all at t's level or above, and
      before the next, which is below. */
  predicate JoinedAt(r: State, before: seq<Id>, k: nat, t: Id, after: seq<Id>) {
    && k <= |before| && after == before[..k] + [t] + before[k..]
    && t in r.tasks && (forall w :: w in before ==> w in r.tasks)
    && (forall i :: 0 <= i < k ==> r.tasks[before[i]].eventPriority >= r.tasks[t].eventPriority)
    && (k < |before| ==> r.tasks[before[k]].eventPriority < r.tasks[t].eventPriority)
  }

  /** A give frees the mutex, wakes its first waiter, and brings the giver down to its base
      exactly if this was its only mutex. */
  lemma GiveChanges(s: State, m: MutexId, next: Id)
    requires Accounts(s) && Enabled(s, Give(m, next)) && s.mutexes[m].count == 0
    ensures var r, t, waiters := After(s, Give(m, next)), s.running, s.mutexes[m].waiters;
            var k, after := s.tasks[t], r.tasks[t];
            && OnlyAround(s, r, m, t, t) && r.mutexes[m].holder == None && r.mutexes[m].count == 1
            && after.mutexesHeld == k.mutexesHeld - 1 && after.basePriority == k.basePriority
            && after.priority == (if k.mutexesHeld == 1 then k.basePriority else k.priority)
            && (if waiters == [] then r.mutexes[m].waiters == [] && r.ready == s.ready && r.woken == s.woken
                else r.mutexes[m].waiters == waiters[1..] && r.ready == s.ready + {waiters[0]}
                     && r.woken == s.woken[waiters[0] := m])
            && (r.running == t || r.running == next)
  {
    assert TaskSound(s, s.running);
    FreeChanges(s, m, Freed(s, m));
    FirstWokenChanges(Freed(s, m), m, Given(s, m));
  }

  lemma FreeChanges(s: State, m: MutexId, f: State)
    requires s.running in s.tasks && m in s.mutexes && s.tasks[s.running].mutexesHeld > 0 && s.mutexes[m].count == 0
    requires f == Freed(s, m)
    ensures OnlyAround(s, f, m, s.running, s.running) && f == s.(tasks := f.tasks, mutexes := f.mutexes)
    ensures f.mutexes[m] == Mutex(1, None, s.mutexes[m].waiters)
    ensures var k, after := s.tasks[s.running], f.tasks[s.running];
            && after.mutexesHeld == k.mutexesHeld - 1 && after.basePriority == k.basePriority
            && after.priority == if k.mutexesHeld == 1 then k.basePriority else k.priority
  {
  }

  lemma FirstWokenChanges(f: State, m: MutexId, r: State)
    requires m in f.mutexes && r == WakeFirst(f, m)
    ensures var waiters := f.mutexes[m].waiters;
            if waiters == [] then r == f
            else && r == f.(mutexes := r.mutexes, ready := f.ready + {waiters[0]}, woken := f.woken[waiters[0] := m])
                 && r.mutexes.Keys == f.mutexes.Keys && r.mutexes[m] == f.mutexes[m].(waiters := waiters[1..])
                 && forall n :: n in f.mutexes && n != m ==> r.mutexes[n] == f.mutexes[n]
  {
  }

  /** A give of a free mutex does nothing. */
  lemma GiveOfFreeChangesNothing(s: State, m: MutexId, next: Id)
    requires Accounts(s) && Enabled(s, Give(m, next)) && s.mutexes[m].count > 0
    ensures After(s, Give(m, next)) == s
  {
  }

  /** A task whose block time ends leaves its list, which keeps its order, and is ready; it runs
      at once exactly if it is above the running task. */
  lemma TimeOutChanges(s: State, t: Id, m: MutexId, next: Id)
    requires Accounts(s) && Enabled(s, TimeOut(t, m, next))
    ensures var r := After(s, TimeOut(t, m, next));
            && r.tasks == s.tasks && OnlyAround(s, r, m, t, t) && r.ready == s.ready + {t} && r.woken == s.woken
            && r.mutexes[m].holder == s.mutexes[m].holder && r.mutexes[m].count == s.mutexes[m].count
            && LeftList(s.mutexes[m].waiters, t, r.mutexes[m].waiters)
            && r.running == if s.tasks[t].priority > s.tasks[s.running].priority then next else s.running
  {
    LeavesList(s, m, t);
  }

  /** t is gone from a list whose order is otherwise kept. */
  predicate LeftList(waiters: seq<Id>, t: Id, after: seq<Id>) {
    exists k: nat :: k < |waiters| && waiters[k] == t && after == waiters[..k] + waiters[k + 1..]
  }

  lemma LeavesList(s: State, m: MutexId, t: Id)
    requires m in s.mutexes && t in s.mutexes[m].waiters
    ensures var r := Unlisted(s, m, t);
            && r == s.(mutexes := r.mutexes) && r.mutexes.Keys == s.mutexes.Keys
            && r.mutexes[m] == s.mutexes[m].(waiters := r.mutexes[m].waiters)
            && LeftList(s.mutexes[m].waiters, t, r.mutexes[m].waiters)
            && forall n :: n in s.mutexes && n != m ==> r.mutexes[n] == s.mutexes[n]
  {
    var k := IndexOf(s.mutexes[m].waiters, t);
    assert s.mutexes[m].waiters[k] == t;
  }

  /** Setting a priority by hand sets the base; the effective priority follows unless it is
      inherited and higher.  A switch is asked for exactly if another task's new base is
      raised above the running task's priority, or the running task's own base is lowered. */
  lemma PrioritySetChanges(s: State, t: Id, p: nat, next: Id)
    requires Accounts(s) && Enabled(s, PrioritySet(t, p, next))
    ensures var r, k := After(s, PrioritySet(t, p, next)), s.tasks[t];
            && OnlyTask(s, r, t) && r == s.(tasks := r.tasks, running := r.running)
            && r.tasks[t].basePriority == p && r.tasks[t].mutexesHeld == k.mutexesHeld
            && r.tasks[t].priority == (if k.priority == k.basePriority then p else Larger(p, k.priority))
            && (p != k.basePriority && r.tasks[t].priority == p ==> r.tasks[t].eventPriority == p)
            && r.running == if (t != s.running && p > k.basePriority && p > s.tasks[s.running].priority)
                               || (t == s.running && p < k.basePriority) then next else s.running
  {
    assert TaskSound(s, t);
  }

  /** Without a switch a top task stays one. */
  lemma PrioritySetKeepsTop(s: State, t: Id, p: nat, next: Id)
    requires Accounts(s) && Enabled(s, PrioritySet(t, p, next)) && Top(s, s.running)
    ensures var r := After(s, PrioritySet(t, p, next)); r.Closed() && Top(r, r.running)
  {
    PrioritySetAccounts(s, t, p);
    assert TaskSound(s, t);
  }

  /** A suspended task is neither ready nor woken nor on the list it waited on. */
  lemma SuspendChanges(s: State, t: Id, from: Option<MutexId>, next: Id)
    requires Accounts(s) && Enabled(s, Suspend(t, from, next))
    ensures var r := After(s, Suspend(t, from, next));
            && r.tasks == s.tasks && r.ready == s.ready - {t} && r.woken == s.woken - {t}
            && r.running == (if t == s.running then next else s.running)
            && (from == None ==> r.mutexes == s.mutexes)
            && (from.Some? ==>
                  && OnlyAround(s, r, from.value, t, t)
                  && r.mutexes[from.value].holder == s.mutexes[from.value].holder
                  && LeftList(s.mutexes[from.value].waiters, t, r.mutexes[from.value].waiters))
  {
    if from.Some? { LeavesList(s, from.value, t); }
  }

  /** Sleeping, waking and time slices change only who is ready and who runs. */
  lemma ReadyingChanges(s: State, e: Step)
    requires Accounts(s) && Enabled(s, e) && (e.Sleep? || e.Wake? || e.Slice?)
    ensures var r := After(s, e);
            && r == s.(ready := r.ready, running := r.running)
            && r.ready == (if e.Sleep? then s.ready - {s.running} else if e.Wake? then s.ready + {e.t} else s.ready)
            && r.running == if e.Wake? && s.tasks[e.t].priority <= s.tasks[s.running].priority then s.running
                            else e.next
  {
  }

  // ----- donation

  /** No task blocks on a mutex while it holds one, so that none times out on a mutex it holds
      either, and no priority is set by hand. */
  predicate Restricted(s: State, e: Step)
    requires s.running in s.tasks
  {
    match e
    case Block(m, next) => s.tasks[s.running].mutexesHeld == 0
    case AfterTimeout(m) => m in s.mutexes ==> s.mutexes[m].holder != Some(s.running)
    case PrioritySet(t, p, next) => false
    case _ => true
  }

  /** A wait list holds tasks that are not ready and hold nothing, in descending priority. */
  ghost predicate ListSound(s: State, waiters: seq<Id>)
    requires s.Closed()
  {
    && Distinct(waiters) && (forall t :: t in waiters ==> t in s.tasks && t !in s.ready && s.tasks[t].mutexesHeld == 0)
    && Descending(s, waiters)
  }

  predicate OneListEach(s: State) {
    forall m, n, t ::
      m in s.mutexes && n in s.mutexes && t in s.mutexes[m].waiters && t in s.mutexes[n].waiters ==> m == n
  }

  /** ... and a task is on at most one of them. */
  ghost predicate ListsSound(s: State)
    requires s.Closed()
  {
    && (forall t :: t in s.tasks ==> s.tasks[t].eventPriority == s.tasks[t].priority)
    && (forall m :: m in s.mutexes ==> ListSound(s, s.mutexes[m].waiters))
    && OneListEach(s)
    && (forall t :: t in s.woken ==> t in s.ready && s.tasks[t].mutexesHeld == 0)
  }

  predicate Descending(s: State, waiters: seq<Id>)
    requires forall t :: t in waiters ==> t in s.tasks
  {
    forall i, j :: 0 <= i < j < |waiters| ==> s.Priority(waiters[i]) >= s.Priority(waiters[j])
  }

  predicate AtLeastAll(s: State, t: Id, waiters: seq<Id>)
    requires t in s.tasks && forall w :: w in waiters ==> w in s.tasks
  {
    forall w :: w in waiters ==> s.Priority(w) <= s.Priority(t)
  }

  /** c has been woken to take m and outranks everyone still waiting for it. */
  predicate Candidate(s: State, m: MutexId, c: Id)
    requires s.Closed() && m in s.mutexes
  {
    c in s.woken && s.woken[c] == m && c in s.tasks && AtLeastAll(s, c, s.mutexes[m].waiters)
  }

  /** A held mutex lends its holder the priority of every waiter; a free mutex that is still
      waited for has a candidate. */
  ghost predicate Covered(s: State, m: MutexId)
    requires s.Closed() && m in s.mutexes
  {
    match s.mutexes[m].holder
    case Some(h) => AtLeastAll(s, h, s.mutexes[m].waiters)
    case None => s.mutexes[m].waiters != [] ==> exists c :: Candidate(s, m, c)
  }

  ghost predicate AllCovered(s: State)
    requires s.Closed()
  {
    forall m :: m in s.mutexes ==> Covered(s, m)
  }

  ghost predicate Donated(s: State) {
    Accounts(s) && ListsSound(s) && AllCovered(s) && Top(s, s.running)
  }

  /** No mutex has been used, and every task runs at its base priority. */
  predicate Unused(s: State) {
    && s.Closed() && s.woken == map[]
    && (forall m :: m in s.mutexes ==> s.mutexes[m] == Mutex(1, None, []))
    && (forall t :: t in s.tasks ==> var b := s.tasks[t].basePriority; s.tasks[t] == Task(b, b, b, 0))
  }

  lemma FreshIsDonated(s: State)
    requires Unused(s) && Top(s, s.running)
    ensures Donated(s)
  {
    forall t | t in s.tasks ensures TaskSound(s, t) { assert s.Held(t) == {}; }
    forall m | m in s.mutexes ensures ListSound(s, s.mutexes[m].waiters) && Covered(s, m) {
      assert s.mutexes[m].waiters == [];
    }
  }

  /** The giver drops its priority below a ready task, but the first waiter on the mutex it
      gives is no higher than its new priority, so no switch is asked for. */
  predicate MissesYield(s: State, m: MutexId)
    requires s.Closed() && m in s.mutexes && s.tasks[s.running].mutexesHeld > 0
  {
    var base, waiters := s.tasks[s.running].basePriority, s.mutexes[m].waiters;
    && Drops(s, s.running) && waiters != [] && s.Priority(waiters[0]) <= base
    && exists t :: t in s.ready && t != s.running && s.Priority(t) > base
  }

  /** t is the only task woken to take a free mutex that outranks those still waiting for it,
      so that suspending t leaves them without one. */
  ghost predicate SoleCandidate(s: State, t: Id)
    requires s.Closed()
  {
    && t in s.woken && s.woken[t] in s.mutexes
    && s.mutexes[s.woken[t]].holder == None && s.mutexes[s.woken[t]].waiters != []
    && forall c :: Candidate(s, s.woken[t], c) ==> c == t
  }

  // ----- what a step that changes task x leaves alone

  predicate OnlyTask(s: State, r: State, x: Id) {
    && r.tasks.Keys == s.tasks.Keys && r.mutexes.Keys == s.mutexes.Keys
    && (forall t :: t in s.tasks && t != x ==> r.tasks[t] == s.tasks[t])
  }

  predicate NotListed(s: State, x: Id) {
    forall m :: m in s.mutexes ==> x !in s.mutexes[m].waiters
  }

  lemma ListStill(s: State, r: State, x: Id, waiters: seq<Id>)
    requires s.Closed() && r.Closed() && OnlyTask(s, r, x) && x !in waiters && r.ready <= s.ready
    requires ListSound(s, waiters)
    ensures ListSound(r, waiters)
  {
  }

  lemma ListsStill(s: State, r: State, x: Id)
    requires s.Closed() && r.Closed() && OnlyTask(s, r, x) && NotListed(s, x) && ListsSound(s)
    requires x in s.tasks ==> r.tasks[x].eventPriority == r.tasks[x].priority
    requires forall m :: m in s.mutexes ==> r.mutexes[m].waiters == s.mutexes[m].waiters
    requires r.ready <= s.ready && forall t :: t in r.woken ==> t in s.woken && t != x && t in r.ready
    ensures ListsSound(r)
  {
    forall m | m in r.mutexes ensures ListSound(r, r.mutexes[m].waiters) { ListStill(s, r, x, s.mutexes[m].waiters); }
  }

  lemma CoverStill(s: State, r: State, x: Id, m: MutexId)
    requires s.Closed() && r.Closed() && OnlyTask(s, r, x) && m in s.mutexes && x !in s.mutexes[m].waiters
    requires Covered(s, m) && r.mutexes[m].holder == s.mutexes[m].holder
    requires forall w :: w in r.mutexes[m].waiters ==> w in s.mutexes[m].waiters
    requires s.mutexes[m].holder == Some(x) ==> r.tasks[x].priority >= s.tasks[x].priority
    requires s.mutexes[m].holder == None ==>
               forall c :: c in s.woken && s.woken[c] == m ==> c != x && c in r.woken && r.woken[c] == m
    ensures Covered(r, m)
  {
    if s.mutexes[m].holder == None && r.mutexes[m].waiters != [] {
      assert r.mutexes[m].waiters[0] in s.mutexes[m].waiters;
      var c :| Candidate(s, m, c);
      assert Candidate(r, m, c);
    }
  }

  lemma HolderIsNotWaiting(s: State, m: MutexId)
    requires Accounts(s) && ListsSound(s) && m in s.mutexes && s.mutexes[m].holder.Some?
    ensures var h := s.mutexes[m].holder.value;
            s.tasks[h].mutexesHeld > 0 && h !in s.woken && NotListed(s, h)
  {
    var h := s.mutexes[m].holder.value;
    assert m in s.Held(h) && TaskSound(s, h);
    forall n | n in s.mutexes ensures h !in s.mutexes[n].waiters { assert ListSound(s, s.mutexes[n].waiters); }
  }

  lemma ReadyIsNotWaiting(s: State, t: Id)
    requires s.Closed() && ListsSound(s) && t in s.ready
    ensures NotListed(s, t)
  {
    forall n | n in s.mutexes ensures t !in s.mutexes[n].waiters { assert ListSound(s, s.mutexes[n].waiters); }
  }

  // ----- each step keeps donation

  /** What a take changes: the accounts of the running task, the holder of m if it was free,
      and the running task's place among the woken. */
  predicate TakeEffect(s: State, r: State, m: MutexId)
    requires s.running in s.tasks && m in s.mutexes
  {
    && OnlyTask(s, r, s.running) && r.ready == s.ready && r.running == s.running && r.woken == s.woken - {s.running}
    && r.tasks[s.running].priority == s.tasks[s.running].priority
    && r.tasks[s.running].eventPriority == s.tasks[s.running].eventPriority
    && (forall n :: n in s.mutexes ==> r.mutexes[n].waiters == s.mutexes[n].waiters)
    && (forall n :: n in s.mutexes && n != m ==> r.mutexes[n].holder == s.mutexes[n].holder)
    && r.mutexes[m].holder == if s.mutexes[m].count == 0 then s.mutexes[m].holder else Some(s.running)
  }

  lemma TakeDonated(s: State, m: MutexId, r: State)
    requires Donated(s) && Enabled(s, Take(m)) && r == Taken(s, m)
    ensures Donated(r)
  {
    TakeAccounts(s, m);
    TakeEffects(s, r, m);
    TakeLists(s, r, m);
    TakeCoversAll(s, r, m);
  }

  lemma TakeEffects(s: State, r: State, m: MutexId)
    requires s.running in s.tasks && m in s.mutexes && r == Taken(s, m)
    ensures TakeEffect(s, r, m)
  {
  }

  lemma TakeCoversAll(s: State, r: State, m: MutexId)
    requires s.Closed() && ListsSound(s) && Top(s, s.running) && m in s.mutexes && AllCovered(s)
    requires s.running in s.woken ==> s.woken[s.running] == m
    requires s.mutexes[m].count == 0 <==> s.mutexes[m].holder.Some?
    requires TakeEffect(s, r, m) && r.Closed()
    ensures AllCovered(r)
  {
    forall n | n in r.mutexes ensures Covered(r, n) { TakeCovers(s, r, m, n); }
  }

  lemma TakeLists(s: State, r: State, m: MutexId)
    requires s.Closed() && ListsSound(s) && Top(s, s.running) && m in s.mutexes && TakeEffect(s, r, m) && r.Closed()
    ensures ListsSound(r) && Top(r, r.running)
  {
    ReadyIsNotWaiting(s, s.running);
    ListsStill(s, r, s.running);
  }

  lemma TakeCovers(s: State, r: State, m: MutexId, n: MutexId)
    requires s.Closed() && ListsSound(s) && Top(s, s.running) && m in s.mutexes && n in s.mutexes && Covered(s, n)
    requires s.running in s.woken ==> s.woken[s.running] == m
    requires s.mutexes[m].count == 0 <==> s.mutexes[m].holder.Some?
    requires TakeEffect(s, r, m) && r.Closed()
    ensures Covered(r, n)
  {
    ReadyIsNotWaiting(s, s.running);
    if n != m || s.mutexes[m].holder.Some? { CoverStill(s, r, s.running, n); } else { TakerCovers(s, r, m); }
  }

  /** The taker is a top task, so it outranks the candidate and everyone the candidate does. */
  lemma TakerCovers(s: State, r: State, m: MutexId)
    requires s.Closed() && ListsSound(s) && Top(s, s.running) && m in s.mutexes && Covered(s, m)
    requires s.mutexes[m].holder == None && s.mutexes[m].count != 0 && NotListed(s, s.running)
    requires TakeEffect(s, r, m) && r.Closed()
    ensures Covered(r, m)
  {
    if s.mutexes[m].waiters != [] {
      var c :| Candidate(s, m, c);
      assert c in s.ready && s.Priority(c) <= s.Priority(s.running);
    }
  }

  /** Only the priority of h has changed, upwards. */
  predicate Raised(s: State, r: State, h: Id) {
    && h in s.tasks && h in r.tasks && OnlyTask(s, r, h) && r == s.(tasks := r.tasks)
    && r.tasks[h].priority >= s.tasks[h].priority && r.tasks[h].eventPriority == r.tasks[h].priority
  }

  lemma InheritEffects(s: State, r: State, h: Id)
    requires s.running in s.tasks && h in s.tasks && r == Inherited(s, h)
    requires s.tasks[h].eventPriority == s.tasks[h].priority
    ensures Raised(s, r, h) && r.tasks[h].priority >= r.tasks[s.running].priority
    ensures h != s.running ==> r.tasks[s.running] == s.tasks[s.running]
  {
  }

  lemma InheritDonated(s: State, m: MutexId, r: State)
    requires Accounts(s) && ListsSound(s) && AllCovered(s)
    requires m in s.mutexes && s.mutexes[m].holder.Some? && r == Inherited(s, s.mutexes[m].holder.value)
    ensures Accounts(r) && ListsSound(r) && AllCovered(r)
  {
    InheritAccounts(s, m);
    HolderIsNotWaiting(s, m);
    InheritEffects(s, r, s.mutexes[m].holder.value);
    RaisedDonated(s, r, s.mutexes[m].holder.value);
  }

  /** Raising the priority of a task that is neither waiting nor woken keeps everyone covered. */
  lemma RaisedDonated(s: State, r: State, h: Id)
    requires s.Closed() && ListsSound(s) && AllCovered(s) && NotListed(s, h) && h !in s.woken && Raised(s, r, h)
             && r.Closed()
    ensures ListsSound(r) && AllCovered(r)
  {
    ListsStill(s, r, h);
    forall n | n in r.mutexes ensures Covered(r, n) { CoverStill(s, r, h, n); }
  }

  /** A running task that holds nothing joins the wait list of m, whose holder outranks it. */
  lemma EnlistDonated(s: State, m: MutexId, r: State)
    requires Accounts(s) && ListsSound(s) && AllCovered(s)
    requires m in s.mutexes && s.mutexes[m].holder.Some?
    requires s.running in s.ready && s.running !in s.woken && s.tasks[s.running].mutexesHeld == 0
    requires s.Priority(s.mutexes[m].holder.value) >= s.Priority(s.running)
    requires r == Enlisted(s, m, s.running)
    ensures Accounts(r) && ListsSound(r) && AllCovered(r)
  {
    EnlistAccounts(s, m, s.running);
    ReadyIsNotWaiting(s, s.running);
    EnlistEffects(s, m, s.running, r);
    EnlistLists(s, m, s.running, r);
    EnlistCovers(s, m, r);
  }

  /** t has joined the wait list of m, in its place, and is no longer ready. */
  ghost predicate EnlistEffect(s: State, m: MutexId, t: Id, r: State)
    requires s.Closed() && m in s.mutexes && t in s.tasks
  {
    && r == s.(mutexes := r.mutexes, ready := s.ready - {t}) && r.mutexes.Keys == s.mutexes.Keys && r.Closed()
    && (forall n :: n in s.mutexes ==> r.mutexes[n].holder == s.mutexes[n].holder)
    && (forall n :: n in s.mutexes && n != m ==> r.mutexes[n].waiters == s.mutexes[n].waiters)
    && (forall w :: w in r.mutexes[m].waiters <==> w in s.mutexes[m].waiters || w == t)
    && Distinct(r.mutexes[m].waiters) && Descending(s, r.mutexes[m].waiters)
  }

  lemma EnlistEffects(s: State, m: MutexId, t: Id, r: State)
    requires s.Closed() && m in s.mutexes && t in s.tasks && t !in s.mutexes[m].waiters && r == Enlisted(s, m, t)
    requires Distinct(s.mutexes[m].waiters) && Descending(s, s.mutexes[m].waiters)
    requires forall w :: w in s.tasks ==> s.tasks[w].eventPriority == s.tasks[w].priority
    ensures EnlistEffect(s, m, t, r)
  {
    var waiters := s.mutexes[m].waiters;
    InsertedFacts(waiters, PlaceFor(s, waiters, s.tasks[t].eventPriority), t);
    InsertDescending(s, waiters, PlaceFor(s, waiters, s.tasks[t].eventPriority), t);
  }

  lemma InsertDescending(s: State, waiters: seq<Id>, p: nat, t: Id)
    requires t in s.tasks && (forall w :: w in waiters ==> w in s.tasks) && Descending(s, waiters) && p <= |waiters|
    requires forall i :: 0 <= i < p ==> s.Priority(waiters[i]) >= s.Priority(t)
    requires forall i :: p <= i < |waiters| ==> s.Priority(t) >= s.Priority(waiters[i])
    requires forall w :: w in InsertedAt(waiters, p, t) ==> w in s.tasks
    ensures Descending(s, InsertedAt(waiters, p, t))
  {
    var r := InsertedAt(waiters, p, t);
    forall i, j | 0 <= i < j < |r| ensures s.Priority(r[i]) >= s.Priority(r[j]) {
      assert r[i] == if i < p then waiters[i] else if i == p then t else waiters[i-1];
      assert r[j] == if j < p then waiters[j] else if j == p then t else waiters[j-1];
    }
  }

  lemma EnlistLists(s: State, m: MutexId, t: Id, r: State)
    requires s.Closed() && ListsSound(s) && m in s.mutexes && t in s.ready && t !in s.woken
             && s.tasks[t].mutexesHeld == 0
    requires NotListed(s, t) && EnlistEffect(s, m, t, r)
    ensures ListsSound(r)
  {
    EnlistEach(s, m, t, r);
    EnlistOnce(s, m, t, r);
  }

  lemma EnlistEach(s: State, m: MutexId, t: Id, r: State)
    requires s.Closed() && m in s.mutexes && t in s.ready && s.tasks[t].mutexesHeld == 0 && EnlistEffect(s, m, t, r)
    requires forall n :: n in s.mutexes ==> ListSound(s, s.mutexes[n].waiters)
    ensures forall n :: n in r.mutexes ==> ListSound(r, r.mutexes[n].waiters)
  {
    forall n | n in r.mutexes ensures ListSound(r, r.mutexes[n].waiters) { EnlistList(s, m, t, r, n); }
  }

  lemma EnlistList(s: State, m: MutexId, t: Id, r: State, n: MutexId)
    requires s.Closed() && m in s.mutexes && t in s.ready && s.tasks[t].mutexesHeld == 0 && EnlistEffect(s, m, t, r)
    requires n in s.mutexes && ListSound(s, s.mutexes[m].waiters) && ListSound(s, s.mutexes[n].waiters)
    ensures ListSound(r, r.mutexes[n].waiters)
  {
  }

  lemma EnlistOnce(s: State, m: MutexId, t: Id, r: State)
    requires s.Closed() && m in s.mutexes && t in s.tasks && NotListed(s, t) && OneListEach(s)
             && EnlistEffect(s, m, t, r)
    ensures OneListEach(r)
  {
  }

  lemma EnlistCovers(s: State, m: MutexId, r: State)
    requires s.Closed() && m in s.mutexes && AllCovered(s) && NotListed(s, s.running)
    requires s.mutexes[m].holder.Some? && s.running !in s.woken && EnlistEffect(s, m, s.running, r)
    requires s.Priority(s.mutexes[m].holder.value) >= s.Priority(s.running)
    ensures AllCovered(r)
  {
    forall n | n in r.mutexes ensures Covered(r, n) {
      assert Covered(s, n);
      if n != m { CoverStill(s, r, s.running, n); }
    }
  }

  /** Switching to a top task, or changing nothing else, completes a step. */
  lemma SwitchDonated(s: State, r: State)
    requires Accounts(s) && ListsSound(s) && AllCovered(s)
    requires r == s.(running := r.running) && r.running in s.tasks && Top(s, r.running)
    ensures Donated(r)
  {
    SchedulingAccounts(s, r);
    forall m | m in r.mutexes ensures ListSound(r, r.mutexes[m].waiters) { assert ListSound(s, s.mutexes[m].waiters); }
    forall m | m in r.mutexes ensures Covered(r, m) {
      assert Covered(s, m);
      if s.mutexes[m].holder == None && s.mutexes[m].waiters != [] {
        var c :| Candidate(s, m, c);
        assert Candidate(r, m, c);
      }
    }
  }

  lemma BlockDonated(s: State, m: MutexId, next: Id)
    requires Donated(s) && Enabled(s, Block(m, next)) && Restricted(s, Block(m, next))
    ensures Donated(After(s, Block(m, next)))
  {
    var h := s.mutexes[m].holder.value;
    var i := Inherited(s, h);
    InheritDonated(s, m, i);
    InheritEffects(s, i, h);
    EnlistDonated(i, m, Blocked(s, m));
    SwitchDonated(Blocked(s, m), After(s, Block(m, next)));
  }

  // ----- giving a mutex back

  /** What disinheriting and freeing m change. */
  predicate FreeEffect(s: State, r: State, m: MutexId)
    requires s.running in s.tasks && m in s.mutexes
  {
    && r == s.(tasks := r.tasks, mutexes := r.mutexes) && OnlyTask(s, r, s.running)
    && r.tasks[s.running].priority
        == (if Drops(s, s.running) then s.tasks[s.running].basePriority else s.tasks[s.running].priority)
    && (s.tasks[s.running].eventPriority == s.tasks[s.running].priority ==>
        r.tasks[s.running].eventPriority == r.tasks[s.running].priority)
    && (forall n :: n in s.mutexes ==> r.mutexes[n].waiters == s.mutexes[n].waiters)
    && (forall n :: n in s.mutexes && n != m ==> r.mutexes[n].holder == s.mutexes[n].holder)
    && r.mutexes[m].holder == None
  }

  lemma FreeEffects(s: State, r: State, m: MutexId)
    requires s.running in s.tasks && m in s.mutexes && s.tasks[s.running].mutexesHeld > 0 && r == Freed(s, m)
    ensures FreeEffect(s, r, m)
  {
  }

  /** A task that gives back its only mutex covers no other. */
  lemma DropsOnlyWithLast(s: State, m: MutexId, n: MutexId)
    requires Accounts(s) && m in s.mutexes && n in s.mutexes && m != n
    requires s.mutexes[m].holder == Some(s.running) && s.mutexes[n].holder == Some(s.running)
    ensures !Drops(s, s.running)
  {
    assert TaskSound(s, s.running);
    TwoHeld(s, s.running, m, n);
  }

  lemma TwoHeld(s: State, t: Id, m: MutexId, n: MutexId)
    requires m in s.mutexes && n in s.mutexes && m != n && s.mutexes[m].holder == Some(t)
             && s.mutexes[n].holder == Some(t)
    ensures |s.Held(t)| >= 2
  {
    assert {m, n} <= s.Held(t);
    assert |s.Held(t) - {m, n}| == |s.Held(t)| - |{m, n}|;
  }

  /** After freeing, every other mutex is still covered. */
  lemma FreeCovers(s: State, r: State, m: MutexId, n: MutexId)
    requires Accounts(s) && ListsSound(s) && AllCovered(s) && s.running in s.ready && s.running !in s.woken
    requires m in s.mutexes && s.mutexes[m].holder == Some(s.running) && FreeEffect(s, r, m) && r.Closed()
    requires n in s.mutexes && n != m
    ensures Covered(r, n)
  {
    ReadyIsNotWaiting(s, s.running);
    if s.mutexes[n].holder == Some(s.running) { DropsOnlyWithLast(s, m, n); }
    CoverStill(s, r, s.running, n);
  }

  lemma FreeDonated(s: State, r: State, m: MutexId)
    requires Accounts(s) && ListsSound(s) && AllCovered(s) && s.running in s.ready && s.running !in s.woken
    requires m in s.mutexes && s.mutexes[m].holder == Some(s.running) && FreeEffect(s, r, m) && r.Closed()
    ensures ListsSound(r) && forall n :: n in s.mutexes && n != m ==> Covered(r, n)
  {
    ReadyIsNotWaiting(s, s.running);
    ListsStill(s, r, s.running);
    forall n | n in s.mutexes && n != m ensures Covered(r, n) { FreeCovers(s, r, m, n); }
  }

  /** Waking the first waiter of a free mutex makes it the candidate for the rest. */
  lemma WakeFirstDonated(s: State, m: MutexId, r: State)
    requires s.Closed() && ListsSound(s) && m in s.mutexes && s.mutexes[m].holder == None
    requires (forall n :: n in s.mutexes && n != m ==> Covered(s, n)) && r == WakeFirst(s, m) && r.Closed()
    ensures ListsSound(r) && AllCovered(r)
  {
    if s.mutexes[m].waiters != [] {
      var t := s.mutexes[m].waiters[0];
      WakeFirstLists(s, m, r);
      forall n | n in r.mutexes ensures Covered(r, n) {
        if n == m { FirstIsCandidate(s, m, r); } else { WakeFirstCovers(s, m, r, n); }
      }
    } else {
      assert Covered(r, m);
    }
  }

  lemma WakeFirstLists(s: State, m: MutexId, r: State)
    requires s.Closed() && ListsSound(s) && m in s.mutexes && s.mutexes[m].waiters != [] && r == WakeFirst(s, m)
             && r.Closed()
    ensures ListsSound(r)
  {
    forall n | n in r.mutexes ensures ListSound(r, r.mutexes[n].waiters) { WakeFirstList(s, m, r, n); }
  }

  lemma WakeFirstList(s: State, m: MutexId, r: State, n: MutexId)
    requires s.Closed() && ListsSound(s) && m in s.mutexes && s.mutexes[m].waiters != [] && r == WakeFirst(s, m)
             && r.Closed()
    requires n in s.mutexes
    ensures ListSound(r, r.mutexes[n].waiters)
  {
    assert ListSound(s, s.mutexes[n].waiters);
    assert s.mutexes[m].waiters[0] in s.mutexes[m].waiters;
  }

  lemma FirstIsCandidate(s: State, m: MutexId, r: State)
    requires s.Closed() && ListsSound(s) && m in s.mutexes && s.mutexes[m].holder == None
    requires s.mutexes[m].waiters != [] && r == WakeFirst(s, m) && r.Closed()
    ensures Covered(r, m)
  {
    var waiters := s.mutexes[m].waiters;
    assert ListSound(s, waiters);
    forall w | w in waiters[1..] ensures s.Priority(w) <= s.Priority(waiters[0]) {
      var i := IndexOf(waiters[1..], w);
      assert waiters[i + 1] == w;
    }
    assert Candidate(r, m, waiters[0]);
  }

  lemma WakeFirstCovers(s: State, m: MutexId, r: State, n: MutexId)
    requires s.Closed() && ListsSound(s) && m in s.mutexes && s.mutexes[m].waiters != [] && r == WakeFirst(s, m)
             && r.Closed()
    requires n in s.mutexes && n != m && Covered(s, n)
    ensures Covered(r, n)
  {
    var t := s.mutexes[m].waiters[0];
    assert ListSound(s, s.mutexes[m].waiters) && t in s.mutexes[m].waiters;
    assert t !in s.mutexes[n].waiters && t !in s.woken;
    CoverStill(s, r, t, n);
  }

  predicate NoneAbove(s: State, ids: set<Id>, p: nat) {
    forall t :: t in ids && t in s.tasks ==> s.tasks[t].priority <= p
  }

  /** What a give changes for the scheduler: the giver's priority, and who is ready. */
  lemma GivenScheduling(s: State, m: MutexId, r: State)
    requires s.Closed() && m in s.mutexes && s.tasks[s.running].mutexesHeld > 0 && r == Given(s, m)
    ensures var waiters := s.mutexes[m].waiters;
            && OnlyTask(s, r, s.running) && r.running == s.running
            && r.tasks[s.running] == DisinheritedTask(s.tasks[s.running])
            && r.ready == s.ready + (if waiters == [] then {} else {waiters[0]})
  {
  }

  /** Without a switch the giver stays the top task unless it misses a yield. */
  lemma TopAfterGive(s: State, m: MutexId, r: State)
    requires Accounts(s) && ListsSound(s) && Top(s, s.running) && m in s.mutexes
             && s.mutexes[m].holder == Some(s.running)
    requires s.tasks[s.running].mutexesHeld > 0 && r == Given(s, m) && r.Closed()
    ensures GiveYields(s, m) ==> !MissesYield(s, m)
    ensures !GiveYields(s, m) ==> (Top(r, s.running) <==> !MissesYield(s, m))
  {
    var waiters := s.mutexes[m].waiters;
    assert ListSound(s, waiters);
    assert waiters != [] ==> waiters[0] in waiters && waiters[0] != s.running;
    GivenScheduling(s, m, r);
    TopAfterChange(s, r, DisinheritedTask(s.tasks[s.running]).priority, if waiters == [] then {} else {waiters[0]});
    MissedOrNot(s, m);
  }

  /** A yield is missed if the giver drops below a ready task and no waiter makes it switch. */
  lemma MissedOrNot(s: State, m: MutexId)
    requires s.Closed() && m in s.mutexes && s.tasks[s.running].mutexesHeld > 0 && Top(s, s.running)
    requires s.mutexes[m].waiters != [] ==> s.mutexes[m].waiters[0] != s.running
    ensures var p := DisinheritedTask(s.tasks[s.running]).priority;
            && (GiveYields(s, m) ==> !MissesYield(s, m))
            && (!GiveYields(s, m) ==> (MissesYield(s, m) <==> !NoneAbove(s, s.ready - {s.running}, p)))
            && (!GiveYields(s, m) && s.mutexes[m].waiters != [] ==> NoneAbove(s, {s.mutexes[m].waiters[0]}, p))
  {
  }

  /** When the running task is top after its priority has changed and more tasks are ready. */
  lemma TopAfterChange(s: State, r: State, p: nat, more: set<Id>)
    requires s.Closed() && r.Closed() && OnlyTask(s, r, s.running) && Top(s, s.running)
    requires r.tasks[s.running].priority == p && r.ready == s.ready + more && s.running !in more
    ensures more <= s.tasks.Keys
    ensures Top(r, s.running) <==> NoneAbove(s, more, p) && NoneAbove(s, s.ready - {s.running}, p)
  {
  }

  /** Giving a mutex leaves the running task a top task exactly when it misses no yield. */
  lemma GiveKeepsTopIff(s: State, m: MutexId, next: Id)
    requires Donated(s) && Enabled(s, Give(m, next)) && s.mutexes[m].count == 0
    ensures var r := After(s, Give(m, next)); r.Closed() && (Top(r, r.running) <==> !MissesYield(s, m))
  {
    GiveAccounts(s, m);
    TopAfterGive(s, m, Given(s, m));
    SchedulingAccounts(Given(s, m), After(s, Give(m, next)));
  }

  lemma GiveDonated(s: State, m: MutexId, next: Id)
    requires Donated(s) && Enabled(s, Give(m, next)) && (s.mutexes[m].count == 0 ==> !MissesYield(s, m))
    ensures Donated(After(s, Give(m, next)))
  {
    if s.mutexes[m].count == 0 {
      GiveAccounts(s, m);
      FreeEffects(s, Freed(s, m), m);
      FreeDonated(s, Freed(s, m), m);
      WakeFirstDonated(Freed(s, m), m, Given(s, m));
      TopAfterGive(s, m, Given(s, m));
      SwitchDonated(Given(s, m), After(s, Give(m, next)));
    }
  }

  // ----- timeouts

  lemma UnlistDonated(s: State, m: MutexId, t: Id, r: State)
    requires Accounts(s) && ListsSound(s) && AllCovered(s) && m in s.mutexes && t in s.mutexes[m].waiters
    requires r == Unlisted(s, m, t).(ready := s.ready + {t}) && r.Closed()
    ensures ListsSound(r) && AllCovered(r)
  {
    UnlistMembers(s, m, t, r);
    UnlistLists(s, m, t, r);
    forall n | n in r.mutexes ensures Covered(r, n) { UnlistCovers(s, r, n); }
  }

  /** No list gains a member, and t is on none. */
  lemma UnlistMembers(s: State, m: MutexId, t: Id, r: State)
    requires s.Closed() && ListsSound(s) && m in s.mutexes && t in s.mutexes[m].waiters
    requires r == Unlisted(s, m, t).(ready := s.ready + {t}) && r.Closed()
    ensures forall n, w :: n in r.mutexes && w in r.mutexes[n].waiters ==>
              n in s.mutexes && w in s.mutexes[n].waiters && w != t
  {
    var waiters := s.mutexes[m].waiters;
    assert ListSound(s, waiters);
    RemovedFacts(waiters, IndexOf(waiters, t));
  }

  lemma UnlistLists(s: State, m: MutexId, t: Id, r: State)
    requires s.Closed() && ListsSound(s) && m in s.mutexes && t in s.mutexes[m].waiters
    requires r == Unlisted(s, m, t).(ready := s.ready + {t}) && r.Closed()
    ensures ListsSound(r)
  {
    UnlistMembers(s, m, t, r);
    forall n | n in r.mutexes ensures ListSound(r, r.mutexes[n].waiters) { UnlistList(s, m, t, r, n); }
    forall n, o, w | n in r.mutexes && o in r.mutexes && w in r.mutexes[n].waiters && w in r.mutexes[o].waiters
        ensures n == o {
      assert w in s.mutexes[n].waiters && w in s.mutexes[o].waiters;
    }
  }

  lemma UnlistList(s: State, m: MutexId, t: Id, r: State, n: MutexId)
    requires s.Closed() && ListsSound(s) && m in s.mutexes && n in s.mutexes && t in s.mutexes[m].waiters
    requires r == Unlisted(s, m, t).(ready := s.ready + {t}) && r.Closed()
    ensures ListSound(r, r.mutexes[n].waiters)
  {
    var waiters, after := s.mutexes[m].waiters, r.mutexes[n].waiters;
    assert ListSound(s, waiters) && ListSound(s, s.mutexes[n].waiters);
    UnlistMembers(s, m, t, r);
    if n == m {
      RemovedFacts(waiters, IndexOf(waiters, t));
      RemovedDescending(s, waiters, IndexOf(waiters, t));
    }
  }

  lemma RemovedDescending(s: State, waiters: seq<Id>, k: nat)
    requires k < |waiters| && (forall t :: t in waiters ==> t in s.tasks) && Descending(s, waiters)
    ensures (forall t :: t in Removed(waiters, k) ==> t in s.tasks) && Descending(s, Removed(waiters, k))
  {
    var after := Removed(waiters, k);
    assert forall i :: 0 <= i < |after| ==> after[i] == waiters[if i < k then i else i + 1];
  }

  /** Shorter wait lists are covered by the same tasks. */
  lemma UnlistCovers(s: State, r: State, n: MutexId)
    requires s.Closed() && r.Closed() && n in s.mutexes && n in r.mutexes && Covered(s, n)
    requires r.tasks == s.tasks && r.woken == s.woken && r.mutexes[n].holder == s.mutexes[n].holder
    requires forall w :: w in r.mutexes[n].waiters ==> w in s.mutexes[n].waiters
    ensures Covered(r, n)
  {
    if s.mutexes[n].holder == None && r.mutexes[n].waiters != [] {
      assert r.mutexes[n].waiters[0] in s.mutexes[n].waiters;
      var c :| Candidate(s, n, c);
      assert Candidate(r, n, c);
    }
  }

  lemma TimeOutDonated(s: State, t: Id, m: MutexId, r: State)
    requires Donated(s) && m in s.mutexes && t in s.mutexes[m].waiters
    requires r == Unlisted(s, m, t).(ready := s.ready + {t}) && r.Closed()
    ensures Accounts(r) && ListsSound(r) && AllCovered(r)
    ensures r.Priority(t) <= r.Priority(r.running) ==> Top(r, r.running)
  {
    UnlistAccounts(s, m, t);
    SchedulingAccounts(Unlisted(s, m, t), r);
    UnlistDonated(s, m, t, r);
  }

  /** The holder's priority falls no further than to the first task still waiting. */
  lemma AfterTimeoutDonated(s: State, m: MutexId, r: State)
    requires Donated(s) && m in s.mutexes && s.mutexes[m].holder.Some? && s.mutexes[m].holder != Some(s.running)
    requires var h := s.mutexes[m].holder.value;
             r == s.(tasks := s.tasks[h := TimedOutTask(s.tasks[h], HighestWaiting(s, s.mutexes[m].waiters))])
    ensures Donated(r)
  {
    var h, highest := s.mutexes[m].holder.value, HighestWaiting(s, s.mutexes[m].waiters);
    if TimedOutTask(s.tasks[h], highest) == s.tasks[h] {
      assert r.tasks == s.tasks;
    } else {
      AfterTimeoutAccounts(s, m, highest);
      LoweredByTimeout(s, m, r);
    }
  }

  lemma LoweredByTimeout(s: State, m: MutexId, r: State)
    requires Donated(s) && m in s.mutexes && s.mutexes[m].holder.Some? && s.mutexes[m].holder != Some(s.running)
    requires var h := s.mutexes[m].holder.value;
             && TimedOutTask(s.tasks[h], HighestWaiting(s, s.mutexes[m].waiters)) != s.tasks[h]
             && r == s.(tasks := s.tasks[h := TimedOutTask(s.tasks[h], HighestWaiting(s, s.mutexes[m].waiters))])
    requires Accounts(r)
    ensures Donated(r)
  {
    HighestBelowHolder(s, m);
    HolderIsNotWaiting(s, m);
    LoweredDonated(s, r, m);
  }

  lemma HighestBelowHolder(s: State, m: MutexId)
    requires Accounts(s) && ListsSound(s) && AllCovered(s) && m in s.mutexes && s.mutexes[m].holder.Some?
    ensures var k := s.tasks[s.mutexes[m].holder.value];
            HighestWaiting(s, s.mutexes[m].waiters) <= k.priority && k.basePriority <= k.priority
  {
    assert Covered(s, m) && TaskSound(s, s.mutexes[m].holder.value);
    assert s.mutexes[m].waiters != [] ==> s.mutexes[m].waiters[0] in s.mutexes[m].waiters;
  }

  lemma LoweredDonated(s: State, r: State, m: MutexId)
    requires Donated(s) && m in s.mutexes && s.mutexes[m].holder.Some? && s.mutexes[m].holder != Some(s.running)
             && Accounts(r)
    requires var h := s.mutexes[m].holder.value;
             && NotListed(s, h) && h !in s.woken && s.tasks[h].mutexesHeld == 1 && OnlyTask(s, r, h)
             && r == s.(tasks := r.tasks) && r.tasks[h].eventPriority == r.tasks[h].priority
             && HighestWaiting(s, s.mutexes[m].waiters) <= r.tasks[h].priority <= s.tasks[h].priority
    ensures Donated(r)
  {
    ListsStill(s, r, s.mutexes[m].holder.value);
    forall n | n in r.mutexes ensures Covered(r, n) { LoweredCovers(s, r, m, n); }
  }

  lemma LoweredCovers(s: State, r: State, m: MutexId, n: MutexId)
    requires Accounts(s) && ListsSound(s) && AllCovered(s) && m in s.mutexes && n in s.mutexes
             && s.mutexes[m].holder.Some?
    requires var h := s.mutexes[m].holder.value;
             && NotListed(s, h) && h !in s.woken && s.tasks[h].mutexesHeld == 1 && OnlyTask(s, r, h)
             && r == s.(tasks := r.tasks) && r.Closed()
                 && r.tasks[h].priority >= HighestWaiting(s, s.mutexes[m].waiters)
    ensures Covered(r, n)
  {
    var h := s.mutexes[m].holder.value;
    if n == m {
      FirstCovers(s, r, m);
    } else {
      assert TaskSound(s, h);
      if s.mutexes[n].holder == Some(h) { TwoHeld(s, h, m, n); }
      CoverStill(s, r, h, n);
    }
  }

  /** A holder at least as high as the first waiter covers them all. */
  lemma FirstCovers(s: State, r: State, m: MutexId)
    requires s.Closed() && ListsSound(s) && m in s.mutexes && s.mutexes[m].holder.Some?
    requires var h := s.mutexes[m].holder.value;
             && NotListed(s, h) && OnlyTask(s, r, h) && r == s.(tasks := r.tasks) && r.Closed()
             && r.tasks[h].priority >= HighestWaiting(s, s.mutexes[m].waiters)
    ensures Covered(r, m)
  {
    assert ListSound(s, s.mutexes[m].waiters);
    FirstIsHighest(s, s.mutexes[m].waiters);
  }

  lemma FirstIsHighest(s: State, waiters: seq<Id>)
    requires (forall t :: t in waiters ==> t in s.tasks) && Descending(s, waiters)
    requires forall t :: t in s.tasks ==> s.tasks[t].eventPriority == s.tasks[t].priority
    ensures forall w :: w in waiters ==> s.Priority(w) <= HighestWaiting(s, waiters)
  {
    forall w | w in waiters ensures s.Priority(w) <= HighestWaiting(s, waiters) {
      assert waiters[IndexOf(waiters, w)] == w && waiters[0] in waiters;
    }
  }

  // ----- scheduling

  /** Changing which tasks are ready, away from the wait lists and the woken tasks. */
  lemma ReadyDonated(s: State, r: State)
    requires Accounts(s) && ListsSound(s) && AllCovered(s) && r == s.(ready := r.ready) && r.ready <= s.tasks.Keys
    requires forall t :: t in r.ready && t !in s.ready ==> NotListed(s, t)
    requires forall t :: t in s.woken ==> t in r.ready
    ensures Accounts(r) && ListsSound(r) && AllCovered(r)
  {
    SchedulingAccounts(s, r);
    forall n | n in r.mutexes ensures ListSound(r, r.mutexes[n].waiters) { assert ListSound(s, s.mutexes[n].waiters); }
    forall n | n in r.mutexes ensures Covered(r, n) { UnlistCovers(s, r, n); }
  }

  // ----- suspending a task

  /** Suspending a task off the wait lists changes who is ready and who is woken. */
  lemma SuspendReadyCovers(s: State, t: Id, r: State, n: MutexId)
    requires s.Closed() && r == s.(ready := s.ready - {t}, woken := s.woken - {t}) && r.Closed()
    requires n in s.mutexes && Covered(s, n) && !SoleCandidate(s, t)
    ensures Covered(r, n)
  {
    if s.mutexes[n].holder == None && s.mutexes[n].waiters != [] {
      var c :| Candidate(s, n, c) && (t in s.woken && s.woken[t] == n ==> c != t);
      assert Candidate(r, n, c);
    }
  }

  lemma SuspendReadyDonated(s: State, t: Id, r: State)
    requires Accounts(s) && ListsSound(s) && AllCovered(s) && !SoleCandidate(s, t)
    requires r == s.(ready := s.ready - {t}, woken := s.woken - {t})
    ensures Accounts(r) && ListsSound(r) && AllCovered(r)
  {
    SchedulingAccounts(s, r);
    forall n | n in r.mutexes ensures ListSound(r, r.mutexes[n].waiters) { assert ListSound(s, s.mutexes[n].waiters); }
    forall n | n in r.mutexes ensures Covered(r, n) { SuspendReadyCovers(s, t, r, n); }
  }

  /** Suspending a waiting task takes it off its list. */
  lemma SuspendWaitingDonated(s: State, t: Id, m: MutexId, u: State, r: State)
    requires Accounts(s) && ListsSound(s) && AllCovered(s) && m in s.mutexes && t in s.mutexes[m].waiters
    requires u == Unlisted(s, m, t).(ready := s.ready + {t}) && u.Closed()
    requires r == Suspended(s, t, Some(m))
    ensures Accounts(r) && ListsSound(r) && AllCovered(r)
  {
    WaitersAreNotWoken(s, t, m);
    UnlistAccounts(s, m, t);
    SchedulingAccounts(Unlisted(s, m, t), u);
    UnlistDonated(s, m, t, u);
    assert r == u.(ready := u.ready - {t}, woken := u.woken - {t});
    SuspendReadyDonated(u, t, r);
  }

  lemma WaitersAreNotWoken(s: State, t: Id, m: MutexId)
    requires s.Closed() && ListsSound(s) && m in s.mutexes && t in s.mutexes[m].waiters
    ensures t !in s.woken && t !in s.ready
  {
    assert ListSound(s, s.mutexes[m].waiters);
  }

  /** Suspending a task keeps holders above their waiters, and a candidate for every free
      mutex still waited for, exactly if the task is not the only candidate of one. */
  lemma SuspendKeepsDonationIff(s: State, t: Id, from: Option<MutexId>, next: Id)
    requires Donated(s) && Enabled(s, Suspend(t, from, next))
    ensures Donated(After(s, Suspend(t, from, next))) <==> !SoleCandidate(s, t)
  {
    var r := Suspended(s, t, from);
    if from.Some? {
      WaitersAreNotWoken(s, t, from.value);
      var u := Unlisted(s, from.value, t).(ready := s.ready + {t});
      UnlistAccounts(s, from.value, t);
      SchedulingAccounts(Unlisted(s, from.value, t), u);
      SuspendWaitingDonated(s, t, from.value, u, r);
      SwitchDonated(r, After(s, Suspend(t, from, next)));
    } else if SoleCandidate(s, t) {
      SoleCandidateLeaves(s, t, After(s, Suspend(t, from, next)));
    } else {
      SuspendReadyDonated(s, t, r);
      SwitchDonated(r, After(s, Suspend(t, from, next)));
    }
  }

  lemma SoleCandidateLeaves(s: State, t: Id, r: State)
    requires s.Closed() && r.Closed() && SoleCandidate(s, t)
    requires r.tasks == s.tasks && r.mutexes == s.mutexes && r.woken == s.woken - {t}
    ensures !Covered(r, s.woken[t])
  {
    forall c ensures !Candidate(r, s.woken[t], c) {
      if Candidate(r, s.woken[t], c) { assert Candidate(s, s.woken[t], c); }
    }
  }

  // ----- whole runs

  /** The restrictions under which holders outrank waiters: those of Restricted, no give that
      misses a yield, and no suspension of the only candidate for a mutex. */
  ghost predicate Orderly(s: State, e: Step)
    requires s.Closed() && Enabled(s, e)
  {
    && Restricted(s, e)
    && (e.Give? && s.mutexes[e.m].count == 0 ==> !MissesYield(s, e.m))
    && (e.Suspend? ==> !SoleCandidate(s, e.t))
  }

  lemma SleepKeepsDonation(s: State, e: Step)
    requires Donated(s) && Enabled(s, e) && e.Sleep?
    ensures Donated(After(s, e))
  {
    var r := s.(ready := s.ready - {s.running});
    ReadyDonated(s, r);
    SwitchDonated(r, After(s, e));
  }

  lemma WakeDonated(s: State, t: Id, r: State)
    requires Donated(s) && t in s.tasks && !Waiting(s, t) && r == s.(ready := s.ready + {t})
    ensures Accounts(r) && ListsSound(r) && AllCovered(r)
    ensures r.Priority(t) <= r.Priority(r.running) ==> Top(r, r.running)
  {
    assert NotListed(s, t);
    ReadyDonated(s, r);
  }

  lemma WakeKeepsDonation(s: State, e: Step)
    requires Donated(s) && Enabled(s, e) && e.Wake?
    ensures Donated(After(s, e))
  {
    var r := s.(ready := s.ready + {e.t});
    WakeDonated(s, e.t, r);
    SwitchDonated(r, After(s, e));
  }

  lemma TimeOutKeepsDonation(s: State, e: Step)
    requires Donated(s) && Enabled(s, e) && e.TimeOut?
    ensures Donated(After(s, e))
  {
    var r := Unlisted(s, e.m, e.t).(ready := s.ready + {e.t});
    TimeOutDonated(s, e.t, e.m, r);
    SwitchDonated(r, After(s, e));
  }

  lemma StepKeepsDonation(s: State, e: Step)
    requires Donated(s) && Enabled(s, e) && Orderly(s, e)
    ensures Donated(After(s, e))
  {
    match e
    case Take(m) => TakeDonated(s, m, Taken(s, m));
    case Block(m, next) => BlockDonated(s, m, next);
    case Give(m, next) => GiveDonated(s, m, next);
    case TimeOut(t, m, next) => TimeOutKeepsDonation(s, e);
    case AfterTimeout(m) => AfterTimeoutDonated(s, m, After(s, e));
    case Suspend(t, from, next) => SuspendKeepsDonationIff(s, t, from, next);
    case Sleep(next) => SleepKeepsDonation(s, e);
    case Wake(t, next) => WakeKeepsDonation(s, e);
    case Slice(next) => SwitchDonated(s, After(s, e));
  }

  ghost predicate IsRun(s: State, run: seq<Step>)
    decreases |run|
  {
    run == [] || (s.Closed() && Enabled(s, run[0]) && IsRun(After(s, run[0]), run[1..]))
  }

  ghost function Outcome(s: State, run: seq<Step>): State
    requires IsRun(s, run)
    decreases |run|
  {
    if run == [] then s else Outcome(After(s, run[0]), run[1..])
  }

  ghost predicate OrderlyRun(s: State, run: seq<Step>)
    requires IsRun(s, run)
    decreases |run|
  {
    run == [] || (Orderly(s, run[0]) && OrderlyRun(After(s, run[0]), run[1..]))
  }

  /** The step is admissible in s and leaves r. */
  ghost predicate Leads(s: State, e: Step, r: State) {
    s.Closed() && Enabled(s, e) && After(s, e) == r
  }

  /** Prefixing a run with one step. */
  lemma Extend(s: State, e: Step, r: State, rest: seq<Step>)
    requires Leads(s, e, r) && IsRun(r, rest)
    ensures IsRun(s, [e] + rest) && Outcome(s, [e] + rest) == Outcome(r, rest)
  {
    assert ([e] + rest)[1..] == rest;
  }

  lemma {:induction false} AccountsInEveryRun(s: State, run: seq<Step>)
    requires Accounts(s) && IsRun(s, run)
    ensures Accounts(Outcome(s, run))
    decreases |run|
  {
    if run != [] {
      StepKeepsAccounts(s, run[0]);
      AccountsInEveryRun(After(s, run[0]), run[1..]);
    }
  }

  lemma {:induction false} DonationInOrderlyRuns(s: State, run: seq<Step>)
    requires Donated(s) && IsRun(s, run) && OrderlyRun(s, run)
    ensures Donated(Outcome(s, run))
    decreases |run|
  {
    if run != [] {
      StepKeepsDonation(s, run[0]);
      DonationInOrderlyRuns(After(s, run[0]), run[1..]);
    }
  }

  /** The guarantee as a user of mutexes sees it. */
  lemma NoHolderBelowItsWaiters(s: State, run: seq<Step>, m: MutexId, w: Id)
    requires Donated(s) && IsRun(s, run) && OrderlyRun(s, run)
    requires var r := Outcome(s, run); m in r.mutexes && r.mutexes[m].holder.Some? && w in r.mutexes[m].waiters
    ensures var r := Outcome(s, run);
            && r.mutexes[m].holder.value in r.tasks && w in r.tasks
            && r.Priority(w) <= r.Priority(r.mutexes[m].holder.value)
  {
    DonationInOrderlyRuns(s, run);
    assert Covered(Outcome(s, run), m);
  }
}

/** The mutex functions of queue.c and tasks.c. */
module Mutexes {
  import opened Options
  import opened MutexProtocol

  datatype TakeOutcome = Obtained | Refused | MustBlock

  class Kernel {
    var tasks: map<Id, Task>
    var mutexes: map<MutexId, Mutex>
    var recursiveCallCount: map<MutexId, nat>
    var ready: set<Id>
    var running: Id
    ghost var woken: map<Id, MutexId>

    ghost function Snapshot(): State
      reads this
    {
      State(tasks, mutexes, ready, running, woken)
    }

    ghost predicate Valid()
      reads this
    {
      Accounts(Snapshot())
    }

    /** A mutex used only through the recursive calls is held exactly while its call count
        is not zero. */
    predicate CountsCalls(m: MutexId)
      reads this
    {
      m in mutexes && m in recursiveCallCount && (recursiveCallCount[m] == 0 <==> mutexes[m].holder == None)
    }

    constructor (priorities: map<Id, nat>, ids: set<MutexId>, running: Id)
      requires running in priorities
      ensures Valid() && this.running == running && tasks.Keys == priorities.Keys && mutexes.Keys == ids
      ensures forall t :: t in tasks ==> tasks[t] == Task(priorities[t], priorities[t], priorities[t], 0)
      ensures forall m :: m in mutexes ==> mutexes[m] == Mutex(1, None, []) && CountsCalls(m)
    {
      tasks := map t | t in priorities :: Task(priorities[t], priorities[t], priorities[t], 0);
      mutexes := map m | m in ids :: Mutex(1, None, []);
      recursiveCallCount := map m | m in ids :: 0;
      ready, this.running, woken := priorities.Keys, running, map[];
      new;
      assert forall t :: Snapshot().Held(t) == {};
    }

    /** xTaskPriorityInherit.  It reports inheritance iff the holder's base priority is below
        the caller's, whether or not the holder had inherited already. */
    method PriorityInherit(m: MutexId) returns (occurred: bool)
      requires Valid() && m in mutexes && mutexes[m].holder.Some?
      modifies `tasks
      ensures Valid() && Snapshot() == Inherited(old(Snapshot()), mutexes[m].holder.value)
      ensures occurred <==> old(tasks)[mutexes[m].holder.value].basePriority < old(tasks)[running].priority
      ensures tasks[mutexes[m].holder.value].priority >= old(tasks)[running].priority
    {
      InheritAccounts(Snapshot(), m);
      var h := mutexes[m].holder.value;
      assert TaskSound(Snapshot(), h);
      var p := tasks[running].priority;
      occurred := false;
      if tasks[h].priority < p {
        tasks := tasks[h := tasks[h].(priority := p, eventPriority := p)];
        occurred := true;
      } else {
        if tasks[h].basePriority < p {
          occurred := true;
        }
      }
    }

    /** xTaskPriorityDisinherit, called by the holder. */
    method PriorityDisinherit() returns (yieldRequired: bool)
      requires running in tasks && tasks[running].mutexesHeld > 0
      modifies `tasks
      ensures Snapshot() == old(Snapshot()).(tasks := old(tasks)[running := DisinheritedTask(old(tasks)[running])])
      ensures yieldRequired <==> Drops(old(Snapshot()), running)
    {
      yieldRequired := false;
      var held := tasks[running].mutexesHeld - 1;
      var before := tasks[running];
      tasks := tasks[running := before.(mutexesHeld := held)];
      if before.priority != before.basePriority {
        if held == 0 {
          tasks := tasks[running := tasks[running].(priority := before.basePriority,
              eventPriority := before.basePriority)];
          yieldRequired := true;
        }
      }
    }

    /** vTaskPriorityDisinheritAfterTimeout, and whether its assertion about the running task
        holds. */
    method DisinheritAfterTimeout(m: MutexId) returns (asserted: bool)
      requires Valid() && m in mutexes && mutexes[m].holder.Some?
      modifies `tasks
      ensures asserted <==> TimeoutAssertHolds(old(Snapshot()), m)
      ensures Valid() && Snapshot() == old(Snapshot()).(tasks := old(tasks)[mutexes[m].holder.value :=
                TimedOutTask(old(tasks)[mutexes[m].holder.value], HighestWaiting(old(Snapshot()), mutexes[m].waiters))])
      ensures var h, waiters := mutexes[m].holder.value, mutexes[m].waiters;
              var k := old(tasks)[h];
              && (k.mutexesHeld != 1 ==> tasks == old(tasks))
              && (k.mutexesHeld == 1 && EventOrdered(old(Snapshot()), waiters) ==>
                    LeastCovering(old(Snapshot()), tasks[h].priority, k.basePriority, waiters))
              && (k.mutexesHeld == 1 && waiters == [] ==> tasks[h].priority == k.basePriority)
    {
      ghost var s := Snapshot();
      AfterTimeoutAccounts(s, m, HighestWaiting(s, mutexes[m].waiters));
      var h := mutexes[m].holder.value;
      if EventOrdered(s, mutexes[m].waiters) {
        HeadIsLeastCovering(s, tasks[h].basePriority, mutexes[m].waiters);
      }
      var highest := 0;
      if mutexes[m].waiters != [] {
        highest := tasks[mutexes[m].waiters[0]].eventPriority;
      }
      var use := if tasks[h].basePriority < highest then highest else tasks[h].basePriority;
      asserted := true;
      if tasks[h].priority != use {
        if tasks[h].mutexesHeld == 1 {
          asserted := h != running;
          tasks := tasks[h := tasks[h].(priority := use, eventPriority := use)];
        }
      }
      assert Snapshot().tasks == s.tasks[h := TimedOutTask(s.tasks[h], HighestWaiting(s, mutexes[m].waiters))];
    }

    /** vTaskPrioritySet, below the range check. */
    method PrioritySet(t: Id, newPriority: nat) returns (yieldRequired: bool)
      requires Valid() && t in tasks
      modifies `tasks
      ensures Valid()
      ensures Snapshot() == old(Snapshot()).(tasks := old(tasks)[t := RePrioritised(old(tasks)[t], newPriority)])
      ensures yieldRequired <==> SetYields(old(Snapshot()), t, newPriority)
    {
      ghost var s := Snapshot();
      PrioritySetAccounts(s, t, newPriority);
      yieldRequired := false;
      var k := tasks[t];
      if k.basePriority != newPriority {
        if newPriority > k.basePriority {
          if t != running {
            if newPriority > tasks[running].priority {
              yieldRequired := true;
            }
          }
        } else if t == running {
          yieldRequired := true;
        }
        var effective := k.priority;
        if k.basePriority == k.priority || newPriority > k.priority {
          effective := newPriority;
        }
        tasks := tasks[t := Task(newPriority, effective, newPriority, k.mutexesHeld)];
      }
      assert Snapshot().tasks == s.tasks[t := RePrioritised(s.tasks[t], newPriority)];
    }

    /** The critical section of xQueueSemaphoreTake on a mutex. */
    method TryTake(m: MutexId) returns (taken: bool)
      requires Valid() && m in mutexes
      modifies `tasks, `mutexes, `woken
      ensures Valid() && Snapshot() == Taken(old(Snapshot()), m)
      ensures taken <==> old(mutexes)[m].holder == None
      ensures taken ==> m in mutexes && mutexes[m].holder == Some(running)
    {
      ghost var s := Snapshot();
      TakeAccounts(s, m);
      woken := woken - {running};
      taken := mutexes[m].count > 0;
      if taken {
        IncrementMutexHeldCount();
        mutexes := mutexes[m := mutexes[m].(count := mutexes[m].count - 1, holder := Some(running))];
        assert mutexes == Taken(s, m).mutexes && tasks == Taken(s, m).tasks;
      }
      assert Snapshot() == Taken(s, m);
    }

    /** pvTaskIncrementMutexHeldCount. */
    method IncrementMutexHeldCount()
      requires running in tasks
      modifies `tasks
      ensures tasks == old(tasks)[running := old(tasks)[running].(mutexesHeld := old(tasks)[running].mutexesHeld + 1)]
    {
      tasks := tasks[running := tasks[running].(mutexesHeld := tasks[running].mutexesHeld + 1)];
    }

    /** xQueueGenericSend on a mutex, by its holder.  Giving a free mutex fails. */
    method Give(m: MutexId) returns (given: bool, yielding: bool)
      requires Valid() && m in mutexes && (mutexes[m].holder == None || mutexes[m].holder == Some(running))
      modifies `tasks, `mutexes, `ready, `woken
      ensures Valid() && (given <==> old(mutexes)[m].holder.Some?)
      ensures !given ==> Snapshot() == old(Snapshot()) && !yielding
      ensures given ==>
        && old(tasks)[running].mutexesHeld > 0 && Snapshot() == Given(old(Snapshot()), m)
        && (yielding <==> GiveYields(old(Snapshot()), m))
    {
      ghost var s := Snapshot();
      given, yielding := mutexes[m].count < 1, false;
      if given {
        GiveAccounts(s, m);
        var dropped := PriorityDisinherit();
        mutexes := mutexes[m := mutexes[m].(count := mutexes[m].count + 1, holder := None)];
        ghost var f := Snapshot();
        assert f == Freed(s, m);
        if mutexes[m].waiters != [] {
          yielding := RemoveFromEventList(m);
        } else if dropped {
          yielding := true;
        }
        assert Snapshot() == WakeFirst(f, m) == Given(s, m);
      }
    }

    /** xTaskRemoveFromEventList of a mutex's wait list. */
    method RemoveFromEventList(m: MutexId) returns (higher: bool)
      requires Snapshot().Closed() && m in mutexes && mutexes[m].waiters != []
      modifies `mutexes, `ready, `woken
      ensures Snapshot() == WakeFirst(old(Snapshot()), m)
      ensures higher <==> tasks[old(mutexes)[m].waiters[0]].priority > tasks[running].priority
    {
      var t := mutexes[m].waiters[0];
      assert t in mutexes[m].waiters;
      mutexes := mutexes[m := mutexes[m].(waiters := mutexes[m].waiters[1..])];
      ready := ready + {t};
      woken := woken[t := m];
      higher := tasks[t].priority > tasks[running].priority;
    }

    /** xQueueTakeMutexRecursive up to where it blocks.  A call that has to wait goes on with
        the Block step of the protocol and, when it is woken, tries again. */
    method TakeRecursive(m: MutexId, ticksToWait: nat) returns (outcome: TakeOutcome)
      requires Valid() && CountsCalls(m)
      modifies `tasks, `mutexes, `recursiveCallCount, `woken
      ensures Valid() && CountsCalls(m)
      ensures outcome == Obtained <==> old(mutexes)[m].holder == None || old(mutexes)[m].holder == Some(running)
      ensures outcome == Refused <==>
                old(mutexes)[m].holder != None && old(mutexes)[m].holder != Some(running) && ticksToWait == 0
      ensures outcome == Obtained ==> mutexes[m].holder == Some(running)
      ensures outcome != Obtained ==> Snapshot() == old(Snapshot()).(woken := old(woken) - {running})
      ensures recursiveCallCount[m] == old(recursiveCallCount)[m] + if outcome == Obtained then 1 else 0
    {
      if mutexes[m].holder == Some(running) {
        recursiveCallCount := recursiveCallCount[m := recursiveCallCount[m] + 1];
        outcome := Obtained;
      } else {
        var taken := TryTake(m);
        if taken {
          recursiveCallCount := recursiveCallCount[m := recursiveCallCount[m] + 1];
          outcome := Obtained;
        } else {
          outcome := if ticksToWait == 0 then Refused else MustBlock;
        }
      }
    }

    /** xQueueGiveMutexRecursive: only the holder can give, and only the last give frees. */
    method GiveRecursive(m: MutexId) returns (given: bool)
      requires Valid() && CountsCalls(m)
      modifies `tasks, `mutexes, `recursiveCallCount, `ready, `woken
      ensures Valid() && CountsCalls(m)
      ensures given <==> old(mutexes)[m].holder == Some(running)
      ensures !given ==> Snapshot() == old(Snapshot()) && recursiveCallCount == old(recursiveCallCount)
      ensures given ==>
        && recursiveCallCount[m] == old(recursiveCallCount)[m] - 1
        && mutexes[m].holder == if old(recursiveCallCount)[m] == 1 then None else Some(running)
    {
      given := mutexes[m].holder == Some(running);
      if given {
        recursiveCallCount := recursiveCallCount[m := recursiveCallCount[m] - 1];
        if recursiveCallCount[m] == 0 {
          var _, _ := Give(m);
        }
      }
    }
  }
}
