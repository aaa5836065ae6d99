/** Where every task's state list item is (tasks.c): the ready lists, one per priority, the
    two delayed lists, the suspended list and the list of tasks waiting to be cleaned up. */
module StateItems {
  import opened ListView

  type Id = nat

  /** `Delay(0)` and `Delay(1)` are the two delayed lists; which is the current one changes. */
  datatype Place = Ready(priority: nat) | Delay(which: nat) | Suspended | Termination

  /** `container` is the list each item points back to. */
  datatype State = State(priorities: nat, lists: map<Place, View<Id>>, container: map<Id, Place>,
                         priority: map<Id, nat>, topReady: nat)
  {
    predicate Has(p: Place) {
      match p
      case Ready(n) => n < priorities
      case Delay(w) => w < 2
      case _ => true
    }

    predicate On(t: Id, p: Place)
      requires p in lists
    {
      t in lists[p].items
    }

    predicate IsReady(t: Id) { t in container && container[t].Ready? }

    /** Every list is a list, and an item is on a list iff it points back to that list: each
        live task is on exactly one. */
    ghost predicate Partitioned() {
      && (forall p :: p in lists <==> Has(p))
      && (forall p :: p in lists ==> lists[p].Valid() && Distinct(lists[p].items))
      && (forall p, t :: p in lists ==> (On(t, p) <==> t in container && container[t] == p))
      && (forall t :: t in container ==> Has(container[t]))
    }

    /** A ready task is on the list of its priority, and none is above the recorded top. */
    ghost predicate Sound() {
      && Partitioned() && container.Keys == priority.Keys && topReady < priorities
      && (forall t :: t in priority ==> priority[t] < priorities)
      && (forall t :: IsReady(t) ==> container[t].priority == priority[t] <= topReady)
    }
  }

  function EmptyLists(priorities: nat): map<Place, View<Id>> {
    var none: View<Id> := View([], -1);
    (map n | 0 <= n < priorities :: Ready(n) := none)
    + map[Delay(0) := none, Delay(1) := none, Suspended := none, Termination := none]
  }

  /** A kernel without tasks. */
  lemma EmptyListsSound(priorities: nat)
    requires priorities > 0
    ensures State(priorities, EmptyLists(priorities), map[], map[], 0).Sound()
  {
    var s := State(priorities, EmptyLists(priorities), map[], map[], 0);
    forall p ensures p in s.lists <==> s.Has(p) {}
    assert forall p :: p in s.lists ==> s.lists[p] == View([], -1);
  }

  // ----- moving one item

  /** The item of t is off all lists for the moment. */
  ghost predicate LinkedBut(s: State, t: Id) {
    && s.Partitioned() && t !in s.container
    && s.container.Keys + {t} == s.priority.Keys && s.topReady < s.priorities
    && (forall u :: u in s.priority ==> s.priority[u] < s.priorities)
    && (forall u :: s.IsReady(u) ==> s.container[u].priority == s.priority[u] <= s.topReady)
  }

  /** uxListRemove of a state item. */
  function Unlinked(s: State, t: Id): State
    requires s.Partitioned() && t in s.container
  {
    var p := s.container[t];
    s.(lists := s.lists[p := Remove(s.lists[p], t)], container := s.container - {t})
  }

  lemma UnlinkFacts(s: State, t: Id)
    requires s.Sound() && t in s.container
    ensures LinkedBut(Unlinked(s, t), t)
  {
    var p, r := s.container[t], Unlinked(s, t);
    var items := s.lists[p].items;
    RemovedFacts(items, IndexOf(items, t));
    assert forall q :: q in r.lists ==> r.lists[q].Valid() && Distinct(r.lists[q].items);
  }

  /** vListInsert or vListInsertEnd of a state item: at `at`, or before the index. */
  function Linked(s: State, t: Id, p: Place, at: nat): State
    requires p in s.lists && s.lists[p].Valid() && at <= |s.lists[p].items|
  {
    s.(lists := s.lists[p := InsertAtPosition(s.lists[p], at, t)], container := s.container[t := p])
  }

  function LinkedEnd(s: State, t: Id, p: Place): State
    requires p in s.lists && s.lists[p].Valid()
  {
    s.(lists := s.lists[p := InsertEnd(s.lists[p], t)], container := s.container[t := p])
  }

  /** What linking by either way means for the partition. */
  ghost predicate LinkEffect(s: State, r: State, t: Id, p: Place)
    requires p in s.lists
  {
    && r == s.(lists := r.lists, container := s.container[t := p]) && r.lists.Keys == s.lists.Keys
    && (forall q :: q in s.lists && q != p ==> r.lists[q] == s.lists[q])
    && r.lists[p].Valid() && Distinct(r.lists[p].items)
    && (forall u :: u in r.lists[p].items <==> u in s.lists[p].items || u == t)
  }

  lemma LinkPartitions(s: State, r: State, t: Id, p: Place)
    requires s.Partitioned() && t !in s.container && p in s.lists && LinkEffect(s, r, t, p)
    ensures r.Partitioned()
  {
    forall q, u | q in r.lists ensures r.On(u, q) <==> u in r.container && r.container[u] == q {
      LinkedItem(s, r, t, p, q, u);
    }
    forall q | q in r.lists ensures r.lists[q].Valid() && Distinct(r.lists[q].items) {
      assert q != p ==> r.lists[q] == s.lists[q];
    }
  }

  lemma LinkedItem(s: State, r: State, t: Id, p: Place, q: Place, u: Id)
    requires s.Partitioned() && t !in s.container && p in s.lists && LinkEffect(s, r, t, p) && q in r.lists
    ensures r.On(u, q) <==> u in r.container && r.container[u] == q
  {
    assert s.On(u, q) <==> u in s.container && s.container[u] == q;
  }

  lemma LinkedEffect(s: State, t: Id, p: Place, at: nat)
    requires s.Partitioned() && t !in s.container && p in s.lists && at <= |s.lists[p].items|
    ensures LinkEffect(s, Linked(s, t, p, at), t, p)
  {
    InsertedFacts(s.lists[p].items, at, t);
  }

  lemma LinkedEndEffect(s: State, t: Id, p: Place)
    requires s.Partitioned() && t !in s.container && p in s.lists
    ensures LinkEffect(s, LinkedEnd(s, t, p), t, p)
  {
    var v := s.lists[p];
    InsertedFacts(v.items, if v.index < 0 then |v.items| else v.index, t);
  }

  /** Linking on a list that is not a ready list. */
  lemma ParkFacts(s: State, r: State, t: Id, p: Place)
    requires LinkedBut(s, t) && p in s.lists && !p.Ready? && LinkEffect(s, r, t, p)
    ensures r.Sound()
  {
    LinkPartitions(s, r, t, p);
  }

  /** prvAddTaskToReadyList. */
  function MadeReady(s: State, t: Id): State
    requires s.Partitioned() && t in s.priority && s.priority[t] < s.priorities
  {
    LinkedEnd(s.(topReady := if s.priority[t] > s.topReady then s.priority[t] else s.topReady), t, Ready(s.priority[t]))
  }

  lemma MakeReadyFacts(s: State, t: Id)
    requires LinkedBut(s, t)
    ensures t in s.priority && MadeReady(s, t).Sound() && MadeReady(s, t).IsReady(t)
  {
    var p := s.priority[t];
    var m := s.(topReady := if p > s.topReady then p else s.topReady);
    RecordRaised(s, t, m);
    LinkedEndEffect(m, t, Ready(p));
    LinkedReady(m, MadeReady(s, t), t, p);
  }

  /** Linking on the ready list of the task's priority. */
  lemma LinkedReady(s: State, r: State, t: Id, p: nat)
    requires LinkedBut(s, t) && t in s.priority && s.priority[t] == p <= s.topReady && Ready(p) in s.lists
    requires LinkEffect(s, r, t, Ready(p))
    ensures r.Sound() && r.IsReady(t)
  {
    LinkPartitions(s, r, t, Ready(p));
    forall u | r.IsReady(u) ensures r.container[u].priority == r.priority[u] <= r.topReady {
      assert u != t ==> s.IsReady(u);
    }
  }

  lemma RecordRaised(s: State, t: Id, m: State)
    requires LinkedBut(s, t) && s.topReady <= m.topReady < s.priorities && m == s.(topReady := m.topReady)
    ensures LinkedBut(m, t)
  {
    forall u | m.IsReady(u) ensures m.container[u].priority == m.priority[u] <= m.topReady { assert s.IsReady(u); }
  }

  // ----- selection

  /** Whether some ready list is not empty. */
  ghost predicate SomeReady(s: State) { exists t :: s.IsReady(t) }

  /** The highest list that is not empty, from `from` down. */
  function TopList(s: State, from: nat): (p: int)
    requires s.Partitioned() && from < s.priorities
    ensures -1 <= p <= from
    ensures p >= 0 ==> s.lists[Ready(p)].items != []
    ensures forall q :: p < q <= from ==> s.lists[Ready(q)].items == []
  {
    if s.lists[Ready(from)].items != [] then from else if from == 0 then -1 else TopList(s, from - 1)
  }

  lemma EmptyListSkipped(s: State, p: nat)
    requires s.Partitioned() && p < s.priorities && s.lists[Ready(p)].items == []
    ensures TopList(s, p) == if p == 0 then -1 else TopList(s, p - 1)
  {
  }

  /** The assertion in the selection loop holds exactly when some task is ready. */
  lemma SelectionFindsIff(s: State)
    requires s.Sound()
    ensures TopList(s, s.topReady) >= 0 <==> SomeReady(s)
  {
    var p := TopList(s, s.topReady);
    if p >= 0 {
      var t := s.lists[Ready(p)].items[0];
      assert t in s.lists[Ready(p)].items && s.On(t, Ready(p));
      assert s.IsReady(t);
    }
    if SomeReady(s) {
      var t :| s.IsReady(t);
      assert s.On(t, Ready(s.priority[t]));
      assert s.lists[Ready(s.priority[t])].items != [];
    }
  }

  /** taskSELECT_HIGHEST_PRIORITY_TASK, after which the list has moved on by one. */
  function Selected(s: State): State
    requires s.Sound() && TopList(s, s.topReady) >= 0
  {
    var p := TopList(s, s.topReady);
    s.(lists := s.lists[Ready(p) := Advance(s.lists[Ready(p)])], topReady := p)
  }

  function Chosen(s: State): Id
    requires s.Sound() && TopList(s, s.topReady) >= 0
  {
    var v := Advance(s.lists[Ready(TopList(s, s.topReady))]);
    v.items[v.index]
  }

  /** The selection loop stops, at a ready task that no ready task outranks. */
  ghost predicate SelectsHighest(s: State)
    requires s.Sound()
  {
    && TopList(s, s.topReady) >= 0 && s.IsReady(Chosen(s))
    && forall t :: s.IsReady(t) ==> s.priority[t] <= s.priority[Chosen(s)]
  }

  /** The selected task is ready, no ready task is above it, and it is the next in rotation on
      its list. */
  lemma SelectionIsHighest(s: State)
    requires s.Sound() && TopList(s, s.topReady) >= 0
    ensures Selected(s).Sound() && SelectsHighest(s) && s.priority[Chosen(s)] == Selected(s).topReady
    ensures Chosen(s) == Rotation(s.lists[Ready(s.priority[Chosen(s)])])[0]
  {
    var p, t, r := TopList(s, s.topReady), Chosen(s), Selected(s);
    assert s.On(t, Ready(p));
    forall u | s.IsReady(u) ensures s.priority[u] <= p {
      assert s.On(u, Ready(s.priority[u]));
      assert s.lists[Ready(s.priority[u])].items != [];
    }
    SelectedSound(s, p, r);
  }

  /** Advancing the index of one list and lowering the record to it. */
  lemma SelectedSound(s: State, p: nat, r: State)
    requires s.Sound() && p < s.priorities && s.lists[Ready(p)].items != []
    requires forall u :: s.IsReady(u) ==> s.priority[u] <= p
    requires r == s.(lists := s.lists[Ready(p) := Advance(s.lists[Ready(p)])], topReady := p)
    ensures r.Sound()
  {
    forall q, u | q in r.lists ensures r.On(u, q) <==> u in r.container && r.container[u] == q {
      assert s.On(u, q) <==> u in s.container && s.container[u] == q;
    }
    forall u | r.IsReady(u) ensures r.container[u].priority == r.priority[u] <= r.topReady { assert s.IsReady(u); }
  }

  // ----- steps

  datatype Step =
    | Block(t: Id, which: nat, at: nat) | BlockForever(t: Id) | MakeReady(t: Id) | Suspend(t: Id)
    | SetPriority(t: Id, p: nat) | Create(t: Id, p: nat) | Delete(t: Id, running: bool) | CleanUp(t: Id) | Select

  /** `Block` puts a task on one of the delayed lists at its wake time's place; `MakeReady` is
      what ticks, events, notifications and vTaskResume do; `SetPriority` stands for the
      base priority calls and for inheritance; a running task that deletes itself waits on
      the termination list for the idle task. */
  ghost predicate Enabled(s: State, e: Step) {
    s.Sound() &&
    match e
    case Block(t, which, at) => s.IsReady(t) && which < 2 && at <= |s.lists[Delay(which)].items|
    case BlockForever(t) => s.IsReady(t)
    case MakeReady(t) => t in s.container && s.container[t] != Termination
    case Suspend(t) => t in s.container && s.container[t] != Termination
    case SetPriority(t, p) => t in s.container && p < s.priorities
    case Create(t, p) => t !in s.container && p < s.priorities
    case Delete(t, running) => t in s.container && s.container[t] != Termination
    case CleanUp(t) => t in s.container && s.container[t] == Termination
    case Select => TopList(s, s.topReady) >= 0
  }

  function Forgotten(s: State, t: Id): State {
    s.(priority := s.priority - {t})
  }

  ghost function After(s: State, e: Step): State
    requires Enabled(s, e)
  {
    match e
    case Block(t, which, at) => BlockedOn(s, t, which, at)
    case BlockForever(t) => Parked(s, t, Suspended)
    case MakeReady(t) => Readied(s, t)
    case Suspend(t) => Parked(s, t, Suspended)
    case SetPriority(t, p) => Reprioritised(s, t, p)
    case Create(t, p) => Created(s, t, p)
    case Delete(t, running) => if running then Parked(s, t, Termination) else Forgotten(Unlinked(s, t), t)
    case CleanUp(t) => Forgotten(Unlinked(s, t), t)
    case Select => Selected(s)
  }

  ghost function BlockedOn(s: State, t: Id, which: nat, at: nat): State
    requires s.Sound() && s.IsReady(t) && which < 2 && at <= |s.lists[Delay(which)].items|
  {
    UnlinkFacts(s, t);
    Linked(Unlinked(s, t), t, Delay(which), at)
  }

  ghost function Parked(s: State, t: Id, p: Place): State
    requires s.Sound() && t in s.container && s.Has(p)
  {
    UnlinkFacts(s, t);
    LinkedEnd(Unlinked(s, t), t, p)
  }

  ghost function Readied(s: State, t: Id): State
    requires s.Sound() && t in s.container
  {
    UnlinkFacts(s, t);
    MadeReady(Unlinked(s, t), t)
  }

  ghost function Reprioritised(s: State, t: Id, p: nat): State
    requires s.Sound() && t in s.container && p < s.priorities
  {
    UnlinkFacts(s, t);
    RelabelledFacts(Unlinked(s, t), t, p);
    if s.container[t] == Ready(s.priority[t]) then MadeReady(Unlinked(s, t).(priority := s.priority[t := p]), t)
    else s.(priority := s.priority[t := p])
  }

  ghost function Created(s: State, t: Id, p: nat): State
    requires s.Sound() && p < s.priorities
  {
    MadeReady(s.(priority := s.priority[t := p]), t)
  }

  lemma BlockSound(s: State, t: Id, which: nat, at: nat)
    requires Enabled(s, Block(t, which, at))
    ensures BlockedOn(s, t, which, at).Sound()
  {
    UnlinkFacts(s, t);
    LinkedEffect(Unlinked(s, t), t, Delay(which), at);
    ParkFacts(Unlinked(s, t), BlockedOn(s, t, which, at), t, Delay(which));
  }

  lemma ParkSound(s: State, t: Id, p: Place)
    requires s.Sound() && t in s.container && s.Has(p) && !p.Ready?
    ensures Parked(s, t, p).Sound()
  {
    UnlinkFacts(s, t);
    LinkedEndEffect(Unlinked(s, t), t, p);
    ParkFacts(Unlinked(s, t), Parked(s, t, p), t, p);
  }

  lemma ReadySound(s: State, t: Id)
    requires s.Sound() && t in s.container
    ensures Readied(s, t).Sound()
  {
    UnlinkFacts(s, t);
    MakeReadyFacts(Unlinked(s, t), t);
  }

  /** A ready task follows its priority to another list; any other just changes it. */
  lemma PrioritySound(s: State, t: Id, p: nat)
    requires s.Sound() && t in s.container && p < s.priorities
    ensures Reprioritised(s, t, p).Sound()
    ensures Reprioritised(s, t, p).IsReady(t) <==> s.IsReady(t)
  {
    if s.container[t] == Ready(s.priority[t]) { MoveUpOrDown(s, t, p); } else { PriorityElsewhere(s, t, p); }
  }

  lemma MoveUpOrDown(s: State, t: Id, p: nat)
    requires s.Sound() && t in s.container && p < s.priorities && s.container[t] == Ready(s.priority[t])
    ensures Reprioritised(s, t, p).Sound() && Reprioritised(s, t, p).IsReady(t)
  {
    UnlinkFacts(s, t);
    RelabelledFacts(Unlinked(s, t), t, p);
    MakeReadyFacts(Unlinked(s, t).(priority := s.priority[t := p]), t);
  }

  /** The priority of a task that is off the lists can be anything. */
  lemma RelabelledFacts(s: State, t: Id, p: nat)
    requires LinkedBut(s, t) && p < s.priorities
    ensures LinkedBut(s.(priority := s.priority[t := p]), t)
  {
    assert s.(priority := s.priority[t := p]).Partitioned();
  }

  lemma PriorityElsewhere(s: State, t: Id, p: nat)
    requires s.Sound() && t in s.container && p < s.priorities && !s.IsReady(t)
    ensures s.(priority := s.priority[t := p]).Sound()
  {
    assert s.(priority := s.priority[t := p]).Partitioned();
  }

  lemma CreateSound(s: State, t: Id, p: nat)
    requires Enabled(s, Create(t, p))
    ensures Created(s, t, p).Sound()
  {
    var m := s.(priority := s.priority[t := p]);
    assert m.Partitioned() && LinkedBut(m, t);
    MakeReadyFacts(m, t);
  }

  lemma ForgetSound(s: State, t: Id)
    requires s.Sound() && t in s.container
    ensures Forgotten(Unlinked(s, t), t).Sound()
  {
    UnlinkFacts(s, t);
    ForgottenPartitions(Unlinked(s, t), t);
    ForgottenPriorities(Unlinked(s, t), t);
  }

  /** A task that is on no list can be forgotten without touching the lists. */
  lemma ForgottenPartitions(s: State, t: Id)
    requires s.Partitioned()
    ensures Forgotten(s, t).Partitioned()
  {
    var r := Forgotten(s, t);
    forall q, u | q in r.lists ensures r.On(u, q) <==> u in r.container && r.container[u] == q {
      assert s.On(u, q) <==> u in s.container && s.container[u] == q;
    }
  }

  lemma ForgottenPriorities(s: State, t: Id)
    requires LinkedBut(s, t)
    ensures var r := Forgotten(s, t);
            && r.container.Keys == r.priority.Keys && (forall u :: u in r.priority ==> r.priority[u] < r.priorities)
            && (forall u :: r.IsReady(u) ==> r.container[u].priority == r.priority[u] <= r.topReady)
  {
    var r := Forgotten(s, t);
    forall u | r.IsReady(u) ensures r.container[u].priority == r.priority[u] <= r.topReady { assert s.IsReady(u); }
  }

  lemma StepSound(s: State, e: Step)
    requires Enabled(s, e)
    ensures After(s, e).Sound()
  {
    match e
    case Block(t, which, at) => BlockSound(s, t, which, at);
    case BlockForever(t) => ParkSound(s, t, Suspended);
    case MakeReady(t) => ReadySound(s, t);
    case Suspend(t) => ParkSound(s, t, Suspended);
    case SetPriority(t, p) => PrioritySound(s, t, p);
    case Create(t, p) => CreateSound(s, t, p);
    case Delete(t, running) => if running { ParkSound(s, t, Termination); } else { ForgetSound(s, t); }
    case CleanUp(t) => ForgetSound(s, t);
    case Select => SelectionIsHighest(s);
  }

  ghost predicate IsRun(s: State, run: seq<Step>)
    decreases |run|
  {
    run == [] || (Enabled(s, run[0]) && IsRun(After(s, run[0]), run[1..]))
  }

  ghost function Outcome(s: State, run: seq<Step>): State
    requires IsRun(s, run)
    decreases |run|
  {
    if run == [] then s else Outcome(After(s, run[0]), run[1..])
  }

  /** After any run of the kernel's operations every live task is on exactly one list, ready
      tasks on the list of their priority; and if one is ready, selection picks one that no
      ready task outranks. */
  lemma {:induction false} EveryRunSound(s: State, run: seq<Step>)
    requires s.Sound() && IsRun(s, run)
    ensures var r := Outcome(s, run);
            r.Sound() && (SomeReady(r) ==> SelectsHighest(r))
    decreases |run|
  {
    if run == [] {
      SelectionFindsIff(s);
      if SomeReady(s) { SelectionIsHighest(s); }
    } else {
      StepSound(s, run[0]);
      EveryRunSound(After(s, run[0]), run[1..]);
    }
  }

  // ----- where a task is, told from the history

  datatype Standing = Absent | At(place: Place, priority: nat)

  /** One more step, as far as t is concerned. */
  function Continued(y: Standing, e: Step, t: Id): Standing {
    if e.Select? || e.t != t then y
    else if e.Create? then At(Ready(e.p), e.p)
    else if y.Absent? || e.CleanUp? || (e.Delete? && !e.running) then Absent
    else match e
         case Block(_, which, _) => y.(place := Delay(which))
         case MakeReady(_) => y.(place := Ready(y.priority))
         case SetPriority(_, p) => At(if y.place.Ready? then Ready(p) else y.place, p)
         case Delete(_, _) => y.(place := Termination)
         case BlockForever(_) => y.(place := Suspended)
         case Suspend(_) => y.(place := Suspended)
         case _ => y
  }

  function Told(y: Standing, run: seq<Step>, t: Id): Standing
    decreases |run|
  {
    if run == [] then y else Told(Continued(y, run[0], t), run[1..], t)
  }

  predicate Shows(s: State, t: Id, y: Standing) {
    match y
    case Absent => t !in s.container
    case At(place, p) => t in s.container && t in s.priority && s.container[t] == place && s.priority[t] == p
  }

  lemma StepShows(s: State, e: Step, t: Id, y: Standing)
    requires Enabled(s, e) && Shows(s, t, y)
    ensures Shows(After(s, e), t, Continued(y, e, t))
  {
    if e.SetPriority? || e.MakeReady? || e.Create? { ReadyingShows(s, e, t, y); }
  }

  lemma ReadyingShows(s: State, e: Step, t: Id, y: Standing)
    requires Enabled(s, e) && Shows(s, t, y) && (e.SetPriority? || e.MakeReady? || e.Create?)
    ensures Shows(After(s, e), t, Continued(y, e, t))
  {
  }

  /** After any run each task is on the list, with the priority, that the history says: a task
      that was readied is on the ready list of its priority, one that blocked or was suspended
      is where it went, one that was deleted is nowhere. */
  lemma {:induction false} EveryRunPlaces(s: State, run: seq<Step>, t: Id, y: Standing)
    requires s.Sound() && IsRun(s, run) && Shows(s, t, y)
    ensures var r := Outcome(s, run);
            && Shows(r, t, Told(y, run, t))
            && (Told(y, run, t).At? ==>
                  Told(y, run, t).place in r.lists && t in r.lists[Told(y, run, t).place].items)
    decreases |run|
  {
    if run != [] {
      StepSound(s, run[0]);
      StepShows(s, run[0], t, y);
      EveryRunPlaces(After(s, run[0]), run[1..], t, Continued(y, run[0], t));
    } else if y.At? {
      assert s.On(t, y.place);
    }
  }

  /** A selection moves on the index of one list, to the task it selects, and lowers the record
      to that list; every list keeps its items in order. */
  lemma SelectionMovesOn(s: State)
    requires s.Sound() && TopList(s, s.topReady) >= 0
    ensures var r, p := Selected(s), Ready(s.priority[Chosen(s)]);
            && Chosen(s) in s.priority && p in s.lists && p in r.lists && s.lists[p].items != []
            && r.lists.Keys == s.lists.Keys && r.container == s.container && r.priority == s.priority
            && r.lists[p] == Advance(s.lists[p]) && r.lists[p].items[r.lists[p].index] == Chosen(s)
            && r.topReady == p.priority && forall q :: q in s.lists && q != p ==> r.lists[q] == s.lists[q]
  {
    SelectionIsHighest(s);
  }
}

/** The members of tasks.c that move state items and select the next task. */
module ReadyLists {
  import opened ListView
  import opened StateItems

  class Scheduler {
    const priorities: nat
    var lists: map<Place, View<Id>>
    var container: map<Id, Place>
    var priority: map<Id, nat>
    var topReadyPriority: nat
    var current: Id
    var schedulerSuspended: nat
    var yieldPending: bool

    ghost function Snapshot(): State
      reads this
    {
      State(priorities, lists, container, priority, topReadyPriority)
    }

    ghost predicate Valid()
      reads this
    {
      Snapshot().Sound()
    }

    /** prvInitialiseTaskLists: no tasks yet. */
    constructor (priorities: nat)
      requires priorities > 0
      ensures Valid() && this.priorities == priorities && container == map[] && schedulerSuspended == 0
    {
      this.priorities := priorities;
      lists := EmptyLists(priorities);
      container, priority, topReadyPriority, current := map[], map[], 0, 0;
      schedulerSuspended, yieldPending := 0, false;
      EmptyListsSound(priorities);
    }

    /** The state item of t leaves its list. */
    method RemoveStateItem(t: Id)
      requires Valid() && t in container
      modifies `lists, `container
      ensures Snapshot() == Unlinked(old(Snapshot()), t) && LinkedBut(Snapshot(), t)
    {
      UnlinkFacts(Snapshot(), t);
      var p := container[t];
      lists := lists[p := Remove(lists[p], t)];
      container := container - {t};
    }

    /** prvAddTaskToReadyList. */
    method AddTaskToReadyList(t: Id)
      requires LinkedBut(Snapshot(), t)
      modifies `lists, `container, `topReadyPriority
      ensures t in priority && Snapshot() == MadeReady(old(Snapshot()), t) && Valid()
      ensures container == old(container)[t := Ready(priority[t])] && priority[t] <= topReadyPriority
    {
      MakeReadyFacts(Snapshot(), t);
      if priority[t] > topReadyPriority {
        topReadyPriority := priority[t];
      }
      var p := Ready(priority[t]);
      lists := lists[p := InsertEnd(lists[p], t)];
      container := container[t := p];
    }

    /** The list handling of vTaskSuspend, and of a task blocking without a timeout. */
    method MoveToSuspendedList(t: Id)
      requires Valid() && t in container
      modifies `lists, `container
      ensures Snapshot() == Parked(old(Snapshot()), t, Suspended) && Valid()
      ensures t in container && container[t] == Suspended && t in lists[Suspended].items && priority == old(priority)
    {
      ParkSound(Snapshot(), t, Suspended);
      RemoveStateItem(t);
      lists := lists[Suspended := InsertEnd(lists[Suspended], t)];
      container := container[t := Suspended];
    }

    /** The list handling of unblocking and resuming. */
    method MoveToReadyList(t: Id)
      requires Valid() && t in container
      modifies `lists, `container, `topReadyPriority
      ensures Snapshot() == Readied(old(Snapshot()), t) && Valid()
      ensures t in container && container[t] == Ready(priority[t]) && priority == old(priority)
      ensures t in lists[container[t]].items && priority[t] <= topReadyPriority
    {
      RemoveStateItem(t);
      AddTaskToReadyList(t);
      assert Snapshot().On(t, container[t]);
    }

    /** The list handling that vTaskPrioritySet and the inheritance functions share: a ready
        task is moved to the list of its new priority. */
    method ChangePriority(t: Id, newPriority: nat)
      requires Valid() && t in container && newPriority < priorities
      modifies `lists, `container, `priority, `topReadyPriority
      ensures Snapshot() == Reprioritised(old(Snapshot()), t, newPriority) && Valid()
      ensures container[t] == if old(container)[t].Ready? then Ready(newPriority) else old(container)[t]
      ensures t in priority && priority[t] == newPriority
    {
      PrioritySound(Snapshot(), t, newPriority);
      var priorityUsedOnEntry := priority[t];
      ghost var s := Snapshot();
      if container[t] == Ready(priorityUsedOnEntry) {
        RemoveStateItem(t);
        RelabelledFacts(Snapshot(), t, newPriority);
        priority := priority[t := newPriority];
        AddTaskToReadyList(t);
      } else {
        priority := priority[t := newPriority];
      }
    }

    /** The search in taskSELECT_HIGHEST_PRIORITY_TASK.  With a task ready its assertion never
        fails, and it ends at the highest list that is not empty. */
    method FindTopPriority() returns (topPriority: nat)
      requires Valid() && SomeReady(Snapshot())
      ensures topPriority == TopList(Snapshot(), topReadyPriority)
      ensures topPriority < priorities && lists[Ready(topPriority)].items != []
      ensures forall t :: Snapshot().IsReady(t) ==> priority[t] <= topPriority
    {
      ghost var s := Snapshot();
      SelectionFindsIff(s);
      ghost var best := TopList(s, s.topReady);
      topPriority := topReadyPriority;
      while lists[Ready(topPriority)].items == []
        invariant topPriority < priorities && best >= 0 && TopList(s, topPriority) == best
        decreases topPriority
      {
        EmptyListSkipped(s, topPriority);
        assert topPriority > 0;
        topPriority := topPriority - 1;
      }
      SelectionIsHighest(s);
    }

    /** taskSELECT_HIGHEST_PRIORITY_TASK. */
    method SelectHighestPriorityTask()
      requires Valid() && SomeReady(Snapshot())
      modifies `lists, `current, `topReadyPriority
      ensures SelectsHighest(old(Snapshot())) && Snapshot() == Selected(old(Snapshot())) && Valid()
      ensures current == Chosen(old(Snapshot()))
      ensures current in priority && lists[Ready(priority[current])] == Advance(old(lists)[Ready(priority[current])])
      ensures container == old(container) && priority == old(priority) && topReadyPriority == priority[current]
    {
      ghost var s := Snapshot();
      var topPriority := FindTopPriority();
      SelectionIsHighest(s);
      SelectionMovesOn(s);
      var p := Ready(topPriority);
      var moved := Advance(lists[p]);
      lists := lists[p := moved];
      current := moved.items[moved.index];
      topReadyPriority := topPriority;
    }

    /** vTaskSwitchContext. */
    method SwitchContext()
      requires Valid() && SomeReady(Snapshot())
      modifies this
      ensures Valid() && schedulerSuspended == old(schedulerSuspended)
      ensures yieldPending <==> schedulerSuspended != 0
      ensures schedulerSuspended != 0 ==> Snapshot() == old(Snapshot()) && current == old(current)
      ensures schedulerSuspended == 0 ==>
        SelectsHighest(old(Snapshot())) && current == Chosen(old(Snapshot())) && Snapshot() == Selected(old(Snapshot()))
    {
      if schedulerSuspended != 0 {
        yieldPending := true;
      } else {
        yieldPending := false;
        SelectHighestPriorityTask();
      }
    }
  }
}
