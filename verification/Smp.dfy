/** Task selection on several cores (tasks.c), with tasks of different priorities allowed to
    run at once and core affinity in use. */
module CoreStates {
  import opened Options
  import opened ListView

  type Id = nat
  type Core = nat

  /** A task asked to yield keeps its core but no longer says which it is. */
  datatype RunState = NotRunning | RunningOn(core: Core) | ScheduledToYield

  datatype Task = Task(priority: nat, affinity: set<Core>, isIdle: bool, runState: RunState)

  /** `ready[p]` is the ready list of priority p, head first. */
  datatype State = State(tasks: map<Id, Task>, ready: seq<seq<Id>>, current: seq<Id>, topReady: nat) {

    predicate IsReady(t: Id) {
      t in tasks && tasks[t].priority < |ready| && t in ready[tasks[t].priority]
    }

    predicate ListsSound() {
      && topReady < |ready|
      && (forall p :: 0 <= p < |ready| ==> Distinct(ready[p]))
      && (forall p, t :: 0 <= p < |ready| && t in ready[p] ==> t in tasks && tasks[t].priority == p)
      && (forall p :: topReady < p < |ready| ==> ready[p] == [])
    }

    /** No two cores have the same task, and run states agree with who is current where. */
    predicate Assigned() {
      && Distinct(current) && (forall c :: 0 <= c < |current| ==> current[c] in tasks)
      && (forall t :: t in tasks ==> (tasks[t].runState == NotRunning <==> t !in current))
      && (forall t :: t in tasks && tasks[t].runState.RunningOn? ==>
            tasks[t].runState.core < |current| && current[tasks[t].runState.core] == t)
    }

    predicate Sound() { ListsSound() && Assigned() }

    /** t may be given to the core: it is allowed there and is not running anywhere else. */
    predicate Eligible(c: Core, t: Id)
      requires c < |current| && t in tasks
    {
      c in tasks[t].affinity && (tasks[t].runState == NotRunning || t == current[c])
    }
  }

  // ----- searching

  /** The first eligible task of a list. */
  function FirstEligible(s: State, c: Core, list: seq<Id>): (r: Option<Id>)
    requires c < |s.current| && forall t :: t in list ==> t in s.tasks
    ensures r.Some? ==> r.value in list && s.Eligible(c, r.value)
    ensures r.None? ==> forall t :: t in list ==> !s.Eligible(c, t)
  {
    if list == [] then None else if s.Eligible(c, list[0]) then Some(list[0]) else FirstEligible(s, c, list[1..])
  }

  /** The same over the ready lists from priority p down. */
  function Search(s: State, c: Core, p: nat): (r: Option<Id>)
    requires s.ListsSound() && c < |s.current| && p < |s.ready|
  {
    var here := FirstEligible(s, c, s.ready[p]);
    if here.Some? || p == 0 then here else Search(s, c, p - 1)
  }

  lemma {:induction false} SearchFacts(s: State, c: Core, p: nat)
    requires s.ListsSound() && c < |s.current| && p < |s.ready|
    ensures var r := Search(s, c, p);
            && (r.Some? ==>
                  s.IsReady(r.value) && s.Eligible(c, r.value)
                  && forall t :: s.IsReady(t) && s.tasks[t].priority <= p && s.Eligible(c, t) ==>
                       s.tasks[t].priority <= s.tasks[r.value].priority <= p)
            && (r.None? ==> forall t :: s.IsReady(t) && s.tasks[t].priority <= p ==> !s.Eligible(c, t))
  {
    var here := FirstEligible(s, c, s.ready[p]);
    if here.None? && p > 0 { SearchFacts(s, c, p - 1); }
  }

  /** The highest list at or below p that is not empty, if there is one. */
  function TopNonEmpty(s: State, p: nat): (q: nat)
    requires p < |s.ready|
    ensures q <= p && forall k :: q < k <= p ==> s.ready[k] == []
  {
    if s.ready[p] != [] || p == 0 then p else TopNonEmpty(s, p - 1)
  }

  lemma SearchStep(s: State, c: Core, p: nat)
    requires s.ListsSound() && c < |s.current| && p < |s.ready|
    ensures var here := FirstEligible(s, c, s.ready[p]);
            Search(s, c, p) == if here.Some? || p == 0 then here else Search(s, c, p - 1)
    ensures s.ready[p] == [] ==> FirstEligible(s, c, s.ready[p]) == None
  {
  }

  ghost predicate NobodyReady(s: State) { forall t :: !s.IsReady(t) }

  /** The search has found nothing but empty lists above p, and has lowered the record to it. */
  predicate StillFalling(s: State, p: nat, top: int) {
    && p < |s.ready| && s.topReady < |s.ready| && top == p && TopNonEmpty(s, p) == TopNonEmpty(s, s.topReady)
    && forall q :: p < q < |s.ready| ==> s.ready[q] == []
  }

  /** It falls below zero exactly if nobody is ready. */
  lemma FallsOn(s: State, p: nat, top: int)
    requires s.ListsSound() && StillFalling(s, p, top) && s.ready[p] == []
    ensures p > 0 ==> StillFalling(s, p - 1, top - 1)
    ensures p == 0 ==> NobodyReady(s)
  {
    if p == 0 {
      forall t ensures !s.IsReady(t) {
        assert t in s.tasks && s.tasks[t].priority < |s.ready| ==> s.ready[s.tasks[t].priority] == [];
      }
    }
  }

  /** One core, whose task is on no ready list: the search reaches below zero. */
  lemma NobodyReadyReachable()
    ensures var s := State(map[0 := Task(0, {0}, false, RunningOn(0))], [[]], [0], 0);
            s.Sound() && NobodyReady(s) && StillFalling(s, 0, 0) && s.ready[0] == []
  {
  }

  lemma FallsNoFurther(s: State, p: nat, top: int)
    requires s.ListsSound() && StillFalling(s, p, top) && s.ready[p] != []
    ensures top == TopNonEmpty(s, s.topReady) && !NobodyReady(s)
  {
    assert s.ready[p][0] in s.ready[p];
    assert s.IsReady(s.ready[p][0]);
  }

  // ----- one selection

  /** A running task that is still ready goes to the end of its list first. */
  function Rotated(s: State, c: Core): State
    requires s.Sound() && c < |s.current|
  {
    var t := s.current[c];
    var p := s.tasks[t].priority;
    if s.IsReady(t) then s.(ready := s.ready[p := Removed(s.ready[p], IndexOf(s.ready[p], t)) + [t]]) else s
  }

  lemma RotateFacts(s: State, c: Core)
    requires s.Sound() && c < |s.current|
    ensures var r := Rotated(s, c);
            && r.Sound() && (forall u :: r.IsReady(u) <==> s.IsReady(u))
            && (s.IsReady(s.current[c]) ==> r.ready[s.tasks[s.current[c]].priority] != [])
  {
    var t, r := s.current[c], Rotated(s, c);
    if s.IsReady(t) {
      var p := s.tasks[t].priority;
      RemovedFacts(s.ready[p], IndexOf(s.ready[p], t));
      AppendFacts(Removed(s.ready[p], IndexOf(s.ready[p], t)), t);
      assert forall u :: u in r.ready[p] <==> u in s.ready[p];
      assert s.ready[p] != [] && p <= s.topReady;
    }
  }

  lemma AppendFacts(list: seq<Id>, t: Id)
    requires Distinct(list) && t !in list
    ensures Distinct(list + [t]) && forall u :: u in list + [t] <==> u in list || u == t
  {
    assert (list + [t])[|list|] == t;
  }

  /** Hand the core to t: its previous task stops running. */
  function Assign(s: State, c: Core, t: Id): State
    requires c < |s.current| && t in s.tasks && s.current[c] in s.tasks
  {
    var previous := s.current[c];
    var stopped := s.tasks[previous := s.tasks[previous].(runState := NotRunning)];
    s.(tasks := stopped[t := stopped[t].(runState := RunningOn(c))], current := s.current[c := t])
  }

  lemma AssignSound(s: State, c: Core, t: Id)
    requires s.Sound() && c < |s.current| && t in s.tasks && s.Eligible(c, t)
    ensures Assign(s, c, t).Sound()
    ensures forall u :: Assign(s, c, t).IsReady(u) <==> s.IsReady(u)
  {
    AssignKeepsAssigned(s, c, t);
  }

  lemma AssignKeepsAssigned(s: State, c: Core, t: Id)
    requires s.Assigned() && c < |s.current| && t in s.tasks && s.Eligible(c, t)
    ensures Assign(s, c, t).Assigned()
  {
    var r, previous := Assign(s, c, t), s.current[c];
    assert t == previous || t !in s.current;
    forall u | u in r.tasks ensures r.tasks[u].runState == NotRunning <==> u !in r.current {
      StillCurrent(s, c, t, u);
    }
  }

  lemma StillCurrent(s: State, c: Core, t: Id, u: Id)
    requires c < |s.current| && Distinct(s.current)
    ensures u in s.current[c := t] <==> u == t || (u in s.current && u != s.current[c])
  {
    var r := s.current[c := t];
    if u in s.current && u != s.current[c] {
      assert r[IndexOf(s.current, u)] == u;
    }
    assert r[c] == t;
  }

  /** prvSelectHighestPriorityTask. */
  function Selected(s: State, c: Core): State
    requires s.Sound() && c < |s.current|
  {
    RotateFacts(s, c);
    var m := Rotated(s, c);
    SearchFacts(m, c, m.topReady);
    var found := Search(m, c, m.topReady);
    var r := m.(topReady := TopNonEmpty(m, m.topReady));
    if found.Some? then Assign(r, c, found.value) else r
  }

  /** t is a ready task that may have the core and no such task outranks it. */
  ghost predicate Best(s: State, c: Core, t: Id)
    requires c < |s.current|
  {
    && s.IsReady(t) && s.Eligible(c, t)
    && forall u :: s.IsReady(u) && s.Eligible(c, u) ==> s.tasks[u].priority <= s.tasks[t].priority
  }

  ghost predicate NobodyFor(s: State, c: Core)
    requires c < |s.current|
  {
    forall t :: s.IsReady(t) ==> !s.Eligible(c, t)
  }

  /** Searching the rotated lists from the top finds the best task there is. */
  lemma SearchFindsBest(s: State, c: Core, m: State)
    requires s.Sound() && c < |s.current| && m == Rotated(s, c) && m.Sound()
    requires forall u :: m.IsReady(u) <==> s.IsReady(u)
    ensures match Search(m, c, m.topReady)
            case Some(t) => Best(s, c, t)
            case None => NobodyFor(s, c)
  {
    SearchFacts(m, c, m.topReady);
    assert forall u :: s.IsReady(u) ==> m.IsReady(u) && m.tasks[u].priority <= m.topReady;
  }

  /** What a selection guarantees: assignments stay injective and consistent, readiness is
      untouched, other cores keep their tasks, and if any ready task may have the core, one
      of maximal priority among them gets it; otherwise the core keeps its task. */
  ghost predicate SelectEffect(s: State, c: Core, r: State)
    requires c < |s.current|
  {
    && r.Sound() && |r.current| == |s.current| && r.topReady <= s.topReady
    && (forall u :: r.IsReady(u) <==> s.IsReady(u))
    && (forall d :: 0 <= d < |s.current| && d != c ==> r.current[d] == s.current[d])
    && if NobodyFor(s, c) then r.current == s.current && r.tasks == s.tasks
       else Best(s, c, r.current[c]) && r.tasks[r.current[c]].runState == RunningOn(c)
  }

  lemma SelectionFacts(s: State, c: Core, r: State)
    requires s.Sound() && c < |s.current| && r == Selected(s, c)
    ensures SelectEffect(s, c, r)
  {
    RotateFacts(s, c);
    var m := Rotated(s, c);
    SearchFindsBest(s, c, m);
    var q := m.(topReady := TopNonEmpty(m, m.topReady));
    LoweredLists(m, q);
    LoweredAssigned(m, q);
    match Search(m, c, m.topReady)
    case Some(t) => SelectSome(s, c, q, t);
    case None =>
  }

  lemma SelectSome(s: State, c: Core, q: State, t: Id)
    requires q.Sound() && c < |s.current| && Best(s, c, t)
    requires q.tasks == s.tasks && q.current == s.current && |q.ready| == |s.ready| && q.topReady <= s.topReady
    requires forall u :: q.IsReady(u) <==> s.IsReady(u)
    ensures SelectEffect(s, c, Assign(q, c, t))
  {
    AssignSound(q, c, t);
  }

  lemma LoweredLists(m: State, q: State)
    requires m.ListsSound() && q == m.(topReady := TopNonEmpty(m, m.topReady))
    ensures q.ListsSound() && forall u :: q.IsReady(u) <==> m.IsReady(u)
  {
    forall p | q.topReady < p < |q.ready| ensures q.ready[p] == [] { EmptyAboveTop(m, p); }
    RecordedAnew(m, q);
  }

  lemma RecordedAnew(m: State, q: State)
    requires m.ListsSound() && q == m.(topReady := q.topReady) && q.topReady < |q.ready|
    requires forall p :: q.topReady < p < |q.ready| ==> q.ready[p] == []
    ensures q.ListsSound() && forall u :: q.IsReady(u) <==> m.IsReady(u)
  {
  }

  lemma EmptyAboveTop(m: State, p: nat)
    requires m.ListsSound() && TopNonEmpty(m, m.topReady) < p < |m.ready|
    ensures m.ready[p] == []
  {
  }

  lemma LoweredAssigned(m: State, q: State)
    requires m.Assigned() && q.tasks == m.tasks && q.current == m.current
    ensures q.Assigned()
  {
  }

  // ----- turns among equals

  /** t has gone from its place to the end of a list. */
  predicate MovedToEnd(before: seq<Id>, t: Id, after: seq<Id>) {
    exists k: nat :: k < |before| && before[k] == t && after == before[..k] + before[k + 1..] + [t]
  }

  /** a is ahead of b. */
  predicate Ahead(list: seq<Id>, a: Id, b: Id) {
    a in list && b in list && IndexOf(list, a) < IndexOf(list, b)
  }

  /** The first eligible task of a list has no other ahead of it. */
  lemma {:induction false} FirstEligibleIsFirst(s: State, c: Core, list: seq<Id>, u: Id)
    requires c < |s.current| && (forall t :: t in list ==> t in s.tasks) && u in list && s.Eligible(c, u)
    ensures var r := FirstEligible(s, c, list); r.Some? && IndexOf(list, r.value) <= IndexOf(list, u)
  {
    if !s.Eligible(c, list[0]) {
      assert u in list[1..];
      FirstEligibleIsFirst(s, c, list[1..], u);
      IndexInRest(list, u);
      IndexInRest(list, FirstEligible(s, c, list[1..]).value);
    }
  }

  lemma IndexInRest(list: seq<Id>, u: Id)
    requires list != [] && u in list[1..]
    ensures IndexOf(list, u) == if list[0] == u then 0 else IndexOf(list[1..], u) + 1
  {
  }

  lemma {:induction false} SearchTakesFirst(s: State, c: Core, p: nat)
    requires s.ListsSound() && c < |s.current| && p < |s.ready| && Search(s, c, p).Some?
    ensures var t := Search(s, c, p).value;
            && t in s.tasks && s.tasks[t].priority <= p
            && FirstEligible(s, c, s.ready[s.tasks[t].priority]) == Some(t)
  {
    if FirstEligible(s, c, s.ready[p]).None? && p > 0 { SearchTakesFirst(s, c, p - 1); }
  }

  lemma MovedElements(before: seq<Id>, k: nat, after: seq<Id>)
    requires k < |before| && after == before[..k] + before[k + 1..] + [before[k]]
    ensures |after| == |before| && after[|before| - 1] == before[k]
    ensures forall j :: 0 <= j < k ==> after[j] == before[j]
    ensures forall j :: k < j < |before| ==> after[j - 1] == before[j]
  {
  }

  /** Where a task stands after the k-th has gone to the end. */
  lemma PlacesAfterMove(before: seq<Id>, k: nat, after: seq<Id>, i: nat)
    requires Distinct(before) && Distinct(after) && k < |before| && i < |before|
    requires after == before[..k] + before[k + 1..] + [before[k]]
    ensures var j := if i == k then |before| - 1 else if i < k then i else i - 1;
            before[i] in after && IndexOf(after, before[i]) == j && IndexOf(before, before[i]) == i
  {
    MovedElements(before, k, after);
    IndexOfUnique(before, before[i], i);
    IndexOfUnique(after, before[i], if i == k then |before| - 1 else if i < k then i else i - 1);
  }

  /** How a selection is put together. */
  lemma SelectedParts(s: State, c: Core, m: State, r: State)
    requires s.Sound() && c < |s.current| && m == Rotated(s, c) && m.Sound() && r == Selected(s, c)
    ensures r.ready == m.ready && m.tasks == s.tasks && m.current == s.current
    ensures r.tasks.Keys == s.tasks.Keys
    ensures forall t :: t in s.tasks ==>
              r.tasks[t].priority == s.tasks[t].priority && r.tasks[t].affinity == s.tasks[t].affinity
    ensures |r.current| == |s.current|
    ensures r.current[c] == match Search(m, c, m.topReady) case Some(t) => t case None => s.current[c]
  {
    SearchFacts(m, c, m.topReady);
  }

  /** What a selection does to the order of the ready lists: the task that had the core, if it
      is still ready, is the last of its list, and all else is as it was. */
  lemma RunningTaskGoesLast(s: State, c: Core, r: State)
    requires s.Sound() && c < |s.current| && r == Selected(s, c)
    ensures var t := s.current[c];
            var p := s.tasks[t].priority;
            && |r.ready| == |s.ready|
            && (!s.IsReady(t) ==> r.ready == s.ready)
            && (s.IsReady(t) ==>
                  && MovedToEnd(s.ready[p], t, r.ready[p])
                  && forall q :: 0 <= q < |s.ready| && q != p ==> r.ready[q] == s.ready[q])
  {
    RotateFacts(s, c);
    SelectedParts(s, c, Rotated(s, c), r);
    RotationMovesToEnd(s, c, Rotated(s, c));
  }

  lemma RotationMovesToEnd(s: State, c: Core, m: State)
    requires s.Sound() && c < |s.current| && m == Rotated(s, c)
    ensures var t := s.current[c];
            var p := s.tasks[t].priority;
            && |m.ready| == |s.ready|
            && (!s.IsReady(t) ==> m.ready == s.ready)
            && (s.IsReady(t) ==>
                  && MovedToEnd(s.ready[p], t, m.ready[p])
                  && forall q :: 0 <= q < |s.ready| && q != p ==> m.ready[q] == s.ready[q])
  {
    var t := s.current[c];
    if s.IsReady(t) {
      var list := s.ready[s.tasks[t].priority];
      var k := IndexOf(list, t);
      assert list[k] == t && Removed(list, k) + [t] == list[..k] + list[k + 1..] + [t];
    }
  }

  /** Where u stands among its equals before and after a selection. */
  lemma StandsAfterSelection(s: State, c: Core, r: State, u: Id)
    requires s.Sound() && c < |s.current| && r == Selected(s, c) && r.Sound() && s.IsReady(u) && u != s.current[c]
    ensures var p, t := s.tasks[u].priority, s.current[c];
            && u in r.ready[p]
            && IndexOf(r.ready[p], u) == IndexOf(s.ready[p], u) - if Ahead(s.ready[p], t, u) then 1 else 0
  {
    RunningTaskGoesLast(s, c, r);
    var p, t := s.tasks[u].priority, s.current[c];
    if s.IsReady(t) && s.tasks[t].priority == p {
      var k: nat :| k < |s.ready[p]| && s.ready[p][k] == t && r.ready[p] == s.ready[p][..k] + s.ready[p][k + 1..] + [t];
      IndexOfUnique(s.ready[p], t, k);
      PlacesAfterMove(s.ready[p], k, r.ready[p], IndexOf(s.ready[p], u));
    }
  }

  /** The task that gets the core is, among those of its priority that may have it, the first
      in line once the one that had it has gone to the end. */
  lemma FirstInLineGetsTheCore(s: State, c: Core, r: State, u: Id)
    requires s.Sound() && c < |s.current| && r == Selected(s, c) && r.Sound()
    requires s.IsReady(u) && s.Eligible(c, u)
    ensures |r.current| == |s.current| && r.current[c] in r.tasks && s.tasks[u].priority < |r.ready|
    ensures r.tasks[r.current[c]].priority == s.tasks[u].priority ==>
              var list := r.ready[s.tasks[u].priority];
              r.current[c] in list && u in list && IndexOf(list, r.current[c]) <= IndexOf(list, u)
  {
    RotateFacts(s, c);
    var m := Rotated(s, c);
    SelectedParts(s, c, m, r);
    FirstFound(m, c, u);
  }

  lemma FirstFound(m: State, c: Core, u: Id)
    requires m.Sound() && c < |m.current| && m.IsReady(u) && m.Eligible(c, u)
    ensures var found := Search(m, c, m.topReady);
            && found.Some? && found.value in m.tasks
            && (m.tasks[found.value].priority == m.tasks[u].priority ==>
                  var list := m.ready[m.tasks[u].priority];
                  found.value in list && IndexOf(list, found.value) <= IndexOf(list, u))
  {
    SearchFacts(m, c, m.topReady);
    assert m.tasks[u].priority <= m.topReady;
    SearchTakesFirst(m, c, m.topReady);
    FirstEligibleIsFirst(m, c, m.ready[m.tasks[u].priority], u);
  }

  /** In terms of the assignment alone: t may have the core if it is allowed there and no other
      core has it. */
  lemma EligibleIff(s: State, c: Core, t: Id)
    requires s.Assigned() && c < |s.current| && t in s.tasks
    ensures s.Eligible(c, t) <==>
              c in s.tasks[t].affinity && forall d :: 0 <= d < |s.current| && d != c ==> s.current[d] != t
  {
    if t in s.current { assert s.current[IndexOf(s.current, t)] == t; }
  }

  /** Selecting for a core changes nothing in who may have it. */
  lemma SameEligible(s: State, c: Core, r: State, t: Id)
    requires s.Sound() && r.Sound() && c < |s.current| == |r.current| && t in s.tasks && t in r.tasks
    requires r.tasks[t].affinity == s.tasks[t].affinity
    requires forall d :: 0 <= d < |s.current| && d != c ==> r.current[d] == s.current[d]
    ensures r.Eligible(c, t) <==> s.Eligible(c, t)
  {
    EligibleIff(s, c, t);
    EligibleIff(r, c, t);
  }

  /** u is a best task for the core but does not have it. */
  ghost predicate WaitsForCore(s: State, c: Core, u: Id)
    requires c < |s.current|
  {
    Best(s, c, u) && u != s.current[c]
  }

  lemma BestStays(s: State, c: Core, r: State, u: Id)
    requires s.Sound() && c < |s.current| && r == Selected(s, c) && Best(s, c, u)
    ensures r.Sound() && |r.current| == |s.current| && Best(r, c, u) && Best(r, c, r.current[c])
    ensures r.tasks[u].priority == s.tasks[u].priority == r.tasks[r.current[c]].priority
  {
    SelectionFacts(s, c, r);
    RotateFacts(s, c);
    SelectedParts(s, c, Rotated(s, c), r);
    forall t | t in s.tasks ensures r.Eligible(c, t) <==> s.Eligible(c, t) { SameEligible(s, c, r, t); }
  }

  /** A selection that passes u over gives the core to a task ahead of it, and u moves up if
      the task that had the core was ahead of it too. */
  lemma MovesUp(s: State, c: Core, r: State, u: Id)
    requires s.Sound() && c < |s.current| && r == Selected(s, c) && WaitsForCore(s, c, u)
    requires |r.current| == |s.current| && r.current[c] != u
    ensures r.Sound() && WaitsForCore(r, c, u) && r.tasks[u].priority == s.tasks[u].priority
    ensures var p := s.tasks[u].priority;
            && p < |s.ready| && p < |r.ready| && u in s.ready[p] && Ahead(r.ready[p], r.current[c], u)
            && IndexOf(r.ready[p], u) == IndexOf(s.ready[p], u) - if Ahead(s.ready[p], s.current[c], u) then 1 else 0
  {
    BestStays(s, c, r, u);
    StandsAfterSelection(s, c, r, u);
    FirstInLineGetsTheCore(s, c, r, u);
  }

  predicate SelectedNext(s: State, c: Core, r: State) {
    s.Sound() && c < |s.current| && |r.current| == |s.current| && r == Selected(s, c)
  }

  /** Each state is what a selection for core c makes of the one before. */
  predicate Selections(states: seq<State>, c: Core) {
    forall i :: 0 < i < |states| ==> SelectedNext(states[i - 1], c, states[i])
  }

  /** The n-th state has given the core to u. */
  predicate HasCore(states: seq<State>, n: nat, c: Core, u: Id) {
    n < |states| && c < |states[n].current| && states[n].current[c] == u
  }

  /** The number of tasks ahead of u on its ready list. */
  function Place(s: State, u: Id): nat {
    if s.IsReady(u) then IndexOf(s.ready[s.tasks[u].priority], u) else 0
  }

  /** u waits, and the task that has the core is ahead of it. */
  ghost predicate NextButFor(s: State, c: Core, u: Id) {
    && s.Sound() && c < |s.current| && WaitsForCore(s, c, u)
    && Ahead(s.ready[s.tasks[u].priority], s.current[c], u)
  }

  lemma PassedOver(s: State, c: Core, r: State, u: Id)
    requires s.Sound() && c < |s.current| && r == Selected(s, c) && WaitsForCore(s, c, u)
    requires |r.current| == |s.current| && r.current[c] != u
    ensures NextButFor(r, c, u) && Place(r, u) <= Place(s, u) && (NextButFor(s, c, u) ==> Place(r, u) < Place(s, u))
  {
    MovesUp(s, c, r, u);
  }

  /** One selection either gives u the core or brings it closer. */
  lemma OneSelection(s: State, c: Core, r: State, u: Id)
    requires SelectedNext(s, c, r) && WaitsForCore(s, c, u)
    ensures r.current[c] == u
            || (NextButFor(r, c, u) && Place(r, u) <= Place(s, u)
                && (NextButFor(s, c, u) ==> Place(r, u) < Place(s, u)))
  {
    BestStays(s, c, r, u);
    if r.current[c] != u { PassedOver(s, c, r, u); }
  }

  lemma WaitersHaveRoom(s: State, c: Core, u: Id)
    requires NextButFor(s, c, u)
    ensures Place(s, u) > 0
  {
  }

  /** u gets the core in one of the next selections from the i-th state on. */
  lemma {:induction false} TurnComes(states: seq<State>, i: nat, c: Core, u: Id) returns (n: nat)
    requires Selections(states, c) && i < |states| && NextButFor(states[i], c, u) && i + Place(states[i], u) < |states|
    ensures i < n <= i + Place(states[i], u) && HasCore(states, n, c, u)
    decreases |states| - i
  {
    WaitersHaveRoom(states[i], c, u);
    assert SelectedNext(states[i], c, states[i + 1]);
    OneSelection(states[i], c, states[i + 1], u);
    if states[i + 1].current[c] == u {
      n := i + 1;
    } else {
      n := TurnComes(states, i + 1, c, u);
    }
  }

  /** Equals share a core: a task that may have it, that nobody outranks, and that has k others
      ahead of it on its ready list, gets the core within k + 1 selections. */
  lemma EqualsShareTheCore(states: seq<State>, c: Core, u: Id) returns (n: nat)
    requires Selections(states, c) && states != [] && c < |states[0].current| && WaitsForCore(states[0], c, u)
    requires |states| > Place(states[0], u) + 1
    ensures 1 <= n <= Place(states[0], u) + 1 && HasCore(states, n, c, u)
  {
    assert SelectedNext(states[0], c, states[1]);
    OneSelection(states[0], c, states[1], u);
    if states[1].current[c] == u {
      n := 1;
    } else {
      n := TurnComes(states, 1, c, u);
    }
  }

  // ----- asking another core to yield

  /** prvYieldCore for a core other than the caller's. */
  function AskedToYield(s: State, c: Core): State
    requires c < |s.current| && s.current[c] in s.tasks
  {
    s.(tasks := s.tasks[s.current[c] := s.tasks[s.current[c]].(runState := ScheduledToYield)])
  }

  lemma AskKeepsSound(s: State, c: Core)
    requires s.Sound() && c < |s.current|
    ensures AskedToYield(s, c).Sound() && forall u :: AskedToYield(s, c).IsReady(u) <==> s.IsReady(u)
  {
    var t, r := s.current[c], AskedToYield(s, c);
    assert t in s.current;
    assert r.ListsSound();
    AskKeepsAssigned(s, c, r);
  }

  /** Only the run state of the task on that core changes. */
  lemma AskChanges(s: State, c: Core)
    requires s.Sound() && c < |s.current|
    ensures var r, t := AskedToYield(s, c), s.current[c];
            && r == s.(tasks := r.tasks) && r.tasks.Keys == s.tasks.Keys
            && r.tasks[t] == s.tasks[t].(runState := ScheduledToYield)
            && forall u :: u in s.tasks && u != t ==> r.tasks[u] == s.tasks[u]
  {
  }

  lemma AskKeepsAssigned(s: State, c: Core, r: State)
    requires s.Assigned() && c < |s.current| && r == AskedToYield(s, c)
    ensures r.Assigned()
  {
    assert s.current[c] in s.current;
  }

  // ----- whole runs

  /** Tasks also become ready and stop being ready, and their affinity and priority change,
      wherever they run. */
  datatype Step =
    | Select(c: Core) | Ask(c: Core) | MakeReady(t: Id) | Unready(t: Id)
    | SetAffinity(t: Id, allowed: set<Core>) | SetPriority(t: Id, p: nat)

  predicate Enabled(s: State, e: Step) {
    s.Sound() &&
    match e
    case Select(c) => c < |s.current|
    case Ask(c) => c < |s.current|
    case MakeReady(t) => t in s.tasks && s.tasks[t].priority < |s.ready| && !s.IsReady(t)
    case Unready(t) => s.IsReady(t)
    case SetAffinity(t, allowed) => t in s.tasks
    case SetPriority(t, p) => t in s.tasks && p < |s.ready|
  }

  function ReadiedAt(s: State, t: Id, p: nat): State
    requires p < |s.ready|
  {
    s.(ready := s.ready[p := s.ready[p] + [t]], topReady := if p > s.topReady then p else s.topReady)
  }

  function Unreadied(s: State, t: Id): State
    requires s.IsReady(t)
  {
    var p := s.tasks[t].priority;
    s.(ready := s.ready[p := Removed(s.ready[p], IndexOf(s.ready[p], t))])
  }

  function Relabelled(s: State, t: Id, p: nat): State
    requires t in s.tasks
  {
    s.(tasks := s.tasks[t := s.tasks[t].(priority := p)])
  }

  function After(s: State, e: Step): State
    requires Enabled(s, e)
  {
    match e
    case Select(c) => Selected(s, c)
    case Ask(c) => AskedToYield(s, c)
    case MakeReady(t) => ReadiedAt(s, t, s.tasks[t].priority)
    case Unready(t) => Unreadied(s, t)
    case SetAffinity(t, allowed) => s.(tasks := s.tasks[t := s.tasks[t].(affinity := allowed)])
    case SetPriority(t, p) =>
      if s.IsReady(t) then ReadiedAt(Relabelled(Unreadied(s, t), t, p), t, p) else Relabelled(s, t, p)
  }

  lemma ReadyingSound(s: State, t: Id, p: nat)
    requires s.Sound() && t in s.tasks && p < |s.ready| && s.tasks[t].priority == p && !s.IsReady(t)
    ensures ReadiedAt(s, t, p).Sound()
  {
    AppendFacts(s.ready[p], t);
    assert ReadiedAt(s, t, p).ListsSound();
    LoweredAssigned(s, ReadiedAt(s, t, p));
  }

  lemma UnreadyingSound(s: State, t: Id)
    requires s.Sound() && s.IsReady(t)
    ensures Unreadied(s, t).Sound() && !Unreadied(s, t).IsReady(t)
  {
    var list := s.ready[s.tasks[t].priority];
    RemovedFacts(list, IndexOf(list, t));
    assert Unreadied(s, t).ListsSound();
    LoweredAssigned(s, Unreadied(s, t));
  }

  /** The priority of a task on no ready list can be anything. */
  lemma RelabellingSound(s: State, t: Id, p: nat)
    requires s.Sound() && t in s.tasks && p < |s.ready| && !s.IsReady(t)
    ensures Relabelled(s, t, p).Sound() && !Relabelled(s, t, p).IsReady(t)
  {
    forall q, u | 0 <= q < |s.ready| && u in s.ready[q] ensures u != t { assert s.tasks[u].priority == q; }
    assert Relabelled(s, t, p).ListsSound();
    SameAssignment(s, Relabelled(s, t, p));
  }

  /** Assignments depend on run states alone. */
  lemma SameAssignment(s: State, r: State)
    requires s.Assigned() && r.current == s.current && r.tasks.Keys == s.tasks.Keys
    requires forall t :: t in s.tasks ==> r.tasks[t].runState == s.tasks[t].runState
    ensures r.Assigned()
  {
  }

  /** A task that becomes ready joins the end of its list and raises the record to its priority;
      one that stops being ready leaves its list, which keeps its order. */
  lemma ReadinessChanges(s: State, e: Step)
    requires Enabled(s, e) && (e.MakeReady? || e.Unready?)
    ensures var r, p := After(s, e), s.tasks[e.t].priority;
            && r.tasks == s.tasks && r.current == s.current && |r.ready| == |s.ready|
            && (forall q :: 0 <= q < |s.ready| && q != p ==> r.ready[q] == s.ready[q])
            && (e.MakeReady? ==>
                  r.ready[p] == s.ready[p] + [e.t] && r.topReady == if p > s.topReady then p else s.topReady)
            && (e.Unready? ==>
                  && r.topReady == s.topReady
                  && exists k: nat :: k < |s.ready[p]| && s.ready[p][k] == e.t
                                      && r.ready[p] == s.ready[p][..k] + s.ready[p][k + 1..])
  {
    if e.Unready? {
      var list := s.ready[s.tasks[e.t].priority];
      var k := IndexOf(list, e.t);
      assert list[k] == e.t;
    }
  }

  /** Changing an affinity changes just that, and changing a priority moves a ready task to the
      end of its new list and nothing else. */
  lemma AffinityChanges(s: State, t: Id, allowed: set<Core>)
    requires Enabled(s, SetAffinity(t, allowed))
    ensures var r := After(s, SetAffinity(t, allowed));
            && r == s.(tasks := r.tasks) && r.tasks.Keys == s.tasks.Keys && r.tasks[t].affinity == allowed
            && r.tasks[t] == s.tasks[t].(affinity := allowed)
            && forall u :: u in s.tasks && u != t ==> r.tasks[u] == s.tasks[u]
  {
  }

  lemma PriorityChanges(s: State, t: Id, p: nat)
    requires Enabled(s, SetPriority(t, p))
    ensures var r, q := After(s, SetPriority(t, p)), s.tasks[t].priority;
            && r.current == s.current && r.tasks.Keys == s.tasks.Keys && |r.ready| == |s.ready|
            && r.tasks[t] == s.tasks[t].(priority := p)
            && (forall u :: u in s.tasks && u != t ==> r.tasks[u] == s.tasks[u])
            && (!s.IsReady(t) ==> r.ready == s.ready)
            && (s.IsReady(t) && p != q ==> r.ready[p] == s.ready[p] + [t] && t !in r.ready[q])
            && (forall k :: 0 <= k < |s.ready| && k != p && k != q ==> r.ready[k] == s.ready[k])
  {
    if s.IsReady(t) { RemovedFacts(s.ready[s.tasks[t].priority], IndexOf(s.ready[s.tasks[t].priority], t)); }
  }

  lemma AffinitySound(s: State, t: Id, allowed: set<Core>)
    requires s.Sound() && t in s.tasks
    ensures After(s, SetAffinity(t, allowed)).Sound()
  {
    assert After(s, SetAffinity(t, allowed)).ListsSound();
    SameAssignment(s, After(s, SetAffinity(t, allowed)));
  }

  lemma PrioritySound(s: State, t: Id, p: nat)
    requires s.Sound() && t in s.tasks && p < |s.ready|
    ensures After(s, SetPriority(t, p)).Sound()
  {
    if s.IsReady(t) {
      UnreadyingSound(s, t);
      RelabellingSound(Unreadied(s, t), t, p);
      ReadyingSound(Relabelled(Unreadied(s, t), t, p), t, p);
    } else {
      RelabellingSound(s, t, p);
    }
  }

  lemma StepSound(s: State, e: Step)
    requires Enabled(s, e)
    ensures After(s, e).Sound() && |After(s, e).current| == |s.current|
  {
    match e
    case Select(c) => SelectionFacts(s, c, Selected(s, c));
    case Ask(c) => AskKeepsSound(s, c);
    case MakeReady(t) => ReadyingSound(s, t, s.tasks[t].priority);
    case Unready(t) => UnreadyingSound(s, t);
    case SetAffinity(t, allowed) => AffinitySound(s, t, allowed);
    case SetPriority(t, p) => PrioritySound(s, t, p);
  }

  predicate IsRun(s: State, run: seq<Step>)
    decreases |run|
  {
    run == [] || (Enabled(s, run[0]) && IsRun(After(s, run[0]), run[1..]))
  }

  function Outcome(s: State, run: seq<Step>): State
    requires IsRun(s, run)
    decreases |run|
  {
    if run == [] then s else Outcome(After(s, run[0]), run[1..])
  }

  /** In every run no task is on two cores and every run state agrees with the assignment. */
  lemma {:induction false} EveryRunAssigned(s: State, run: seq<Step>)
    requires s.Sound() && IsRun(s, run)
    ensures Outcome(s, run).Sound() && |Outcome(s, run).current| == |s.current|
    decreases |run|
  {
    if run != [] {
      StepSound(s, run[0]);
      EveryRunAssigned(After(s, run[0]), run[1..]);
    }
  }

  // ----- finding a core for a displaced task

  /** The priority a running task is compared at: idle tasks count one lower. */
  function Weight(k: Task): int {
    if k.isIdle then k.priority as int - 1 else k.priority
  }

  /** A task gives way to one of higher priority, and an idle task also to one of its own that is
      not idle. */
  lemma IdleGivesWay(k: Task, u: Task)
    ensures !u.isIdle ==>
              (Weight(k) < Weight(u) <==> if k.isIdle then k.priority <= u.priority else k.priority < u.priority)
    ensures u.isIdle && k.isIdle ==> (Weight(k) < Weight(u) <==> k.priority < u.priority)
    ensures u.isIdle && !k.isIdle ==> (Weight(k) < Weight(u) <==> k.priority + 1 < u.priority)
  {
  }

  /** A core whose task could be displaced by one of the given weight. */
  predicate Preemptable(s: State, allowed: set<Core>, pending: set<Core>, c: Core, weight: int)
    requires c < |s.current| && s.current[c] in s.tasks
  {
    && c in allowed && c !in pending && s.tasks[s.current[c]].runState.RunningOn?
    && Weight(s.tasks[s.current[c]]) < weight
  }

  /** The task a selection for core c has taken off it although it is ready. */
  function Displaced(s: State, c: Core, r: State): Option<Id>
    requires c < |s.current| && c < |r.current|
  {
    if r.current[c] != s.current[c] && r.IsReady(s.current[c]) then Some(s.current[c]) else None
  }

  /** The cores searched for a task displaced from core c: those it may run on; and if it may
      run on c, only those on which the task now on c may not. */
  function CoresFor(r: State, c: Core, t: Id): set<Core>
    requires c < |r.current| && t in r.tasks && r.current[c] in r.tasks
  {
    var affinity := r.tasks[t].affinity;
    if c in affinity then affinity - r.tasks[r.current[c]].affinity else affinity
  }

  /** What asking core x to yield for a displaced task t rests on: x is another core, t may
      run there, and the task there weighs less and has not been asked to yield. */
  predicate MayMoveTo(r: State, c: Core, t: Id, pending: set<Core>, x: Core)
    requires c < |r.current| && t in r.tasks && forall d :: 0 <= d < |r.current| ==> r.current[d] in r.tasks
  {
    && x < |r.current| && x != c && x in r.tasks[t].affinity
    && (c in r.tasks[t].affinity ==> x !in r.tasks[r.current[c]].affinity)
    && x !in pending && r.tasks[r.current[x]].runState == RunningOn(x)
    && Weight(r.tasks[r.current[x]]) < Weight(r.tasks[t])
  }

  /** The effect of a whole selection for core c on the result r of the search: a displaced
      task gets the core with the least task that may move over for it, if there is one. */
  ghost predicate RehomeEffect(r: State, c: Core, displaced: Option<Id>, pending: set<Core>, asked: Option<Core>,
                               after: State)
    requires r.Sound() && c < |r.current| && (displaced.Some? ==> displaced.value in r.tasks)
  {
    match asked
    case None =>
      && after == r
      && (displaced.Some? ==> forall x: Core :: x < |r.current| ==> !MayMoveTo(r, c, displaced.value, pending, x))
    case Some(x) =>
      && displaced.Some? && x < |r.current| && MayMoveTo(r, c, displaced.value, pending, x)
          && after == AskedToYield(r, x)
      && (forall y: Core :: y < |r.current| && MayMoveTo(r, c, displaced.value, pending, y) ==>
            Weight(r.tasks[r.current[x]]) <= Weight(r.tasks[r.current[y]]))
  }

  /** Searching the cores for the displaced task is looking for one it may move to. */
  lemma PreemptableIsMayMove(r: State, c: Core, t: Id, pending: set<Core>, x: Core)
    requires r.Sound() && c < |r.current| && t in r.tasks && x < |r.current|
    requires c in r.tasks[r.current[c]].affinity
    ensures Preemptable(r, CoresFor(r, c, t), pending, x, Weight(r.tasks[t])) <==> MayMoveTo(r, c, t, pending, x)
  {
    if r.tasks[r.current[x]].runState.RunningOn? {
      assert r.current[r.tasks[r.current[x]].runState.core] == r.current[x];
    }
  }
}

/** The selection function and the search for a core for the task it displaced. */
module Smp {
  import opened Options
  import opened ListView
  import opened CoreStates

  class Scheduler {
    var tasks: map<Id, Task>
    var ready: seq<seq<Id>>
    var current: seq<Id>
    var topReadyPriority: nat
    const unsignedMax: nat
    var yieldPending: set<Core>

    constructor (s: State, unsignedMax: nat)
      requires s.Sound()
      ensures Valid() && Snapshot() == s && this.unsignedMax == unsignedMax && yieldPending == {}
    {
      tasks, ready, current, topReadyPriority := s.tasks, s.ready, s.current, s.topReady;
      this.unsignedMax, yieldPending := unsignedMax, {};
    }

    ghost function Snapshot(): State
      reads this
    {
      State(tasks, ready, current, topReadyPriority)
    }

    ghost predicate Valid()
      reads this
    {
      Snapshot().Sound()
    }

    /** The inner loop of prvSelectHighestPriorityTask: the first task of one list that may
        have the core. */
    method FindInList(c: Core, p: nat) returns (found: Option<Id>)
      requires Valid() && c < |current| && p < |ready|
      ensures found == FirstEligible(Snapshot(), c, ready[p])
    {
      var i := 0;
      found := None;
      while i < |ready[p]|
        invariant i <= |ready[p]|
        invariant FirstEligible(Snapshot(), c, ready[p][i..]) == FirstEligible(Snapshot(), c, ready[p])
      {
        var t := ready[p][i];
        if tasks[t].runState == NotRunning {
          if c in tasks[t].affinity {
            found := Some(t);
            return;
          }
        } else if t == current[c] {
          if c in tasks[t].affinity {
            found := Some(t);
            return;
          }
        }
        assert ready[p][i..][1..] == ready[p][i + 1..];
        i := i + 1;
      }
    }

    /** The outer loop: from the recorded top priority down, lowering the record while the
        lists are empty.  The record would fall below zero exactly if no task were ready. */
    method FindTask(c: Core) returns (found: Option<Id>, top: int)
      requires Valid() && c < |current|
      ensures found == Search(Snapshot(), c, topReadyPriority)
      ensures top == if NobodyReady(Snapshot()) then -1 else TopNonEmpty(Snapshot(), topReadyPriority)
    {
      ghost var s := Snapshot();
      var priority: nat := topReadyPriority;
      top := topReadyPriority;
      var decrementing := true;
      found := None;
      while found.None?
        invariant priority < |ready|
        invariant found.None? ==> Search(s, c, priority) == Search(s, c, s.topReady)
        invariant found.Some? ==> found == Search(s, c, s.topReady)
        invariant decrementing ==> found.None? && StillFalling(s, priority, top)
        invariant !decrementing ==> !NobodyReady(s) && top == TopNonEmpty(s, s.topReady)
        decreases found.None?, priority
      {
        SearchStep(s, c, priority);
        if ready[priority] != [] {
          if decrementing { FallsNoFurther(s, priority, top); }
          decrementing := false;
          found := FindInList(c, priority);
        } else if decrementing {
          FallsOn(s, priority, top);
          top := top - 1;
        }
        if priority > 0 {
          priority := priority - 1;
        } else {
          break;
        }
      }
    }

    /** A running task that is still ready goes to the end of its list. */
    method MoveCurrentToEnd(c: Core)
      requires Valid() && c < |current|
      modifies `ready
      ensures Snapshot() == Rotated(old(Snapshot()), c) && Valid()
      ensures NobodyReady(Snapshot()) <==> NobodyReady(old(Snapshot()))
    {
      RotateFacts(Snapshot(), c);
      var t := current[c];
      var p := tasks[t].priority;
      if p < |ready| && t in ready[p] {
        ready := ready[p := Removed(ready[p], IndexOf(ready[p], t)) + [t]];
      }
    }

    /** Swap a task in on a core. */
    method SwapIn(c: Core, t: Id)
      requires c < |current| && t in tasks && current[c] in tasks
      modifies `tasks, `current
      ensures Snapshot() == Assign(old(Snapshot()), c, t)
    {
      tasks := tasks[current[c] := tasks[current[c]].(runState := NotRunning)];
      tasks := tasks[t := tasks[t].(runState := RunningOn(c))];
      current := current[c := t];
    }

    /** The search of prvSelectHighestPriorityTask: by SelectionFacts the core gets the best
        task there is for it.  With no task ready at all, as before the idle tasks exist, it
        keeps its task, but the recorded top priority wraps below zero. */
    method SelectFor(c: Core)
      requires Valid() && c < |current|
      modifies `tasks, `ready, `current, `topReadyPriority
      ensures !NobodyReady(old(Snapshot())) ==> Snapshot() == Selected(old(Snapshot()), c)
      ensures NobodyReady(old(Snapshot())) ==> Snapshot() == old(Snapshot()).(topReady := unsignedMax)
    {
      ghost var s := Snapshot();
      MoveCurrentToEnd(c);
      SearchFacts(Snapshot(), c, topReadyPriority);
      var found, top := FindTask(c);
      topReadyPriority := if top < 0 then unsignedMax else top;
      if found.Some? {
        SwapIn(c, found.value);
      }
      assert NobodyReady(s) ==> found == None && !s.IsReady(s.current[c]);
    }

    /** The end of prvSelectHighestPriorityTask: a ready task that has just lost core c may
        find another whose task gives way. */
    method Rehome(c: Core, displaced: Option<Id>) returns (asked: Option<Core>)
      requires Valid() && c < |current|
               && (displaced.Some? ==> displaced.value in tasks && c in tasks[current[c]].affinity)
      modifies `tasks, `yieldPending
      ensures Valid() && current == old(current) && yieldPending == old(yieldPending)
      ensures RehomeEffect(old(Snapshot()), c, displaced, yieldPending, asked, Snapshot())
    {
      asked := None;
      if displaced.Some? {
        var k := tasks[displaced.value];
        var cores := k.affinity;
        if c in cores {
          cores := cores - tasks[current[c]].affinity;
        }
        ghost var r := Snapshot();
        forall x: Core | x < |current|
          ensures Preemptable(r, cores, yieldPending, x, Weight(k)) <==>
                  MayMoveTo(r, c, displaced.value, yieldPending, x)
        {
          PreemptableIsMayMove(r, c, displaced.value, yieldPending, x);
        }
        asked := FindCoreToPreempt(cores, if k.isIdle then k.priority as int - 1 else k.priority);
        if asked.Some? {
          YieldCore(asked.value, c);
        }
      }
    }

    /** prvSelectHighestPriorityTask. */
    method SelectHighestPriorityTask(c: Core) returns (asked: Option<Core>)
      requires Valid() && c < |current|
      modifies this
      ensures yieldPending == old(yieldPending)
      ensures NobodyReady(old(Snapshot())) ==>
                asked == None && Snapshot() == old(Snapshot()).(topReady := unsignedMax)
      ensures !NobodyReady(old(Snapshot())) ==>
                var r := Selected(old(Snapshot()), c);
                && Valid() && SelectEffect(old(Snapshot()), c, r)
                && RehomeEffect(r, c, Displaced(old(Snapshot()), c, r), yieldPending, asked, Snapshot())
    {
      ghost var s := Snapshot();
      var previous := current[c];
      SelectionFacts(s, c, Selected(s, c));
      SelectFor(c);
      if current[c] == previous {
        asked := None;
        return;
      }
      var p := tasks[previous].priority;
      var displaced := if p < |ready| && previous in ready[p] then Some(previous) else None;
      asked := Rehome(c, displaced);
    }

    /** prvYieldCore. */
    method YieldCore(c: Core, here: Core)
      requires Valid() && c < |current|
      modifies `tasks, `yieldPending
      ensures Valid() && current == old(current)
      ensures c == here ==> Snapshot() == old(Snapshot()) && yieldPending == old(yieldPending) + {c}
      ensures c != here ==> Snapshot() == AskedToYield(old(Snapshot()), c) && yieldPending == old(yieldPending)
    {
      AskKeepsSound(Snapshot(), c);
      if c == here {
        yieldPending := yieldPending + {c};
      } else {
        if tasks[current[c]].runState != ScheduledToYield {
          tasks := tasks[current[c] := tasks[current[c]].(runState := ScheduledToYield)];
        }
        assert tasks == AskedToYield(old(Snapshot()), c).tasks;
      }
    }

    /** vTaskCoreAffinitySet: a task that is running where it may not run any more is asked to
        yield. */
    method SetCoreAffinity(t: Id, allowed: set<Core>, here: Core)
      requires Valid() && t in tasks
      modifies `tasks, `yieldPending
      ensures Valid() && current == old(current)
      ensures var s, k := After(old(Snapshot()), SetAffinity(t, allowed)), old(tasks)[t].runState;
              if k.RunningOn? && k.core !in allowed && k.core != here
              then Snapshot() == AskedToYield(s, k.core) && yieldPending == old(yieldPending)
              else Snapshot() == s
                   && yieldPending == old(yieldPending) + if k.RunningOn? && k.core !in allowed then {k.core} else {}
    {
      AffinitySound(Snapshot(), t, allowed);
      tasks := tasks[t := tasks[t].(affinity := allowed)];
      if tasks[t].runState.RunningOn? && tasks[t].runState.core !in allowed {
        YieldCore(tasks[t].runState.core, here);
      }
    }

    /** The search for a core to which a displaced task of the given weight could move: the
        one with the least task among those it may preempt, if any. */
    method FindCoreToPreempt(allowed: set<Core>, weight: int) returns (found: Option<Core>)
      requires Valid()
      ensures found.None? ==> forall c: Core :: c < |current| ==>
              !Preemptable(Snapshot(), allowed, yieldPending, c, weight)
      ensures found.Some? ==>
        && found.value < |current| && Preemptable(Snapshot(), allowed, yieldPending, found.value, weight)
        && forall c: Core :: c < |current| && Preemptable(Snapshot(), allowed, yieldPending, c, weight) ==>
             Weight(tasks[current[found.value]]) <= Weight(tasks[current[c]])
    {
      var lowest := weight;
      found := None;
      var x := |current|;
      while x > 0
        invariant x <= |current|
        invariant found.None? ==> lowest == weight
        invariant found.Some? ==>
          && x <= found.value < |current| && Preemptable(Snapshot(), allowed, yieldPending, found.value, weight)
          && lowest == Weight(tasks[current[found.value]])
        invariant forall c: Core :: x <= c < |current| && Preemptable(Snapshot(), allowed, yieldPending, c, weight) ==>
                    lowest <= Weight(tasks[current[c]]) < weight && found.Some?
      {
        x := x - 1;
        if x in allowed {
          var k := tasks[current[x]];
          var taskWeight := if k.isIdle then k.priority as int - 1 else k.priority;
          if taskWeight < lowest && k.runState.RunningOn? && x !in yieldPending {
            lowest := taskWeight;
            found := Some(x);
          }
        }
      }
    }
  }
}
