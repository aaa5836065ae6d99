/** Whose turn it is: the operations of the kernel on one ready list are the round robin of its
    items, so that a ready task is selected within a bound. */
module ReadyTurns {
  import opened ListView
  import opened StateItems
  import RoundRobin

  type Op = RoundRobin.Op<Id>

  /** What taking t off its list, and readying it at priority q, mean for the list of p. */
  function Leaving(s: State, t: Id, p: nat): seq<Op> {
    if t in s.container && s.container[t] == Ready(p) then [RoundRobin.Unready(t)] else []
  }

  function Joining(t: Id, q: nat, p: nat): seq<Op> {
    if q == p then [RoundRobin.Ready(t)] else []
  }

  /** What a step does to the ready list of priority p. */
  ghost function OpsOn(s: State, e: Step, p: nat): seq<Op>
    requires Enabled(s, e)
  {
    match e
    case Block(t, _, _) => Leaving(s, t, p)
    case BlockForever(t) => Leaving(s, t, p)
    case MakeReady(t) => Leaving(s, t, p) + Joining(t, s.priority[t], p)
    case Suspend(t) => Leaving(s, t, p)
    case SetPriority(t, q) => if s.IsReady(t) then Leaving(s, t, p) + Joining(t, q, p) else []
    case Create(t, q) => Joining(t, q, p)
    case Delete(t, _) => Leaving(s, t, p)
    case CleanUp(t) => []
    case Select => if s.priority[Chosen(s)] == p then [RoundRobin.Next] else []
  }

  /** The step leaves u where it is. */
  predicate LeavesAlone(e: Step, u: Id) {
    e.Select? || e.t != u
  }

  /** The list of p is what the operations make of it, and they choose u exactly if the step
      selects u. */
  ghost predicate Follows(s: State, e: Step, r: State, p: nat, u: Id)
    requires Enabled(s, e)
  {
    var ops := OpsOn(s, e, p);
    && Ready(p) in s.lists && Ready(p) in r.lists && s.lists[Ready(p)].Valid()
    && RoundRobin.IsRun(s.lists[Ready(p)], ops, u)
    && RoundRobin.Final(s.lists[Ready(p)], ops, u) == r.lists[Ready(p)]
    && (RoundRobin.Chosen(s.lists[Ready(p)], ops, u) <==> e == Select && Chosen(s) == u)
  }

  lemma NoOps(v: View<Id>, u: Id)
    requires v.Valid()
    ensures RoundRobin.IsRun(v, [], u) && RoundRobin.Final(v, [], u) == v && !RoundRobin.Chosen(v, [], u)
  {
  }

  lemma OneOp(v: View<Id>, op: Op, u: Id)
    requires v.Valid() && RoundRobin.Enabled(v, op) && op != RoundRobin.Unready(u)
    ensures RoundRobin.IsRun(v, [op], u) && RoundRobin.Final(v, [op], u) == RoundRobin.Step(v, op)
    ensures RoundRobin.Chosen(v, [op], u) <==> op == RoundRobin.Next && RoundRobin.AtIndex(RoundRobin.Step(v, op), u)
  {
    NoOps(RoundRobin.Step(v, op), u);
    assert [op][1..] == [];
  }

  lemma TwoOps(v: View<Id>, a: Op, b: Op, u: Id)
    requires v.Valid() && RoundRobin.Enabled(v, a) && a != RoundRobin.Unready(u) && a != RoundRobin.Next
    requires RoundRobin.Enabled(RoundRobin.Step(v, a), b) && b != RoundRobin.Unready(u) && b != RoundRobin.Next
    ensures RoundRobin.IsRun(v, [a] + [b], u) && !RoundRobin.Chosen(v, [a] + [b], u)
    ensures RoundRobin.Final(v, [a] + [b], u) == RoundRobin.Step(RoundRobin.Step(v, a), b)
  {
    OneOp(RoundRobin.Step(v, a), b, u);
    assert ([a] + [b])[1..] == [b];
  }

  lemma SelectFollows(s: State, p: nat, u: Id)
    requires Enabled(s, Select) && p < s.priorities && s.On(u, Ready(p))
    ensures Follows(s, Select, After(s, Select), p, u)
  {
    SelectionMovesOn(s);
    var v := s.lists[Ready(p)];
    NoOps(v, u);
    if s.priority[Chosen(s)] == p { OneOp(v, RoundRobin.Next, u); }
  }

  lemma LeavingFollows(s: State, t: Id, p: nat, u: Id)
    requires s.Sound() && t in s.container && p < s.priorities && t != u
    ensures var v, r := s.lists[Ready(p)], Unlinked(s, t);
            && Ready(p) in r.lists
            && RoundRobin.IsRun(v, Leaving(s, t, p), u) && !RoundRobin.Chosen(v, Leaving(s, t, p), u)
            && RoundRobin.Final(v, Leaving(s, t, p), u) == r.lists[Ready(p)]
  {
    var v := s.lists[Ready(p)];
    NoOps(v, u);
    if s.container[t] == Ready(p) {
      assert s.On(t, Ready(p));
      OneOp(v, RoundRobin.Unready(t), u);
    }
  }

  /** A task off all lists joins the ready list of its priority q. */
  lemma JoiningFollows(s: State, t: Id, q: nat, p: nat, u: Id)
    requires LinkedBut(s, t) && t in s.priority && s.priority[t] == q && p < s.priorities && t != u
    ensures var v, r := s.lists[Ready(p)], MadeReady(s, t);
            && Ready(p) in r.lists
            && RoundRobin.IsRun(v, Joining(t, q, p), u) && !RoundRobin.Chosen(v, Joining(t, q, p), u)
            && RoundRobin.Final(v, Joining(t, q, p), u) == r.lists[Ready(p)]
  {
    var v := s.lists[Ready(p)];
    NoOps(v, u);
    if q == p {
      assert !s.On(t, Ready(p));
      OneOp(v, RoundRobin.Ready(t), u);
    }
  }

  /** A task leaves the list it is on and joins the ready list of priority q. */
  lemma RejoiningFollows(s: State, t: Id, q: nat, p: nat, u: Id, m: State)
    requires s.Sound() && t in s.container && p < s.priorities && q < s.priorities && t != u
    requires m == Unlinked(s, t).(priority := s.priority[t := q])
    ensures LinkedBut(m, t)
    ensures var v, r, ops := s.lists[Ready(p)], MadeReady(m, t), Leaving(s, t, p) + Joining(t, q, p);
            && Ready(p) in r.lists && RoundRobin.IsRun(v, ops, u) && !RoundRobin.Chosen(v, ops, u)
            && RoundRobin.Final(v, ops, u) == r.lists[Ready(p)]
  {
    UnlinkFacts(s, t);
    RelabelledFacts(Unlinked(s, t), t, q);
    LeavingFollows(s, t, p, u);
    JoiningFollows(m, t, q, p, u);
    Concatenated(s.lists[Ready(p)], Leaving(s, t, p), Joining(t, q, p), u);
  }

  lemma {:induction false} Concatenated(v: View<Id>, a: seq<Op>, b: seq<Op>, u: Id)
    requires v.Valid() && RoundRobin.IsRun(v, a, u) && RoundRobin.IsRun(RoundRobin.Final(v, a, u), b, u)
    ensures RoundRobin.IsRun(v, a + b, u)
    ensures RoundRobin.Final(v, a + b, u) == RoundRobin.Final(RoundRobin.Final(v, a, u), b, u)
    ensures RoundRobin.Chosen(v, a + b, u)
            <==> RoundRobin.Chosen(v, a, u) || RoundRobin.Chosen(RoundRobin.Final(v, a, u), b, u)
    decreases |a|
  {
    if a == [] {
      assert a + b == b;
    } else {
      assert (a + b)[0] == a[0] && (a + b)[1..] == a[1..] + b;
      Concatenated(RoundRobin.Step(v, a[0]), a[1..], b, u);
    }
  }

  /** Any step that leaves u alone. */
  lemma StepFollows(s: State, e: Step, p: nat, u: Id)
    requires Enabled(s, e) && LeavesAlone(e, u) && p < s.priorities && s.On(u, Ready(p))
    ensures Follows(s, e, After(s, e), p, u)
  {
    NoOps(s.lists[Ready(p)], u);
    match e
    case Select => SelectFollows(s, p, u);
    case MakeReady(t) => ReadyFollows(s, t, p, u);
    case SetPriority(t, q) => PriorityFollows(s, t, q, p, u);
    case Create(t, q) => CreateFollows(s, t, q, p, u);
    case _ => LeavingFollows(s, e.t, p, u);
  }

  lemma ReadyFollows(s: State, t: Id, p: nat, u: Id)
    requires Enabled(s, MakeReady(t)) && t != u && p < s.priorities && s.On(u, Ready(p))
    ensures Follows(s, MakeReady(t), After(s, MakeReady(t)), p, u)
  {
    var m := Unlinked(s, t).(priority := s.priority[t := s.priority[t]]);
    assert m == Unlinked(s, t);
    RejoiningFollows(s, t, s.priority[t], p, u, m);
  }

  lemma PriorityFollows(s: State, t: Id, q: nat, p: nat, u: Id)
    requires Enabled(s, SetPriority(t, q)) && t != u && p < s.priorities && s.On(u, Ready(p))
    ensures Follows(s, SetPriority(t, q), After(s, SetPriority(t, q)), p, u)
  {
    NoOps(s.lists[Ready(p)], u);
    if s.IsReady(t) { RejoiningFollows(s, t, q, p, u, Unlinked(s, t).(priority := s.priority[t := q])); }
  }

  lemma CreateFollows(s: State, t: Id, q: nat, p: nat, u: Id)
    requires Enabled(s, Create(t, q)) && t != u && p < s.priorities && s.On(u, Ready(p))
    ensures Follows(s, Create(t, q), After(s, Create(t, q)), p, u)
  {
    var m := s.(priority := s.priority[t := q]);
    assert m.Partitioned() && LinkedBut(m, t);
    JoiningFollows(m, t, q, p, u);
  }

  // ----- whole runs

  /** What a run does to the ready list of priority p. */
  ghost function OpsOfRun(s: State, run: seq<Step>, p: nat): seq<Op>
    requires IsRun(s, run)
    decreases |run|
  {
    if run == [] then [] else OpsOn(s, run[0], p) + OpsOfRun(After(s, run[0]), run[1..], p)
  }

  predicate AllLeaveAlone(run: seq<Step>, u: Id) {
    forall e :: e in run ==> LeavesAlone(e, u)
  }

  /** Some selection of the run is that of u. */
  ghost predicate SelectedIn(s: State, run: seq<Step>, u: Id)
    requires IsRun(s, run)
    decreases |run|
  {
    run != [] && ((run[0] == Select && Chosen(s) == u) || SelectedIn(After(s, run[0]), run[1..], u))
  }

  lemma StaysReady(s: State, e: Step, p: nat, u: Id)
    requires Enabled(s, e) && LeavesAlone(e, u) && p < s.priorities && s.On(u, Ready(p))
    ensures var r := After(s, e); r.Sound() && r.priorities == s.priorities && r.On(u, Ready(p))
  {
    StepSound(s, e);
    StepShows(s, e, u, At(Ready(p), s.priority[u]));
  }

  /** Over any run that leaves u alone, its ready list is what the operations make of it, and
      they choose u exactly if some selection is that of u. */
  lemma {:induction false} RunFollows(s: State, run: seq<Step>, p: nat, u: Id)
    requires s.Sound() && IsRun(s, run) && AllLeaveAlone(run, u) && p < s.priorities && s.On(u, Ready(p))
    ensures var v, ops, r := s.lists[Ready(p)], OpsOfRun(s, run, p), Outcome(s, run);
            && v.Valid() && RoundRobin.IsRun(v, ops, u)
            && Ready(p) in r.lists && RoundRobin.Final(v, ops, u) == r.lists[Ready(p)]
            && (RoundRobin.Chosen(v, ops, u) <==> SelectedIn(s, run, u))
    decreases |run|
  {
    NoOps(s.lists[Ready(p)], u);
    if run != [] {
      var r := After(s, run[0]);
      StepFollows(s, run[0], p, u);
      StaysReady(s, run[0], p, u);
      RunFollows(r, run[1..], p, u);
      Concatenated(s.lists[Ready(p)], OpsOn(s, run[0], p), OpsOfRun(r, run[1..], p), u);
    }
  }

  /** How often a run selects a task of priority p. */
  ghost function SelectionsFrom(s: State, run: seq<Step>, p: nat): nat
    requires IsRun(s, run)
  {
    RoundRobin.Advances(OpsOfRun(s, run, p))
  }

  /** A ready task with k others ahead of it on its list is selected within k + 1 selections
      from that list, and one more for each task that was readied on it while the index stood
      at this one. */
  lemma ReadyTaskGetsItsTurn(s: State, run: seq<Step>, p: nat, u: Id)
    requires s.Sound() && IsRun(s, run) && AllLeaveAlone(run, u) && p < s.priorities && s.On(u, Ready(p))
    ensures var v, ops := s.lists[Ready(p)], OpsOfRun(s, run, p);
            && v.Valid() && u in v.items && RoundRobin.IsRun(v, ops, u)
            && (SelectionsFrom(s, run, p) >= RoundRobin.Ahead(v, u) + 1 + RoundRobin.Overtakes(v, ops, u) ==>
                  SelectedIn(s, run, u))
  {
    var v, ops := s.lists[Ready(p)], OpsOfRun(s, run, p);
    RunFollows(s, run, p, u);
    if RoundRobin.Advances(ops) >= RoundRobin.Ahead(v, u) + 1 + RoundRobin.Overtakes(v, ops, u) {
      RoundRobin.BoundedBypass(v, ops, u);
    }
  }
}
