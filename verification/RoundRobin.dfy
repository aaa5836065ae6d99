/** How long an item of a ready list waits for its turn.  The operations are those the
    scheduler uses on such a list: advance the index, insert at the end, remove. */
module RoundRobin {
  import opened ListView

  datatype Op<T> = Next | Ready(x: T) | Unready(x: T)

  predicate Enabled<T(==)>(v: View<T>, op: Op<T>) {
    match op
    case Next => v.items != []
    case Ready(x) => x !in v.items
    case Unready(x) => x in v.items
  }

  function Step<T(==)>(v: View<T>, op: Op<T>): (r: View<T>)
    requires v.Valid() && Enabled(v, op)
    ensures r.Valid()
  {
    match op
    case Next => Advance(v)
    case Ready(x) => InsertEnd(v, x)
    case Unready(x) => Remove(v, x)
  }

  predicate AtIndex<T(==)>(v: View<T>, t: T)
    requires v.Valid()
  {
    v.index != -1 && v.items[v.index] == t
  }

  /** The number of items the index reaches before t. */
  function Ahead<T(==)>(v: View<T>, t: T): (n: nat)
    requires v.Valid() && t in v.items
    ensures n < |v.items|
  {
    Distance(|v.items|, v.index, IndexOf(v.items, t))
  }

  /** Advances needed from position `index` to just before position k of n. */
  function Distance(n: nat, index: int, k: int): (d: nat)
    requires -1 <= index < n && 0 <= k < n
    ensures d < n
  {
    if index < k then k - index - 1 else k + n - index - 1
  }

  /** `Ahead` is the position in rotation order. */
  lemma AheadIsRotationPosition<T>(v: View<T>, t: T)
    requires v.Valid() && t in v.items
    ensures Rotation(v)[Ahead(v, t)] == t
  {
    var k := IndexOf(v.items, t);
    assert v.items[k] == t;
  }

  lemma StepKeepsItems<T>(v: View<T>, op: Op<T>, t: T)
    requires v.Valid() && Distinct(v.items) && t in v.items && Enabled(v, op) && op != Unready(t)
    ensures var r := Step(v, op); Distinct(r.items) && t in r.items
  {
    match op
    case Next =>
    case Ready(x) => InsertedFacts(v.items, if v.index < 0 then |v.items| else v.index, x);
    case Unready(x) => RemovedFacts(v.items, IndexOf(v.items, x));
  }

  /** An advance brings t one step closer, unless it is t's turn. */
  lemma NextMovesCloser<T>(v: View<T>, t: T)
    requires v.Valid() && Distinct(v.items) && t in v.items
    ensures var r := Step(v, Next);
            && (AtIndex(r, t) <==> Ahead(v, t) == 0)
            && (Ahead(v, t) > 0 ==> Ahead(r, t) == Ahead(v, t) - 1)
  {
    var r := Step(v, Next);
    IndexOfUnique(v.items, v.items[r.index], r.index);
  }

  /** An insertion lands behind t, except when the index points at t itself: then, and only
      then, the new item overtakes t. */
  lemma ReadyOvertakesOnlyAtIndex<T>(v: View<T>, x: T, t: T)
    requires v.Valid() && Distinct(v.items) && t in v.items && x !in v.items
    ensures t in Step(v, Ready(x)).items
    ensures Ahead(Step(v, Ready(x)), t) == Ahead(v, t) + if AtIndex(v, t) then 1 else 0
  {
    StepKeepsItems(v, Ready(x), t);
    var p := if v.index < 0 then |v.items| else v.index;
    var k := IndexOf(v.items, t);
    IndexOfUnique(InsertedAt(v.items, p, x), t, if k < p then k else k + 1);
    if v.index >= 0 && v.items[v.index] == t { IndexOfUnique(v.items, t, v.index); }
  }

  /** A removal brings t one step closer exactly when the removed item was ahead of it. */
  lemma UnreadyMovesCloser<T>(v: View<T>, x: T, t: T)
    requires v.Valid() && Distinct(v.items) && t in v.items && x in v.items && x != t
    ensures t in Step(v, Unready(x)).items
    ensures Ahead(Step(v, Unready(x)), t) == Ahead(v, t) - if Ahead(v, x) < Ahead(v, t) then 1 else 0
  {
    StepKeepsItems(v, Unready(x), t);
    var j, k := IndexOf(v.items, x), IndexOf(v.items, t);
    var r := Remove(v, x);
    IndexOfUnique(r.items, t, if k < j then k else k - 1);
    DistanceAfterRemoval(|v.items|, v.index, j, k);
    assert Ahead(r, t) == Distance(|v.items| - 1, r.index, if k < j then k else k - 1);
    assert Ahead(v, t) == Distance(|v.items|, v.index, k) && Ahead(v, x) == Distance(|v.items|, v.index, j);
  }

  lemma DistanceAfterRemoval(n: nat, index: int, j: nat, k: nat)
    requires -1 <= index < n && j < n && k < n && j != k
    ensures Distance(n - 1, if j <= index then index - 1 else index, if k < j then k else k - 1)
         == Distance(n, index, k) - if Distance(n, index, j) < Distance(n, index, k) then 1 else 0
  {
  }

  // ----- runs

  predicate IsRun<T(==)>(v: View<T>, ops: seq<Op<T>>, t: T)
    requires v.Valid()
    decreases |ops|
  {
    ops != [] ==> Enabled(v, ops[0]) && ops[0] != Unready(t) && IsRun(Step(v, ops[0]), ops[1..], t)
  }

  function Final<T(==)>(v: View<T>, ops: seq<Op<T>>, t: T): (r: View<T>)
    requires v.Valid() && IsRun(v, ops, t)
    ensures r.Valid()
    decreases |ops|
  {
    if ops == [] then v else Final(Step(v, ops[0]), ops[1..], t)
  }

  /** Some advance of the run lands on t. */
  predicate Chosen<T(==)>(v: View<T>, ops: seq<Op<T>>, t: T)
    requires v.Valid() && IsRun(v, ops, t)
    decreases |ops|
  {
    ops != [] &&
    var r := Step(v, ops[0]);
    (ops[0] == Next && AtIndex(r, t)) || Chosen(r, ops[1..], t)
  }

  function Advances<T(==)>(ops: seq<Op<T>>): nat {
    if ops == [] then 0 else (if ops[0] == Next then 1 else 0) + Advances(ops[1..])
  }

  /** Insertions made while the index points at t. */
  function Overtakes<T(==)>(v: View<T>, ops: seq<Op<T>>, t: T): nat
    requires v.Valid() && IsRun(v, ops, t)
    decreases |ops|
  {
    if ops == [] then 0
    else (if ops[0].Ready? && AtIndex(v, t) then 1 else 0) + Overtakes(Step(v, ops[0]), ops[1..], t)
  }

  /** Removals of items that were ahead of t. */
  function Departures<T(==)>(v: View<T>, ops: seq<Op<T>>, t: T): nat
    requires v.Valid() && t in v.items && Distinct(v.items) && IsRun(v, ops, t)
    decreases |ops|
  {
    if ops == [] then 0 else
    StepKeepsItems(v, ops[0], t);
    (if ops[0].Unready? && Ahead(v, ops[0].x) < Ahead(v, t) then 1 else 0) + Departures(Step(v, ops[0]), ops[1..], t)
  }

  /** As long as t is not chosen, its distance changes exactly by what the run did. */
  lemma {:induction false} DistanceBalance<T>(v: View<T>, ops: seq<Op<T>>, t: T)
    requires v.Valid() && Distinct(v.items) && t in v.items && IsRun(v, ops, t) && !Chosen(v, ops, t)
    ensures t in Final(v, ops, t).items && Distinct(Final(v, ops, t).items)
    ensures Ahead(Final(v, ops, t), t) + Advances(ops) + Departures(v, ops, t) == Ahead(v, t) + Overtakes(v, ops, t)
    decreases |ops|
  {
    if ops != [] {
      var r := Step(v, ops[0]);
      StepKeepsItems(v, ops[0], t);
      match ops[0] {
        case Next => NextMovesCloser(v, t);
        case Ready(x) => ReadyOvertakesOnlyAtIndex(v, x, t);
        case Unready(x) => UnreadyMovesCloser(v, x, t);
      }
      DistanceBalance(r, ops[1..], t);
    }
  }

  /** Bounded bypass: an item with k items ahead is chosen within k + 1 advances, plus one for
      every insertion made while the index pointed at it. */
  lemma BoundedBypass<T>(v: View<T>, ops: seq<Op<T>>, t: T)
    requires v.Valid() && Distinct(v.items) && t in v.items && IsRun(v, ops, t)
    requires Advances(ops) >= Ahead(v, t) + 1 + Overtakes(v, ops, t)
    ensures Chosen(v, ops, t)
  {
    if !Chosen(v, ops, t) {
      DistanceBalance(v, ops, t);
    }
  }

  /** And it is exact: after a run that has not chosen t, the next advance does iff the
      advances made and the items gone from ahead of t make up for the items that were ahead
      and those that overtook. */
  lemma NextChoosesIff<T>(v: View<T>, ops: seq<Op<T>>, t: T)
    requires v.Valid() && Distinct(v.items) && t in v.items && IsRun(v, ops, t) && !Chosen(v, ops, t)
    ensures t in Final(v, ops, t).items
    ensures AtIndex(Step(Final(v, ops, t), Next), t)
            <==> Advances(ops) + Departures(v, ops, t) == Ahead(v, t) + Overtakes(v, ops, t)
  {
    DistanceBalance(v, ops, t);
    NextMovesCloser(Final(v, ops, t), t);
  }

  lemma Unfold<T>(v: View<T>, op: Op<T>, rest: seq<Op<T>>, t: T, r: View<T>)
    requires v.Valid() && Enabled(v, op) && op != Unready(t) && r == Step(v, op) && IsRun(r, rest, t)
    ensures IsRun(v, [op] + rest, t)
    ensures Chosen(v, [op] + rest, t) <==> (op == Next && AtIndex(r, t)) || Chosen(r, rest, t)
    ensures Advances([op] + rest) == (if op == Next then 1 else 0) + Advances(rest)
  {
    assert ([op] + rest)[1..] == rest;
  }

  /** Without the last term the bound fails: the removal of the item at the index can move
      the index back onto t, and whatever is readied before the next advance overtakes t. */
  lemma PlainBoundFails()
    ensures var v, t := View([1, 2, 3], 2), 2;
            var ops := [Unready(3)] + ([Ready(4)] + ([Ready(5)] + ([Next] + ([Next] + []))));
            && IsRun(v, ops, t) && !AtIndex(v, t)
            && Advances(ops) == Ahead(v, t) + 1
            && !Chosen(v, ops, t)
  {
    var t := 2;
    Unfold(View([1, 4, 5, 2], 0), Next, [], t, View([1, 4, 5, 2], 1));
    Unfold(View([1, 4, 5, 2], 3), Next, [Next] + [], t, View([1, 4, 5, 2], 0));
    assert InsertedAt([1, 4, 2], 2, 5) == [1, 4, 5, 2];
    Unfold(View([1, 4, 2], 2), Ready(5), [Next] + ([Next] + []), t, View([1, 4, 5, 2], 3));
    assert InsertedAt([1, 2], 1, 4) == [1, 4, 2];
    Unfold(View([1, 2], 1), Ready(4), [Ready(5)] + ([Next] + ([Next] + [])), t, View([1, 4, 2], 2));
    assert IndexOf([1, 2, 3], 3) == 2 && Removed([1, 2, 3], 2) == [1, 2];
    Unfold(View([1, 2, 3], 2), Unready(3), [Ready(4)] + ([Ready(5)] + ([Next] + ([Next] + []))), t, View([1, 2], 1));
  }
}
