/** The kernel's intrusive list (list.c): a ring of items through an end marker, with a
    moving index.  `ListView` describes such a list as a sequence; `Lists` holds the
    pointer structure and proves each operation against that description. */
module ListView {

  /** Items in ring order, starting after the end marker.  `index` is the position of the
      item the list index points at, or -1 when it points at the end marker. */
  datatype View<T> = View(items: seq<T>, index: int) {
    predicate Valid() { -1 <= index < |items| }
  }

  predicate Distinct<T(==)>(s: seq<T>) {
    forall i, j :: 0 <= i < j < |s| ==> s[i] != s[j]
  }

  function IndexOf<T(==)>(s: seq<T>, x: T): (i: int)
    requires x in s
    ensures 0 <= i < |s| && s[i] == x && x !in s[..i]
  {
    if s[0] == x then 0 else assert x in s[1..]; 1 + IndexOf(s[1..], x)
  }

  lemma IndexOfUnique<T>(s: seq<T>, x: T, k: nat)
    requires Distinct(s) && k < |s| && s[k] == x
    ensures IndexOf(s, x) == k
  {
  }

  function Removed<T>(s: seq<T>, k: nat): (r: seq<T>)
    requires k < |s|
    ensures |r| == |s| - 1
    ensures forall i :: 0 <= i < |r| ==> r[i] == s[if i < k then i else i + 1]
  {
    seq(|s| - 1, i requires 0 <= i < |s| - 1 => s[if i < k then i else i + 1])
  }

  lemma RemovedFacts<T>(s: seq<T>, k: nat)
    requires k < |s| && Distinct(s)
    ensures Distinct(Removed(s, k)) && s[k] !in Removed(s, k)
    ensures forall x :: x in Removed(s, k) <==> x in s && x != s[k]
  {
    forall x | x in s && x != s[k] ensures x in Removed(s, k) {
      var i := IndexOf(s, x);
      assert Removed(s, k)[if i < k then i else i - 1] == x;
    }
  }

  function InsertedAt<T>(s: seq<T>, k: nat, x: T): (r: seq<T>)
    requires k <= |s|
    ensures |r| == |s| + 1
    ensures forall i :: 0 <= i < |r| ==> r[i] == if i < k then s[i] else if i == k then x else s[i-1]
  {
    seq(|s| + 1, i requires 0 <= i <= |s| => if i < k then s[i] else if i == k then x else s[i-1])
  }

  lemma InsertedFacts<T>(s: seq<T>, k: nat, x: T)
    requires k <= |s| && Distinct(s) && x !in s
    ensures Distinct(InsertedAt(s, k, x))
    ensures forall y :: y in InsertedAt(s, k, x) <==> y in s || y == x
  {
    var r := InsertedAt(s, k, x);
    assert r[k] == x;
    forall y | y in s ensures y in r {
      var i := IndexOf(s, y);
      assert r[if i < k then i else i + 1] == y;
    }
  }

  /** The index still points at the same item, or still at the end marker. */
  predicate SameIndexItem<T(==)>(v: View<T>, r: View<T>)
    requires v.Valid() && r.Valid()
  {
    if v.index == -1 then r.index == -1 else r.index != -1 && r.items[r.index] == v.items[v.index]
  }

  /** vListInsertEnd: the new item goes just before the item the index points at. */
  function InsertEnd<T(==)>(v: View<T>, x: T): (r: View<T>)
    requires v.Valid()
    ensures r.Valid() && SameIndexItem(v, r)
  {
    if v.index < 0 then View(InsertedAt(v.items, |v.items|, x), v.index)
    else View(InsertedAt(v.items, v.index, x), v.index + 1)
  }

  /** vListInsert at position p of the sorted order. */
  function InsertAtPosition<T(==)>(v: View<T>, p: nat, x: T): (r: View<T>)
    requires v.Valid() && p <= |v.items|
    ensures r.Valid() && SameIndexItem(v, r)
  {
    View(InsertedAt(v.items, p, x), if p <= v.index then v.index + 1 else v.index)
  }

  /** uxListRemove: an index left on the removed item steps back to its predecessor. */
  function Remove<T(==)>(v: View<T>, x: T): (r: View<T>)
    requires v.Valid() && x in v.items
    ensures r.Valid()
    ensures v.index != IndexOf(v.items, x) ==> SameIndexItem(v, r)
    ensures v.index == IndexOf(v.items, x) ==>
      if v.index == 0 then r.index == -1 else r.index >= 0 && r.items[r.index] == v.items[v.index-1]
  {
    var k := IndexOf(v.items, x);
    View(Removed(v.items, k), if k <= v.index then v.index - 1 else v.index)
  }

  /** listGET_OWNER_OF_NEXT_ENTRY: move the index on, skipping the end marker. */
  function Advance<T>(v: View<T>): (r: View<T>)
    requires v.Valid() && v.items != []
  {
    v.(index := if v.index + 1 < |v.items| then v.index + 1 else 0)
  }

  /** The order in which successive advances reach the items. */
  function Rotation<T>(v: View<T>): (r: seq<T>)
    requires v.Valid()
    ensures |r| == |v.items|
  {
    var n, first := |v.items|, v.index + 1;
    seq(n, i requires 0 <= i < n => v.items[if first + i < n then first + i else first + i - n])
  }

  /** Ascending order of keys. */
  predicate Ascending(keys: seq<nat>) {
    forall i, j :: 0 <= i < j < |keys| ==> keys[i] <= keys[j]
  }

  /** Where vListInsert puts key v: after every leading key that is not larger. */
  function InsertPosition(keys: seq<nat>, v: nat): (p: nat)
    ensures p <= |keys|
    ensures forall i :: 0 <= i < p ==> keys[i] <= v
    ensures p < |keys| ==> v < keys[p]
  {
    if keys == [] || v < keys[0] then 0 else 1 + InsertPosition(keys[1..], v)
  }

  lemma InsertPositionUnique(keys: seq<nat>, v: nat, p: nat)
    requires p <= |keys| && (forall i :: 0 <= i < p ==> keys[i] <= v) && (p < |keys| ==> v < keys[p])
    ensures InsertPosition(keys, v) == p
  {
  }

  /** Sorted insertion keeps the keys ascending and is stable: every key equal to the new
      one stays in front of it, every key behind it is strictly larger. */
  lemma SortedInsertion(keys: seq<nat>, v: nat)
    requires Ascending(keys)
    ensures var p := InsertPosition(keys, v);
            && Ascending(InsertedAt(keys, p, v))
            && (forall i :: p <= i < |keys| ==> v < keys[i])
            && (forall i :: 0 <= i < |keys| && keys[i] == v ==> i < p)
  {
    var p := InsertPosition(keys, v);
    var r := InsertedAt(keys, p, v);
    forall i, j | 0 <= i < j < |r| ensures r[i] <= r[j] {
      assert r[i] == if i < p then keys[i] else if i == p then v else keys[i-1];
      assert r[j] == if j < p then keys[j] else if j == p then v else keys[j-1];
    }
  }
}

module Lists {
  import opened ListView

  class ListItem {
    var value: nat
    var next: ListItem?
    var previous: ListItem?
    var container: List?

    /** vListInitialiseItem, for a new item. */
    constructor (value: nat)
      ensures this.value == value && container == null
    {
      this.value := value;
      next, previous, container := null, null, null;
    }
  }

  ghost function Keys(items: seq<ListItem>): (keys: seq<nat>)
    reads items
    ensures |keys| == |items|
    ensures forall i :: 0 <= i < |items| ==> keys[i] == items[i].value
  {
    seq(|items|, i requires 0 <= i < |items| reads items => items[i].value)
  }

  class List {
    const maxDelay: nat
    const end: ListItem
    var index: ListItem
    var count: nat
    ghost var view: View<ListItem>

    ghost predicate Valid()
      reads this, end, view.items
    {
      && view.Valid()
      && count == |view.items|
      && end !in view.items && Distinct(view.items)
      && index == (if view.index == -1 then end else view.items[view.index])
      && end.value == maxDelay
      && (forall y :: y in view.items ==> y.container == this && y.value <= maxDelay)
      && Linked(end, view.items)
    }

    /** vListInitialise. */
    constructor (maxDelay: nat)
      ensures Valid() && view == View([], -1) && this.maxDelay == maxDelay && fresh(end)
    {
      var e := new ListItem(maxDelay);
      e.next := e;
      e.previous := e;
      this.maxDelay := maxDelay;
      end, index, count := e, e, 0;
      view := View([], -1);
    }

    /** The four pointer writes of an insertion: x goes between two neighbours of the ring,
        at position p. */
    method LinkIn(x: ListItem, before: ListItem, after: ListItem, ghost p: nat)
      requires view.Valid() && p <= |view.items| && Distinct(view.items)
      requires end !in view.items && x !in view.items && x != end
      requires Linked(end, view.items)
      requires before == At(end, view.items, p - 1) && after == At(end, view.items, p)
      modifies x`next, x`previous, before`next, after`previous
      ensures Linked(end, InsertedAt(view.items, p, x))
    {
      ghost var items := view.items;
      x.next := after;
      x.previous := before;
      before.next := x;
      after.previous := x;
      ghost var longer := InsertedAt(items, p, x);
      forall k | -1 <= k < |longer| ensures Link(end, longer, k) {
        if k < p - 1 {
          assert old(Link(end, items, k));
        } else if p < k {
          assert old(Link(end, items, k - 1));
          assert At(end, longer, k) == At(end, items, k - 1) && At(end, longer, k + 1) == At(end, items, k);
        }
      }
    }

    /** The two pointer writes of a removal: the neighbours of the item at position k are
        joined. */
    method LinkOut(x: ListItem, ghost k: nat)
      requires view.Valid() && k < |view.items| && Distinct(view.items) && x == view.items[k]
      requires end !in view.items && Linked(end, view.items)
      requires x.next == At(end, view.items, k + 1) && x.previous == At(end, view.items, k - 1)
      modifies x.next`previous, x.previous`next
      ensures Linked(end, Removed(view.items, k))
    {
      ghost var items := view.items;
      x.next.previous := x.previous;
      x.previous.next := x.next;
      ghost var shorter := Removed(items, k);
      forall j | -1 <= j < |shorter| ensures Link(end, shorter, j) {
        if j < k - 1 {
          assert old(Link(end, items, j));
        } else if k <= j {
          assert old(Link(end, items, j + 1));
          assert At(end, shorter, j) == At(end, items, j + 1) && At(end, shorter, j + 1) == At(end, items, j + 2);
        }
      }
    }

    /** vListInsertEnd. */
    method InsertEnd(x: ListItem)
      requires Valid() && x.container == null && x != end && x !in view.items && x.value <= maxDelay
      modifies this, end, view.items, x
      ensures Valid()
      ensures view == ListView.InsertEnd(old(view), x)
      ensures x.value == old(x.value)
      ensures forall y :: y in old(view.items) ==> y.value == old(y.value)
    {
      ghost var p := if view.index < 0 then count else view.index;
      assert Link(end, view.items, p - 1);
      InsertedFacts(view.items, p, x);
      x.container := this;
      count := count + 1;
      LinkIn(x, index.previous, index, p);
      view := ListView.InsertEnd(view, x);
    }

    /** The search of vListInsert: the item after which a new value goes. */
    method FindInsertionPoint(value: nat) returns (cursor: ListItem, ghost p: nat)
      requires Valid() && value <= maxDelay
      ensures p == InsertPosition(Keys(view.items), value)
      ensures cursor == At(end, view.items, p - 1)
    {
      p := 0;
      if value == maxDelay {
        assert Link(end, view.items, count - 1);
        cursor := end.previous;
        p := count;
      } else {
        cursor := end;
        assert Link(end, view.items, -1);
        while cursor.next.value <= value
          invariant 0 <= p <= count
          invariant cursor == At(end, view.items, p - 1)
          invariant Link(end, view.items, p - 1)
          invariant forall i :: 0 <= i < p ==> view.items[i].value <= value
          decreases count - p
        {
          cursor := cursor.next;
          p := p + 1;
          assert Link(end, view.items, p - 1);
        }
      }
      InsertPositionUnique(Keys(view.items), value, p);
    }

    /** vListInsert. */
    method Insert(x: ListItem)
      requires Valid() && x.container == null && x != end && x !in view.items && x.value <= maxDelay
      modifies this, end, view.items, x
      ensures Valid()
      ensures view == InsertAtPosition(old(view), InsertPosition(old(Keys(view.items)), x.value), x)
      ensures x.value == old(x.value)
      ensures forall y :: y in old(view.items) ==> y.value == old(y.value)
    {
      var cursor: ListItem;
      ghost var p;
      cursor, p := FindInsertionPoint(x.value);
      InsertAfter(cursor, x, p);
    }

    /** The tail of vListInsert, once the insertion point is known. */
    method InsertAfter(cursor: ListItem, x: ListItem, ghost p: nat)
      requires Valid() && x.container == null && x != end && x !in view.items && x.value <= maxDelay
      requires p <= count && cursor == At(end, view.items, p - 1)
      modifies this, end, view.items, x
      ensures Valid()
      ensures view == InsertAtPosition(old(view), p, x)
      ensures x.value == old(x.value)
      ensures forall y :: y in old(view.items) ==> y.value == old(y.value)
    {
      assert Link(end, view.items, p - 1);
      InsertedFacts(view.items, p, x);
      x.container := this;
      count := count + 1;
      LinkIn(x, cursor, cursor.next, p);
      view := InsertAtPosition(view, p, x);
    }

    /** uxListRemove, called on an item of this list. */
    method Remove(x: ListItem) returns (remaining: nat)
      requires Valid() && x in view.items
      modifies this, end, view.items
      ensures Valid()
      ensures view == ListView.Remove(old(view), x)
      ensures x.container == null && remaining == count
      ensures forall y :: y in old(view.items) ==> y.value == old(y.value)
    {
      ghost var k := IndexOf(view.items, x);
      assert Link(end, view.items, k - 1) && Link(end, view.items, k);
      RemovedFacts(view.items, k);
      LinkOut(x, k);
      Unlink(x, k);
      remaining := count;
    }

    /** The tail of uxListRemove, once the neighbours of x are joined. */
    method Unlink(x: ListItem, ghost k: nat)
      requires view.Valid() && count == |view.items| && k < count && view.items[k] == x
      requires end !in view.items && Distinct(view.items) && end.value == maxDelay
      requires index == (if view.index == -1 then end else view.items[view.index])
      requires forall y :: y in view.items ==> y.container == this && y.value <= maxDelay
      requires x.previous == At(end, view.items, k - 1)
      requires Linked(end, Removed(view.items, k))
      modifies this`index, this`count, this`view, x`container
      ensures Valid()
      ensures view == ListView.Remove(old(view), x)
      ensures x.container == null
    {
      RemovedFacts(view.items, k);
      IndexOfUnique(view.items, x, k);
      if index == x {
        index := x.previous;
      }
      x.container := null;
      count := count - 1;
      view := ListView.Remove(view, x);
    }

    /** listGET_OWNER_OF_NEXT_ENTRY. */
    method NextEntry() returns (x: ListItem)
      requires Valid() && count != 0
      modifies this
      ensures Valid() && view == Advance(old(view)) && x == Rotation(old(view))[0]
    {
      assert Link(end, view.items, view.index) && Link(end, view.items, -1);
      index := index.next;
      if index == end {
        index := end.next;
      }
      x := index;
      view := Advance(view);
    }
  }

  /** Ring position k: both -1 and |items| are the end marker. */
  ghost function At(end: ListItem, items: seq<ListItem>, k: int): ListItem
    requires -1 <= k <= |items|
  {
    if 0 <= k < |items| then items[k] else end
  }

  ghost predicate Link(end: ListItem, items: seq<ListItem>, k: int)
    requires -1 <= k < |items|
    reads end`next, end`previous, items`next, items`previous
  {
    At(end, items, k).next == At(end, items, k + 1) && At(end, items, k + 1).previous == At(end, items, k)
  }

  ghost predicate Linked(end: ListItem, items: seq<ListItem>)
    reads end`next, end`previous, items`next, items`previous
  {
    forall k :: -1 <= k < |items| ==> Link(end, items, k)
  }

  ghost predicate Separate(l: List, m: List)
    reads l, m
  {
    && l != m && l.end != m.end && l.end !in m.view.items && m.end !in l.view.items
    && forall y :: y in l.view.items ==> y !in m.view.items
  }

  twostate lemma StaysValid(l: List)
    requires old(l.Valid()) && unchanged(l) && unchanged(l.end)
    requires forall y :: y in l.view.items ==> unchanged(y)
    ensures l.Valid()
  {
    forall k | -1 <= k < |l.view.items| ensures Link(l.end, l.view.items, k) {
      var a, b := At(l.end, l.view.items, k), At(l.end, l.view.items, k + 1);
      assert a == l.end || a in l.view.items;
      assert b == l.end || b in l.view.items;
      assert old(Link(l.end, l.view.items, k));
    }
  }

  /** The kernel's usual move: take an item off the list it is on and put it at the end of
      another.  Both lists stay well formed and separate, and nothing else on either changes. */
  method MoveToEnd(from: List, to: List, x: ListItem)
    requires from.Valid() && to.Valid() && Separate(from, to)
    requires x in from.view.items && x.value <= to.maxDelay
    modifies from, from.end, from.view.items, to, to.end, to.view.items
    ensures from.Valid() && to.Valid() && Separate(from, to) && x.container == to
    ensures from.view == Remove(old(from.view), x)
    ensures to.view == InsertEnd(old(to.view), x)
  {
    RemovedFacts(from.view.items, IndexOf(from.view.items, x));
    InsertedFacts(to.view.items, if to.view.index < 0 then |to.view.items| else to.view.index, x);
    var _ := from.Remove(x);
    StaysValid(to);
    label removed:
    to.InsertEnd(x);
    StaysValid@removed(from);
  }
}
