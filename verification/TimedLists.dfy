/** Lists ordered by a wrapped time: the delayed task lists of tasks.c and the active timer
    lists of timers.c are both kernel lists whose items carry a time and an owner. */
module TimedLists {
  import opened ListView

  type Id = nat

  datatype Entry = Entry(wake: nat, owner: Id)

  function Wakes(s: seq<Entry>): (keys: seq<nat>)
    ensures |keys| == |s| && forall i :: 0 <= i < |s| ==> keys[i] == s[i].wake
  {
    seq(|s|, i requires 0 <= i < |s| => s[i].wake)
  }

  function Owners(s: seq<Entry>): set<Id> {
    set e | e in s :: e.owner
  }

  /** Ordered by wake time, each owner at most once. */
  predicate Ordered(s: seq<Entry>) {
    && (forall i, j :: 0 <= i < j < |s| ==> s[i].wake <= s[j].wake)
    && (forall i, j :: 0 <= i < j < |s| ==> s[i].owner != s[j].owner)
  }

  function Position(s: seq<Entry>, t: Id): (k: nat)
    requires t in Owners(s)
    ensures k < |s| && s[k].owner == t
  {
    if s[0].owner == t then 0 else
    assert t in Owners(s[1..]) by { var e :| e in s && e.owner == t; assert e in s[1..]; }
    1 + Position(s[1..], t)
  }

  function WakeOf(s: seq<Entry>, t: Id): nat
    requires t in Owners(s)
  {
    s[Position(s, t)].wake
  }

  lemma WakeOfMember(s: seq<Entry>, e: Entry)
    requires Ordered(s) && e in s
    ensures e.owner in Owners(s) && WakeOf(s, e.owner) == e.wake
  {
    var i, k := IndexOf(s, e), Position(s, e.owner);
    assert i == k;
  }

  /** vListInsert of a state list item. */
  function Insert(s: seq<Entry>, e: Entry): seq<Entry> {
    InsertedAt(s, InsertPosition(Wakes(s), e.wake), e)
  }

  lemma InsertOrdered(s: seq<Entry>, e: Entry)
    requires Ordered(s) && e.owner !in Owners(s)
    ensures Ordered(Insert(s, e))
  {
    var p, r := InsertPosition(Wakes(s), e.wake), Insert(s, e);
    assert Ascending(Wakes(s));
    SortedInsertion(Wakes(s), e.wake);
    assert Wakes(r) == InsertedAt(Wakes(s), p, e.wake);
    forall i, j | 0 <= i < j < |r| ensures r[i].wake <= r[j].wake {
      assert Wakes(r)[i] <= Wakes(r)[j];
    }
    InsertDistinct(s, p, e);
  }

  lemma InsertDistinct(s: seq<Entry>, p: nat, e: Entry)
    requires forall i, j :: 0 <= i < j < |s| ==> s[i].owner != s[j].owner
    requires p <= |s| && e.owner !in Owners(s)
    ensures var r := InsertedAt(s, p, e); forall i, j :: 0 <= i < j < |r| ==> r[i].owner != r[j].owner
  {
    assert forall k :: 0 <= k < |s| ==> s[k] in s && s[k].owner != e.owner;
  }

  lemma InsertFacts(s: seq<Entry>, e: Entry)
    requires Ordered(s) && e.owner !in Owners(s)
    ensures var r := Insert(s, e);
            && Ordered(r) && Owners(r) == Owners(s) + {e.owner}
            && (forall x :: x in r <==> x in s || x == e)
  {
    InsertOrdered(s, e);
    InsertMembers(s, InsertPosition(Wakes(s), e.wake), e);
  }

  lemma InsertMembers(s: seq<Entry>, p: nat, e: Entry)
    requires p <= |s|
    ensures var r := InsertedAt(s, p, e);
            (forall x :: x in r <==> x in s || x == e) && Owners(r) == Owners(s) + {e.owner}
  {
    var r := InsertedAt(s, p, e);
    assert r[p] == e;
    forall x | x in s ensures x in r {
      var i := IndexOf(s, x);
      assert r[if i < p then i else i + 1] == x;
    }
  }

  lemma InsertWakes(s: seq<Entry>, e: Entry, t: Id)
    requires Ordered(s) && e.owner !in Owners(s) && t in Owners(s) + {e.owner}
    ensures t in Owners(Insert(s, e)) && WakeOf(Insert(s, e), t) == if t == e.owner then e.wake else WakeOf(s, t)
  {
    InsertFacts(s, e);
    WakeOfMember(Insert(s, e), if t == e.owner then e else s[Position(s, t)]);
  }

  /** uxListRemove of a state list item, if it is on this list. */
  function Without(s: seq<Entry>, t: Id): seq<Entry> {
    if t in Owners(s) then Removed(s, Position(s, t)) else s
  }

  lemma WithoutFacts(s: seq<Entry>, t: Id)
    requires Ordered(s)
    ensures var r := Without(s, t);
            && Ordered(r) && Owners(r) == Owners(s) - {t}
            && (forall x :: x in r <==> x in s && x.owner != t)
  {
    var r := Without(s, t);
    WithoutOrdered(s, t);
    forall x | x in s && x.owner != t ensures x in r {
      if t in Owners(s) {
        var i, k := IndexOf(s, x), Position(s, t);
        assert r[if i < k then i else i - 1] == x;
      }
    }
  }

  /** The entries that stay keep their order. */
  lemma WithoutOrdered(s: seq<Entry>, t: Id)
    requires Ordered(s)
    ensures Ordered(Without(s, t)) && forall x :: x in Without(s, t) ==> x in s && x.owner != t
  {
    if t in Owners(s) {
      RemovedOrdered(s, Position(s, t));
    } else {
      forall x | x in s ensures x.owner != t { assert x.owner in Owners(s); }
    }
  }

  lemma RemovedOrdered(s: seq<Entry>, k: nat)
    requires Ordered(s) && k < |s|
    ensures Ordered(Removed(s, k)) && forall x :: x in Removed(s, k) ==> x in s && x.owner != s[k].owner
  {
    var r := Removed(s, k);
    forall i, j | 0 <= i < j < |r| ensures r[i].wake <= r[j].wake && r[i].owner != r[j].owner {
      RemovedFrom(s, k, i);
      RemovedFrom(s, k, j);
    }
    forall x | x in r ensures x in s && x.owner != s[k].owner { RemovedFrom(s, k, IndexOf(r, x)); }
  }

  /** Where an entry that stays has been. */
  lemma RemovedFrom(s: seq<Entry>, k: nat, i: nat)
    requires k < |s| && i < |s| - 1
    ensures Removed(s, k)[i] == s[if i < k then i else i + 1]
  {
  }

  lemma WithoutWakes(s: seq<Entry>, t: Id, u: Id)
    requires Ordered(s) && u in Owners(s) && u != t
    ensures u in Owners(Without(s, t)) && WakeOf(Without(s, t), u) == WakeOf(s, u)
  {
    WithoutFacts(s, t);
    WakeOfMember(Without(s, t), s[Position(s, u)]);
  }
}
