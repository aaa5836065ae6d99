/** The control bits kept beside the bits waited for in a blocked task's event list item
    (event_groups.c, tasks.c). */
module EventBits {

  const CLEAR_ON_EXIT: bv32 := 0x0100_0000
  const UNBLOCKED_BY_SET: bv32 := 0x0200_0000
  const WAIT_FOR_ALL: bv32 := 0x0400_0000
  const CONTROL_BYTES: bv32 := 0xff00_0000
  const IN_USE: bv32 := 0x8000_0000

  predicate UserBits(b: bv32) { b & CONTROL_BYTES == 0 }

  datatype Request = Request(bits: bv32, clearOnExit: bool, all: bool)

  function ControlBits(w: Request): bv32 {
    (if w.clearOnExit then CLEAR_ON_EXIT else 0) | (if w.all then WAIT_FOR_ALL else 0)
  }

  /** The item value of a blocked task. */
  function Packed(w: Request): bv32 { (w.bits | ControlBits(w)) | IN_USE }

  /** The request in an item value, as xEventGroupSetBits takes it apart. */
  function Unpacked(value: bv32): Request {
    var control := value & CONTROL_BYTES;
    Request(value & !CONTROL_BYTES, control & CLEAR_ON_EXIT != 0, control & WAIT_FOR_ALL != 0)
  }

  lemma Split(b: bv32, control: bv32)
    requires b & 0xff00_0000 == 0 && control & 0x00ff_ffff == 0
    ensures ((b | control) | 0x8000_0000) & !0xff00_0000 == b
    ensures ((b | control) | 0x8000_0000) & 0xff00_0000 == control | 0x8000_0000
  {
  }

  lemma NotDelivered(b: bv32, control: bv32)
    requires b & 0xff00_0000 == 0 && control & 0x0200_0000 == 0
    ensures ((b | control) | 0x8000_0000) & 0x0200_0000 == 0
  {
  }

  /** User bits and control bits do not disturb each other, and a request never looks like a
      delivery. */
  lemma PackingRoundTrip(w: Request)
    requires UserBits(w.bits)
    ensures Unpacked(Packed(w)) == w && Packed(w) & UNBLOCKED_BY_SET == 0
  {
    Split(w.bits, ControlBits(w));
    NotDelivered(w.bits, ControlBits(w));
  }

  /** The item value of a task unblocked because its bits were set. */
  function Delivered(bits: bv32): bv32 { (bits | UNBLOCKED_BY_SET) | IN_USE }

  lemma DeliveryRoundTrip(bits: bv32)
    requires UserBits(bits)
    ensures Delivered(bits) & !CONTROL_BYTES == bits && Delivered(bits) & UNBLOCKED_BY_SET != 0
  {
    Split(bits, UNBLOCKED_BY_SET);
  }
}

/** Event groups over sets of bit numbers. */
module EventGroupStates {

  type Id = nat
  type Bits = set<nat>

  datatype Wait = Wait(bits: Bits, clearOnExit: bool, all: bool)

  datatype Waiter = Waiter(task: Id, wait: Wait)

  /** prvTestWaitCondition. */
  predicate Met(current: Bits, w: Wait) {
    if w.all then w.bits <= current else current * w.bits != {}
  }

  /** `delivered` holds the bits stored for each task unblocked by a set, until it collects
      them. */
  datatype Group = Group(bits: Bits, waiters: seq<Waiter>, delivered: map<Id, Bits>)

  // ----- one pass over the waiters

  /** The waiters left by the loop of xEventGroupSetBits. */
  function Unmet(ws: seq<Waiter>, now: Bits): seq<Waiter> {
    if ws == [] then [] else
    var w := ws[|ws|-1];
    Unmet(ws[..|ws|-1], now) + if Met(now, w.wait) then [] else [w]
  }

  function ToClear(ws: seq<Waiter>, now: Bits): Bits {
    if ws == [] then {} else
    var w := ws[|ws|-1];
    ToClear(ws[..|ws|-1], now) + if Met(now, w.wait) && w.wait.clearOnExit then w.wait.bits else {}
  }

  function Deliver(ws: seq<Waiter>, now: Bits, d: map<Id, Bits>): map<Id, Bits> {
    if ws == [] then d else
    var w := ws[|ws|-1];
    var before := Deliver(ws[..|ws|-1], now, d);
    if Met(now, w.wait) then before[w.task := now] else before
  }

  lemma {:induction false} UnmetFacts(ws: seq<Waiter>, now: Bits)
    ensures forall w :: w in Unmet(ws, now) <==> w in ws && !Met(now, w.wait)
  {
    if ws != [] {
      UnmetFacts(ws[..|ws|-1], now);
      assert ws == ws[..|ws|-1] + [ws[|ws|-1]];
    }
  }

  /** The loop has passed k waiters: `list` holds those it left followed by the rest. */
  ghost predicate Scanned(ws: seq<Waiter>, d: map<Id, Bits>, now: Bits, k: nat,
                          list: seq<Waiter>, i: nat, clear: Bits, delivered: map<Id, Bits>)
  {
    && k <= |ws| && list == Unmet(ws[..k], now) + ws[k..] && i == |Unmet(ws[..k], now)|
    && clear == ToClear(ws[..k], now) && delivered == Deliver(ws[..k], now, d)
  }

  lemma ScanHere(ws: seq<Waiter>, d: map<Id, Bits>, now: Bits, k: nat,
                 list: seq<Waiter>, i: nat, clear: Bits, delivered: map<Id, Bits>)
    requires Scanned(ws, d, now, k, list, i, clear, delivered) && i < |list|
    ensures k < |ws| && list[i] == ws[k]
  {
  }

  lemma ScanStep(ws: seq<Waiter>, d: map<Id, Bits>, now: Bits, k: nat,
                 list: seq<Waiter>, i: nat, clear: Bits, delivered: map<Id, Bits>)
    requires Scanned(ws, d, now, k, list, i, clear, delivered) && i < |list|
    ensures var w := list[i];
            if Met(now, w.wait)
            then Scanned(ws, d, now, k + 1, list[..i] + list[i + 1..], i,
                         clear + (if w.wait.clearOnExit then w.wait.bits else {}), delivered[w.task := now])
            else Scanned(ws, d, now, k + 1, list, i + 1, clear, delivered)
  {
    ScanHere(ws, d, now, k, list, i, clear, delivered);
    assert ws[..k + 1][..k] == ws[..k] && ws[..k + 1][k] == ws[k];
    assert list[..i] == Unmet(ws[..k], now) && list[i + 1..] == ws[k + 1..];
    assert Unmet(ws[..k], now) + ws[k..] == (Unmet(ws[..k], now) + [ws[k]]) + ws[k + 1..];
  }

  lemma ScanDone(ws: seq<Waiter>, d: map<Id, Bits>, now: Bits, k: nat,
                 list: seq<Waiter>, i: nat, clear: Bits, delivered: map<Id, Bits>)
    requires Scanned(ws, d, now, k, list, i, clear, delivered) && i >= |list|
    ensures list == Unmet(ws, now) && clear == ToClear(ws, now) && delivered == Deliver(ws, now, d)
  {
    assert k == |ws| && ws[..k] == ws;
  }

  predicate Asks(ws: seq<Waiter>, now: Bits, b: nat) {
    exists w :: w in ws && Met(now, w.wait) && w.wait.clearOnExit && b in w.wait.bits
  }

  lemma {:induction false} ToClearFacts(ws: seq<Waiter>, now: Bits)
    ensures forall b :: b in ToClear(ws, now) <==> Asks(ws, now, b)
  {
    if ws != [] {
      var most, last := ws[..|ws|-1], ws[|ws|-1];
      ToClearFacts(most, now);
      assert ws == most + [last];
      forall b ensures b in ToClear(ws, now) <==> Asks(ws, now, b) {
        if Asks(most, now, b) {
          var w :| w in most && Met(now, w.wait) && w.wait.clearOnExit && b in w.wait.bits;
          assert w in ws;
        } else if b in ToClear(ws, now) {
          assert last in ws;
        }
      }
    }
  }

  lemma {:induction false} DeliverFacts(ws: seq<Waiter>, now: Bits, d: map<Id, Bits>)
    ensures forall t :: t in Deliver(ws, now, d) <==> t in d || WokenBy(ws, now, t)
    ensures forall t :: t in Deliver(ws, now, d) ==> Deliver(ws, now, d)[t] == if WokenBy(ws, now, t) then now else d[t]
  {
    if ws != [] {
      var most, last := ws[..|ws|-1], ws[|ws|-1];
      DeliverFacts(most, now, d);
      forall t ensures WokenBy(ws, now, t) <==> WokenBy(most, now, t) || (t == last.task && Met(now, last.wait)) {
        WokenBySplit(ws, now, t);
      }
    }
  }

  predicate WokenBy(ws: seq<Waiter>, now: Bits, t: Id) {
    exists w :: w in ws && Met(now, w.wait) && w.task == t
  }

  lemma WokenBySplit(ws: seq<Waiter>, now: Bits, t: Id)
    requires ws != []
    ensures var most, last := ws[..|ws|-1], ws[|ws|-1];
            WokenBy(ws, now, t) <==> WokenBy(most, now, t) || (t == last.task && Met(now, last.wait))
  {
    var most, last := ws[..|ws|-1], ws[|ws|-1];
    assert ws == most + [last];
    if WokenBy(most, now, t) {
      var w :| w in most && Met(now, w.wait) && w.task == t;
      assert w in ws;
    }
    assert last in ws;
  }

  /** xEventGroupSetBits. */
  function AfterSet(g: Group, bits: Bits): Group {
    var now := g.bits + bits;
    Group(now - ToClear(g.waiters, now), Unmet(g.waiters, now), Deliver(g.waiters, now, g.delivered))
  }

  /** What a set does, said without the order of the list: it wakes exactly the waiters whose
      condition the old bits with the new ones meet, gives each of them those bits, and
      clears exactly what the met waiters asked to have cleared. */
  lemma SetFacts(g: Group, bits: Bits)
    ensures var r, now := AfterSet(g, bits), g.bits + bits;
            && (forall w :: w in r.waiters <==> w in g.waiters && !Met(now, w.wait))
            && (forall t :: t in r.delivered <==> t in g.delivered || WokenBy(g.waiters, now, t))
            && (forall t :: t in r.delivered ==>
                r.delivered[t] == if WokenBy(g.waiters, now, t) then now else g.delivered[t])
            && (forall b :: b in r.bits <==> b in now && !Asks(g.waiters, now, b))
  {
    var now := g.bits + bits;
    UnmetFacts(g.waiters, now);
    ToClearFacts(g.waiters, now);
    DeliverFacts(g.waiters, now, g.delivered);
  }

  /** The order of the wait list does not matter. */
  lemma SetIgnoresOrder(g: Group, h: Group, bits: Bits)
    requires g.bits == h.bits && g.delivered == h.delivered && forall w :: w in g.waiters <==> w in h.waiters
    ensures var r, q := AfterSet(g, bits), AfterSet(h, bits);
            && r.bits == q.bits && r.delivered == q.delivered && forall w :: w in r.waiters <==> w in q.waiters
  {
    SetFacts(g, bits);
    SetFacts(h, bits);
    var now := g.bits + bits;
    assert forall b :: Asks(g.waiters, now, b) <==> Asks(h.waiters, now, b);
    assert forall t :: WokenBy(g.waiters, now, t) <==> WokenBy(h.waiters, now, t);
    var r, q := AfterSet(g, bits), AfterSet(h, bits);
    assert r.bits == q.bits;
    assert r.delivered.Keys == q.delivered.Keys && forall t :: t in r.delivered ==> r.delivered[t] == q.delivered[t];
  }

  // ----- the other operations

  /** The part of xEventGroupWaitBits under scheduler suspension. */
  function AfterWait(g: Group, t: Id, w: Wait, block: bool): Group {
    if Met(g.bits, w) then g.(bits := if w.clearOnExit then g.bits - w.bits else g.bits)
    else if block then g.(waiters := g.waiters + [Waiter(t, w)])
    else g
  }

  /** The same part of xEventGroupSync. */
  function AfterSync(g: Group, t: Id, bits: Bits, waitFor: Bits, block: bool): Group {
    var r := AfterSet(g, bits);
    if waitFor <= g.bits + bits then r.(bits := r.bits - waitFor)
    else if block then r.(waiters := r.waiters + [Waiter(t, Wait(waitFor, true, true))])
    else r
  }

  /** A waiting task's block time ends: the tick takes it off the list. */
  function AfterTimeOut(g: Group, t: Id): Group {
    g.(waiters := Others(g.waiters, t))
  }

  function Others(ws: seq<Waiter>, t: Id): (r: seq<Waiter>)
    ensures forall w :: w in r <==> w in ws && w.task != t
  {
    if ws == [] then [] else (if ws[0].task == t then [] else [ws[0]]) + Others(ws[1..], t)
  }

  /** The critical section of a task that was not unblocked by a set: the bits may have come
      since it timed out. */
  function AfterGivingUp(g: Group, w: Wait): Group {
    if Met(g.bits, w) && w.clearOnExit then g.(bits := g.bits - w.bits) else g
  }

  datatype Step =
    | Set(bits: Bits) | Clear(bits: Bits) | WaitFor(t: Id, w: Wait, block: bool)
    | Sync(t: Id, bits: Bits, waitFor: Bits, block: bool) | TimeOut(t: Id) | GiveUp(w: Wait) | Collect(t: Id)

  function After(g: Group, e: Step): Group {
    match e
    case Set(bits) => AfterSet(g, bits)
    case Clear(bits) => g.(bits := g.bits - bits)
    case WaitFor(t, w, block) => AfterWait(g, t, w, block)
    case Sync(t, bits, waitFor, block) => AfterSync(g, t, bits, waitFor, block)
    case TimeOut(t) => AfterTimeOut(g, t)
    case GiveUp(w) => AfterGivingUp(g, w)
    case Collect(t) => g.(delivered := g.delivered - {t})
  }

  /** No blocked task's condition holds of the current bits. */
  ghost predicate Quiet(g: Group) {
    forall w :: w in g.waiters ==> !Met(g.bits, w.wait)
  }

  lemma MetMonotone(fewer: Bits, more: Bits, w: Wait)
    requires fewer <= more
    ensures Met(fewer, w) ==> Met(more, w)
  {
    assert fewer * w.bits <= more * w.bits;
  }

  /** A set leaves the group quiet whatever it was before. */
  lemma SetQuiet(g: Group, bits: Bits)
    ensures Quiet(AfterSet(g, bits))
  {
    var r, now := AfterSet(g, bits), g.bits + bits;
    UnmetFacts(g.waiters, now);
    forall w | w in r.waiters ensures !Met(r.bits, w.wait) { MetMonotone(r.bits, now, w.wait); }
  }

  lemma FewerQuiet(g: Group, r: Group)
    requires Quiet(g) && r.bits <= g.bits && forall w :: w in r.waiters ==> w in g.waiters || !Met(g.bits, w.wait)
    ensures Quiet(r)
  {
    forall w | w in r.waiters ensures !Met(r.bits, w.wait) { MetMonotone(r.bits, g.bits, w.wait); }
  }

  lemma SyncQuiet(g: Group, t: Id, bits: Bits, waitFor: Bits, block: bool)
    ensures Quiet(AfterSync(g, t, bits, waitFor, block))
  {
    var r, now := AfterSet(g, bits), g.bits + bits;
    SetQuiet(g, bits);
    if !(waitFor <= now) { MetMonotone(r.bits, now, Wait(waitFor, true, true)); }
    FewerQuiet(r, AfterSync(g, t, bits, waitFor, block));
  }

  lemma StepQuiet(g: Group, e: Step)
    requires Quiet(g)
    ensures Quiet(After(g, e))
  {
    match e
    case Set(bits) => SetQuiet(g, bits);
    case Sync(t, bits, waitFor, block) => SyncQuiet(g, t, bits, waitFor, block);
    case _ => FewerQuiet(g, After(g, e));
  }

  // ----- the operations bit by bit

  /** A request is satisfied: by any of its bits, or only by all of them. */
  ghost predicate AnyBit(bits: Bits, wanted: Bits) { exists b :: b in wanted && b in bits }

  ghost predicate AllBits(bits: Bits, wanted: Bits) { forall b :: b in wanted ==> b in bits }

  lemma MetBitByBit(bits: Bits, w: Wait)
    ensures Met(bits, w) <==> if w.all then AllBits(bits, w.bits) else AnyBit(bits, w.bits)
  {
    if AnyBit(bits, w.bits) {
      var b :| b in w.bits && b in bits;
      assert b in bits * w.bits;
    }
  }

  /** w was waiting and has been unblocked. */
  predicate Unblocked(g: Group, r: Group, w: Waiter) {
    w in g.waiters && w !in r.waiters
  }

  /** Who leaves when bits are set: a waiter for any exactly if one of its bits is among the old
      or the new, a waiter for all exactly if none of its bits is missing.  Nobody joins. */
  lemma SetUnblocks(g: Group, bits: Bits, w: Waiter)
    ensures var r := AfterSet(g, bits);
            && (w in g.waiters && !w.wait.all ==>
                  (Unblocked(g, r, w) <==> exists b :: b in w.wait.bits && (b in g.bits || b in bits)))
            && (w in g.waiters && w.wait.all ==>
                  (Unblocked(g, r, w) <==> forall b :: b in w.wait.bits ==> b in g.bits || b in bits))
            && (w in r.waiters ==> w in g.waiters)
  {
    SetFacts(g, bits);
    MetBitByBit(g.bits + bits, w.wait);
  }

  /** Of the waiters of g, those not in `left` are the ones for whom, with the old and the new
      bits, one of the bits they wait for any of is set, or none they wait for all of is
      missing. */
  ghost predicate UnblocksRightly(g: Group, bits: Bits, left: seq<Waiter>) {
    forall w :: w in g.waiters ==>
      (w !in left <==> if w.wait.all then forall b :: b in w.wait.bits ==> b in g.bits || b in bits
                       else exists b :: b in w.wait.bits && (b in g.bits || b in bits))
  }

  lemma SetUnblocksRightly(g: Group, bits: Bits, r: Group)
    requires r == AfterSet(g, bits)
    ensures UnblocksRightly(g, bits, r.waiters)
  {
    forall w | w in g.waiters
      ensures w !in r.waiters <==> if w.wait.all then forall b :: b in w.wait.bits ==> b in g.bits || b in bits
                                   else exists b :: b in w.wait.bits && (b in g.bits || b in bits)
    {
      SetUnblocks(g, bits, w);
    }
  }

  /** What is left and what is handed out: a bit stays exactly if it was set and no unblocked
      waiter asked for it to be cleared; each unblocked task gets all the bits there were, and
      nothing changes for the others. */
  lemma SetLeaves(g: Group, bits: Bits, b: nat, t: Id)
    ensures var r := AfterSet(g, bits);
            && (b in r.bits <==>
                  && (b in g.bits || b in bits)
                  && !exists w :: Unblocked(g, r, w) && w.wait.clearOnExit && b in w.wait.bits)
            && if exists w :: Unblocked(g, r, w) && w.task == t
               then t in r.delivered && r.delivered[t] == g.bits + bits
               else (t in r.delivered <==> t in g.delivered) && (t in g.delivered ==> r.delivered[t] == g.delivered[t])
  {
    SetFacts(g, bits);
    var r, now := AfterSet(g, bits), g.bits + bits;
    assert forall w :: Unblocked(g, r, w) <==> w in g.waiters && Met(now, w.wait);
    assert Asks(g.waiters, now, b) <==> exists w :: Unblocked(g, r, w) && w.wait.clearOnExit && b in w.wait.bits;
    assert WokenBy(g.waiters, now, t) <==> exists w :: Unblocked(g, r, w) && w.task == t;
  }

  /** A wait that is satisfied goes on at once and clears its bits if asked to; any other joins
      the list if it may block, and otherwise does nothing. */
  lemma WaitChanges(g: Group, t: Id, w: Wait, block: bool)
    ensures var r := AfterWait(g, t, w, block);
            if (w.all && AllBits(g.bits, w.bits)) || (!w.all && AnyBit(g.bits, w.bits))
            then r.waiters == g.waiters && r.delivered == g.delivered
                 && forall b :: b in r.bits <==> b in g.bits && !(w.clearOnExit && b in w.bits)
            else r == g.(waiters := if block then g.waiters + [Waiter(t, w)] else g.waiters)
  {
    MetBitByBit(g.bits, w);
  }

  /** A rendezvous sets its bits; if everybody's are there it clears them and goes on. */
  lemma SyncChanges(g: Group, t: Id, bits: Bits, waitFor: Bits, block: bool)
    ensures var r, s := AfterSync(g, t, bits, waitFor, block), AfterSet(g, bits);
            && r.delivered == s.delivered
            && if forall b :: b in waitFor ==> b in g.bits || b in bits
               then r.waiters == s.waiters && forall b :: b in r.bits <==> b in s.bits && b !in waitFor
               else && r.bits == s.bits
                    && r.waiters == s.waiters + if block then [Waiter(t, Wait(waitFor, true, true))] else []
  {
    assert waitFor <= g.bits + bits <==> forall b :: b in waitFor ==> b in g.bits || b in bits;
  }

  /** Clearing takes away just the given bits, a timeout just the task's waits, and a task that
      gives up clears its bits if they have come after all. */
  lemma OtherChanges(g: Group, e: Step)
    requires e.Clear? || e.TimeOut? || e.GiveUp? || e.Collect?
    ensures var r := After(g, e);
            match e
            case Clear(bits) => r == g.(bits := r.bits) && forall b :: b in r.bits <==> b in g.bits && b !in bits
            case TimeOut(t) =>
              r == g.(waiters := r.waiters) && forall w :: w in r.waiters <==> w in g.waiters && w.task != t
            case GiveUp(w) =>
              && r == g.(bits := r.bits)
              && forall b :: b in r.bits <==>
                   && b in g.bits
                   && !(w.clearOnExit && b in w.bits
                        && if w.all then AllBits(g.bits, w.bits) else AnyBit(g.bits, w.bits))
            case Collect(t) => r == g.(delivered := r.delivered) && r.delivered == g.delivered - {t}
            case _ => true
  {
    if e.GiveUp? { MetBitByBit(g.bits, e.w); }
  }

  function Outcome(g: Group, run: seq<Step>): Group
    decreases |run|
  {
    if run == [] then g else Outcome(After(g, run[0]), run[1..])
  }

  /** In every run of the operations, nobody is left blocked on bits that are set. */
  lemma {:induction false} RunQuiet(g: Group, run: seq<Step>)
    requires Quiet(g)
    ensures Quiet(Outcome(g, run))
    decreases |run|
  {
    if run != [] {
      StepQuiet(g, run[0]);
      RunQuiet(After(g, run[0]), run[1..]);
    }
  }

  /** In every run, whoever is still blocked has a reason: a waiter for any sees none of its bits
      set, and a waiter for all misses one. */
  lemma BlockedForAReason(g: Group, run: seq<Step>, w: Waiter)
    requires Quiet(g) && w in Outcome(g, run).waiters
    ensures var bits := Outcome(g, run).bits;
            if w.wait.all then exists b :: b in w.wait.bits && b !in bits
            else forall b :: b in w.wait.bits ==> b !in bits
  {
    RunQuiet(g, run);
    MetBitByBit(Outcome(g, run).bits, w.wait);
  }
}

/** The operations of event_groups.c. */
module EventGroups {
  import opened EventGroupStates

  datatype Result = Returned(bits: Bits) | Blocked

  class EventGroup {
    var bits: Bits
    var waiters: seq<Waiter>
    var delivered: map<Id, Bits>

    ghost function Snapshot(): Group
      reads this
    {
      Group(bits, waiters, delivered)
    }

    constructor ()
      ensures Snapshot() == Group({}, [], map[]) && Quiet(Snapshot())
    {
      bits, waiters, delivered := {}, [], map[];
    }

    /** xEventGroupSetBits: one pass over the list, clearing only at the end. */
    method SetBits(bitsToSet: Bits) returns (left: Bits)
      modifies this
      ensures Snapshot() == AfterSet(old(Snapshot()), bitsToSet) && Quiet(Snapshot()) && left == bits
      ensures UnblocksRightly(old(Snapshot()), bitsToSet, waiters)
    {
      ghost var g := Snapshot();
      bits := bits + bitsToSet;
      var bitsToClear: Bits := {};
      var i := 0;
      ghost var k := 0;
      assert g.waiters[..0] == [] && g.waiters[0..] == g.waiters;
      while i < |waiters|
        invariant bits == g.bits + bitsToSet
        invariant Scanned(g.waiters, g.delivered, bits, k, waiters, i, bitsToClear, delivered)
        decreases |waiters| - i
      {
        ScanStep(g.waiters, g.delivered, bits, k, waiters, i, bitsToClear, delivered);
        var item := waiters[i];
        if Met(bits, item.wait) {
          bitsToClear := bitsToClear + if item.wait.clearOnExit then item.wait.bits else {};
          delivered := delivered[item.task := bits];
          waiters := waiters[..i] + waiters[i + 1..];
        } else {
          i := i + 1;
        }
        k := k + 1;
      }
      ScanDone(g.waiters, g.delivered, bits, k, waiters, i, bitsToClear, delivered);
      bits := bits - bitsToClear;
      left := bits;
      SetQuiet(g, bitsToSet);
      SetUnblocksRightly(g, bitsToSet, Snapshot());
    }

    /** xEventGroupClearBits: returns the bits as they were. */
    method ClearBits(bitsToClear: Bits) returns (before: Bits)
      requires Quiet(Snapshot())
      modifies `bits
      ensures Snapshot() == After(old(Snapshot()), Clear(bitsToClear)) && Quiet(Snapshot()) && before == old(bits)
    {
      before := bits;
      bits := bits - bitsToClear;
      FewerQuiet(old(Snapshot()), Snapshot());
    }

    /** xEventGroupWaitBits up to the point where the task blocks. */
    method WaitBits(t: Id, w: Wait, block: bool) returns (result: Result)
      requires Quiet(Snapshot())
      modifies this
      ensures Snapshot() == AfterWait(old(Snapshot()), t, w, block) && Quiet(Snapshot())
      ensures result == if Met(old(bits), w) || !block then Returned(old(bits)) else Blocked
      ensures result.Blocked? <==> block && !if w.all then AllBits(old(bits), w.bits) else AnyBit(old(bits), w.bits)
      ensures waiters == if result.Blocked? then old(waiters) + [Waiter(t, w)] else old(waiters)
    {
      var current := bits;
      MetBitByBit(bits, w);
      if Met(current, w) {
        result := Returned(current);
        if w.clearOnExit {
          bits := bits - w.bits;
        }
      } else if !block {
        result := Returned(current);
      } else {
        waiters := waiters + [Waiter(t, w)];
        result := Blocked;
      }
      FewerQuiet(old(Snapshot()), Snapshot());
    }

    /** xEventGroupSync up to the point where the task blocks. */
    method Sync(t: Id, bitsToSet: Bits, waitFor: Bits, block: bool) returns (result: Result)
      modifies this
      ensures Snapshot() == AfterSync(old(Snapshot()), t, bitsToSet, waitFor, block) && Quiet(Snapshot())
      ensures result == if waitFor <= old(bits) + bitsToSet then Returned(old(bits) + bitsToSet)
                        else if block then Blocked else Returned(bits)
    {
      SyncQuiet(Snapshot(), t, bitsToSet, waitFor, block);
      var original := bits;
      var _ := SetBits(bitsToSet);
      if waitFor <= original + bitsToSet {
        result := Returned(original + bitsToSet);
        bits := bits - waitFor;
      } else if block {
        waiters := waiters + [Waiter(t, Wait(waitFor, true, true))];
        result := Blocked;
      } else {
        result := Returned(bits);
      }
    }

    /** What a task that blocked does when it runs again: the bits stored for it, or if it
        timed out the current bits, cleared if they have come to meet its condition. */
    method Resume(t: Id, w: Wait) returns (result: Bits)
      requires Quiet(Snapshot())
      modifies this
      ensures Quiet(Snapshot())
      ensures if t in old(delivered)
              then result == old(delivered)[t] && Snapshot() == After(old(Snapshot()), Collect(t))
              else result == old(bits) && Snapshot() == AfterGivingUp(old(Snapshot()), w)
    {
      if t in delivered {
        result := delivered[t];
        delivered := delivered - {t};
      } else {
        result := bits;
        if Met(result, w) {
          if w.clearOnExit {
            bits := bits - w.bits;
          }
        }
      }
      FewerQuiet(old(Snapshot()), Snapshot());
    }
  }
}

/** Tasks that meet again and again with xEventGroupSync: each sets its own bits and waits,
    without a timeout, for everybody's. */
module Rendezvous {
  import opened EventGroupStates

  /** Who takes part, and whose each bit is; `some` names one bit of each task. */
  datatype Parties = Parties(tasks: set<Id>, owner: map<nat, Id>, some: map<Id, nat>) {
    function All(): Bits { owner.Keys }

    function Own(t: Id): Bits { set b | b in owner && owner[b] == t }

    /** At least one task, and everyone has a bit of its own. */
    ghost predicate Proper() {
      && tasks != {} && (forall b :: b in owner ==> owner[b] in tasks)
      && forall t :: t in tasks ==> t in some && some[t] in owner && owner[some[t]] == t
    }
  }

  /** `arrived` counts each task's calls, `results` holds what its calls have returned. */
  datatype State = State(group: Group, arrived: map<Id, nat>, results: map<Id, seq<Bits>>)

  datatype Step = Arrive(t: Id) | Leave(t: Id)

  predicate Enabled(p: Parties, s: State, e: Step) {
    match e
    case Arrive(t) => t in p.tasks && t in s.arrived && t in s.results && s.arrived[t] == |s.results[t]|
    case Leave(t) => t in p.tasks && t in s.group.delivered && t in s.results
  }

  /** The arriving task's bits complete the set. */
  predicate Completes(p: Parties, s: State, t: Id) {
    p.All() <= s.group.bits + p.Own(t)
  }

  /** A call that completes the set returns at once with the bits; any other blocks.  A
      blocked task returns what was stored for it. */
  function After(p: Parties, s: State, e: Step): State
    requires Enabled(p, s, e)
  {
    match e
    case Arrive(t) =>
      State(AfterSync(s.group, t, p.Own(t), p.All(), true), s.arrived[t := s.arrived[t] + 1],
            if Completes(p, s, t) then s.results[t := s.results[t] + [s.group.bits + p.Own(t)]] else s.results)
    case Leave(t) =>
      s.(group := s.group.(delivered := s.group.delivered - {t}),
         results := s.results[t := s.results[t] + [s.group.delivered[t]]])
  }

  predicate Waits(g: Group, t: Id) {
    exists w :: w in g.waiters && w.task == t
  }

  // ----- the invariant, after r complete rounds

  /** Everyone blocked asks for all the bits. */
  ghost predicate AskForAll(p: Parties, g: Group) {
    forall w :: w in g.waiters ==> w.task in p.tasks && w.wait == Wait(p.All(), true, true)
  }

  /** The bits set are those of the tasks blocked, and somebody's are missing. */
  ghost predicate BitsOfWaiters(p: Parties, g: Group) {
    && g.bits <= p.All() && !(p.All() <= g.bits)
    && forall b :: b in p.owner ==> (b in g.bits <==> Waits(g, p.owner[b]))
  }

  /** The tasks that have begun the next round are those blocked. */
  ghost predicate InStep(p: Parties, s: State, r: nat) {
    s.arrived.Keys == p.tasks && forall t :: t in p.tasks ==> s.arrived[t] == if Waits(s.group, t) then r + 1 else r
  }

  /** Tasks still to leave an earlier round have all the bits stored for them. */
  ghost predicate Owed(p: Parties, g: Group) {
    forall t :: t in g.delivered ==> t in p.tasks && !Waits(g, t) && p.All() <= g.delivered[t]
  }

  ghost predicate Returned(p: Parties, s: State) {
    && s.results.Keys == p.tasks && s.arrived.Keys == p.tasks
    && (forall t :: t in p.tasks ==>
          s.arrived[t] == |s.results[t]| + if Waits(s.group, t) || t in s.group.delivered then 1 else 0)
    && (forall t, v :: t in p.tasks && v in s.results[t] ==> p.All() <= v)
  }

  ghost predicate Inv(p: Parties, s: State, r: nat) {
    p.Proper() && AskForAll(p, s.group) && BitsOfWaiters(p, s.group) && InStep(p, s, r) && Owed(p, s.group)
        && Returned(p, s)
  }

  // ----- somebody is missing

  lemma {:induction false} NobodyMetScan(ws: seq<Waiter>, now: Bits, d: map<Id, Bits>)
    requires forall w :: w in ws ==> !Met(now, w.wait)
    ensures Unmet(ws, now) == ws && ToClear(ws, now) == {} && Deliver(ws, now, d) == d
  {
    if ws != [] {
      assert ws[|ws|-1] in ws;
      NobodyMetScan(ws[..|ws|-1], now, d);
      assert ws == ws[..|ws|-1] + [ws[|ws|-1]];
    }
  }

  lemma NobodyMet(g: Group, bits: Bits, all: Bits)
    requires (forall w :: w in g.waiters ==> w.wait == Wait(all, true, true)) && !(all <= g.bits + bits)
    ensures AfterSet(g, bits) == g.(bits := g.bits + bits)
  {
    NobodyMetScan(g.waiters, g.bits + bits, g.delivered);
    assert g.bits + bits - {} == g.bits + bits;
  }

  lemma OneMoreWaits(g: Group, q: Group, w: Waiter)
    requires q.waiters == g.waiters + [w]
    ensures forall u :: Waits(q, u) <==> Waits(g, u) || u == w.task
  {
    assert q.waiters[|g.waiters|] == w && w in q.waiters;
    forall u ensures Waits(q, u) <==> Waits(g, u) || u == w.task {
      if Waits(g, u) { var v :| v in g.waiters && v.task == u; assert v in q.waiters; }
    }
  }

  /** The arriving task blocks behind the others. */
  lemma ArriveAndWait(p: Parties, s: State, r: nat, t: Id, q: State)
    requires Inv(p, s, r) && Enabled(p, s, Arrive(t)) && !Completes(p, s, t) && q == After(p, s, Arrive(t))
    ensures Inv(p, q, r)
  {
    NobodyMet(s.group, p.Own(t), p.All());
    var w := Waiter(t, Wait(p.All(), true, true));
    assert q.group == s.group.(bits := s.group.bits + p.Own(t), waiters := s.group.waiters + [w]);
    OneMoreWaits(s.group, q.group, w);
    JoinBits(p, s.group, t, q.group);
    JoinCounts(p, s, r, t, q);
  }

  lemma JoinBits(p: Parties, g: Group, t: Id, q: Group)
    requires BitsOfWaiters(p, g) && q.bits == g.bits + p.Own(t) && !(p.All() <= q.bits)
    requires forall u :: Waits(q, u) <==> Waits(g, u) || u == t
    ensures BitsOfWaiters(p, q)
  {
  }

  lemma JoinCounts(p: Parties, s: State, r: nat, t: Id, q: State)
    requires InStep(p, s, r) && Owed(p, s.group) && Returned(p, s) && t in p.tasks && s.arrived[t] == |s.results[t]|
    requires q.arrived == s.arrived[t := s.arrived[t] + 1] && q.results == s.results
             && q.group.delivered == s.group.delivered
    requires forall u :: Waits(q.group, u) <==> Waits(s.group, u) || u == t
    ensures InStep(p, q, r) && Owed(p, q.group) && Returned(p, q)
  {
  }

  // ----- the last task arrives

  lemma EverybodyWaits(p: Parties, g: Group, t: Id, u: Id)
    requires p.Proper() && BitsOfWaiters(p, g) && u in p.tasks && p.All() <= g.bits + p.Own(t)
    ensures u == t || Waits(g, u)
  {
    assert p.some[u] in p.All();
  }

  lemma {:induction false} EverybodyMetScan(ws: seq<Waiter>, now: Bits)
    requires forall w :: w in ws ==> Met(now, w.wait)
    ensures Unmet(ws, now) == []
  {
    if ws != [] {
      assert ws[|ws|-1] in ws;
      EverybodyMetScan(ws[..|ws|-1], now);
    }
  }

  /** Everybody is released with all the bits, which are then clear. */
  lemma ArriveLast(p: Parties, s: State, r: nat, t: Id, q: State)
    requires Inv(p, s, r) && Enabled(p, s, Arrive(t)) && Completes(p, s, t) && q == After(p, s, Arrive(t))
    ensures Inv(p, q, r + 1) && q.group.bits == {} && q.group.waiters == []
  {
    var g, now := s.group, s.group.bits + p.Own(t);
    assert now == p.All();
    EverybodyMetScan(g.waiters, now);
    SetFacts(g, p.Own(t));
    assert q.group.bits == {};
    forall u | u in p.tasks ensures u == t || Waits(g, u) { EverybodyWaits(p, g, t, u); }
    forall u ensures WokenBy(g.waiters, now, u) <==> Waits(g, u) { AllWoken(g, now, u); }
    EmptyBits(p, q.group);
    AllLeaveCounts(p, s, r, t, q);
  }

  lemma AllWoken(g: Group, now: Bits, u: Id)
    requires forall w :: w in g.waiters ==> Met(now, w.wait)
    ensures WokenBy(g.waiters, now, u) <==> Waits(g, u)
  {
  }

  lemma EmptyBits(p: Parties, q: Group)
    requires p.Proper() && q.bits == {} && q.waiters == []
    ensures BitsOfWaiters(p, q) && AskForAll(p, q) && forall u :: !Waits(q, u)
  {
    var t :| t in p.tasks;
    assert p.some[t] in p.All();
  }

  lemma AllLeaveCounts(p: Parties, s: State, r: nat, t: Id, q: State)
    requires InStep(p, s, r) && Owed(p, s.group) && Returned(p, s) && t in p.tasks && s.arrived[t] == |s.results[t]|
    requires (forall u :: !Waits(q.group, u)) && forall u :: u in p.tasks && u != t ==> Waits(s.group, u)
    requires forall u :: Waits(s.group, u) ==> u in p.tasks
    requires q.arrived == s.arrived[t := s.arrived[t] + 1] && q.results == s.results[t := s.results[t] + [p.All()]]
    requires forall u :: u in q.group.delivered <==> u in s.group.delivered || Waits(s.group, u)
    requires forall u :: u in q.group.delivered ==>
               q.group.delivered[u] == if Waits(s.group, u) then p.All() else s.group.delivered[u]
    ensures InStep(p, q, r + 1) && Owed(p, q.group) && Returned(p, q)
  {
    assert !Waits(s.group, t) && t !in s.group.delivered;
  }

  // ----- a released task leaves

  lemma LeaveSound(p: Parties, s: State, r: nat, t: Id, q: State)
    requires Inv(p, s, r) && Enabled(p, s, Leave(t)) && q == After(p, s, Leave(t))
    ensures Inv(p, q, r)
  {
    assert forall u :: Waits(q.group, u) <==> Waits(s.group, u);
    LeaveCounts(p, s, t, q);
  }

  lemma LeaveCounts(p: Parties, s: State, t: Id, q: State)
    requires Owed(p, s.group) && Returned(p, s) && t in p.tasks && t in s.group.delivered
    requires q.arrived == s.arrived && q.results == s.results[t := s.results[t] + [s.group.delivered[t]]]
    requires q.group.delivered == s.group.delivered - {t} && forall u :: Waits(q.group, u) <==> Waits(s.group, u)
    ensures Owed(p, q.group) && Returned(p, q)
  {
  }

  // ----- whole runs

  function Rounds(p: Parties, s: State, r: nat, e: Step): nat {
    if e.Arrive? && Completes(p, s, e.t) then r + 1 else r
  }

  lemma StepSound(p: Parties, s: State, r: nat, e: Step)
    requires Inv(p, s, r) && Enabled(p, s, e)
    ensures Inv(p, After(p, s, e), Rounds(p, s, r, e))
  {
    match e
    case Arrive(t) =>
      if Completes(p, s, t) {
        ArriveLast(p, s, r, t, After(p, s, e));
      } else {
        ArriveAndWait(p, s, r, t, After(p, s, e));
      }
    case Leave(t) => LeaveSound(p, s, r, t, After(p, s, e));
  }

  function Fresh(p: Parties): State {
    State(Group({}, [], map[]), map t | t in p.tasks :: 0, map t | t in p.tasks :: [])
  }

  predicate IsRun(p: Parties, s: State, run: seq<Step>)
    decreases |run|
  {
    run == [] || (Enabled(p, s, run[0]) && IsRun(p, After(p, s, run[0]), run[1..]))
  }

  function Outcome(p: Parties, s: State, run: seq<Step>): State
    requires IsRun(p, s, run)
    decreases |run|
  {
    if run == [] then s else Outcome(p, After(p, s, run[0]), run[1..])
  }

  lemma {:induction false} RunSound(p: Parties, s: State, r: nat, run: seq<Step>) returns (q: nat)
    requires Inv(p, s, r) && IsRun(p, s, run)
    ensures Inv(p, Outcome(p, s, run), q)
    decreases |run|
  {
    if run == [] {
      q := r;
    } else {
      StepSound(p, s, r, run[0]);
      q := RunSound(p, After(p, s, run[0]), Rounds(p, s, r, run[0]), run[1..]);
    }
  }

  /** A reusable barrier: no task's k-th call returns before every task has made its k-th
      call, each call returns all the bits, and whenever nobody is waiting the bits are
      clear. */
  lemma ReusableBarrier(p: Parties, run: seq<Step>, t: Id, u: Id)
    requires p.Proper() && t in p.tasks && u in p.tasks && IsRun(p, Fresh(p), run)
    ensures var s := Outcome(p, Fresh(p), run);
            && t in s.results && u in s.arrived && |s.results[t]| <= s.arrived[u]
            && (forall v :: v in s.results[t] ==> p.All() <= v)
            && (s.group.waiters == [] ==> s.group.bits == {})
  {
    EmptyBits(p, Fresh(p).group);
    var r := RunSound(p, Fresh(p), 0, run);
    NoWaitersNoBits(p, Outcome(p, Fresh(p), run).group);
  }

  lemma NoWaitersNoBits(p: Parties, g: Group)
    requires BitsOfWaiters(p, g)
    ensures g.waiters == [] ==> g.bits == {}
  {
    assert g.waiters == [] ==> forall t :: !Waits(g, t);
  }
}
