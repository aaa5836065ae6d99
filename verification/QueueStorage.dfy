/** The storage area of a queue (queue.c): fixed-size items copied in and out of a byte ring,
    at the back, at the front, or over the only item. */
module QueueStorage {
  import opened Options

  type Byte = bv8
  type Item = seq<Byte>

  datatype Position = SendToBack | SendToFront | Overwrite

  /** The byte offset of slot k. */
  function Offset(k: nat, size: nat): (r: nat) {
    if k == 0 then 0 else Offset(k - 1, size) + size
  }

  lemma {:induction false} OffsetIsProduct(k: nat, size: nat)
    ensures Offset(k, size) == k * size
  {
    if k > 0 { OffsetIsProduct(k - 1, size); }
  }

  lemma {:induction false} OffsetGap(i: nat, j: nat, size: nat)
    ensures i < j ==> Offset(i, size) + size <= Offset(j, size)
    decreases j
  {
    if i + 1 < j { OffsetGap(i, j - 1, size); }
  }

  /** memcpy of an item into the ring. */
  function Stored(bytes: seq<Byte>, at: nat, item: Item): (r: seq<Byte>)
    requires at + |item| <= |bytes|
    ensures |r| == |bytes|
    ensures forall i :: 0 <= i < |r| ==> r[i] == if at <= i < at + |item| then item[i - at] else bytes[i]
  {
    seq(|bytes|, i requires 0 <= i < |bytes| => if at <= i < at + |item| then item[i - at] else bytes[i])
  }

  function Next(slot: nat, length: nat): (r: nat)
    requires slot < length
    ensures r < length
  {
    if slot + 1 == length then 0 else slot + 1
  }

  function Previous(slot: nat, length: nat): (r: nat)
    requires slot < length
    ensures r < length && Next(r, length) == slot
  {
    if slot == 0 then length - 1 else slot - 1
  }

  /** Moving a pointer on by one item reaches the end of the storage only from the last slot. */
  lemma NextOffset(slot: nat, length: nat, size: nat)
    requires slot < length && size > 0
    ensures Offset(slot, size) + size <= Offset(length, size)
    ensures Offset(slot, size) + size >= Offset(length, size) <==> slot + 1 == length
    ensures Offset(Next(slot, length), size) == if slot + 1 == length then 0 else Offset(slot, size) + size
  {
    OffsetGap(slot, length, size);
    OffsetGap(slot + 1, length, size);
  }

  lemma PreviousOffset(slot: nat, length: nat, size: nat)
    requires slot < length && size > 0
    ensures Offset(slot, size) + size <= Offset(length, size)
    ensures Offset(slot, size) < size <==> slot == 0
    ensures Offset(Previous(slot, length), size)
            == if slot == 0 then Offset(length, size) - size else Offset(slot, size) - size
  {
    OffsetGap(slot, length, size);
    OffsetGap(0, slot, size);
  }

  /** `readSlot` is the slot before the oldest item; `writeSlot` the next free one. */
  datatype Storage = Storage(length: nat, itemSize: nat, bytes: seq<Byte>, writeSlot: nat, readSlot: nat,
      waiting: nat) {

    predicate Sized() {
      length >= 1 && |bytes| == Offset(length, itemSize) && writeSlot < length && readSlot < length
    }

    /** The slot of the i-th oldest item: read + 1 + i modulo length. */
    function SlotOf(i: nat): (r: nat)
      requires readSlot < length && i <= length
      ensures r < length
    {
      var k := readSlot + 1 + i;
      if k < length then k else if k < length + length then k - length else k - length - length
    }

    /** Items of size zero leave both pointers where they are. */
    predicate Valid() {
      Sized() && waiting <= length && (itemSize > 0 ==> writeSlot == SlotOf(waiting))
    }

    function ItemAt(slot: nat): (r: Item)
      requires slot < length && |bytes| == Offset(length, itemSize)
      ensures |r| == itemSize
      ensures Offset(slot, itemSize) + itemSize <= |bytes|
      ensures forall i :: 0 <= i < itemSize ==> r[i] == bytes[Offset(slot, itemSize) + i]
    {
      OffsetGap(slot, length, itemSize);
      seq(itemSize, i requires 0 <= i < itemSize => bytes[Offset(slot, itemSize) + i])
    }

    /** The items held, oldest first. */
    function Contents(): (r: seq<Item>)
      requires Valid()
      ensures |r| == waiting && forall i :: 0 <= i < waiting ==> r[i] == ItemAt(SlotOf(i))
    {
      seq(waiting, i requires 0 <= i < waiting => ItemAt(SlotOf(i)))
    }
  }

  /** s with an item copied into a slot. */
  function Put(s: Storage, slot: nat, item: Item): Storage
    requires s.Sized() && slot < s.length && |item| == s.itemSize
  {
    OffsetGap(slot, s.length, s.itemSize);
    s.(bytes := Stored(s.bytes, Offset(slot, s.itemSize), item))
  }

  lemma PutFacts(s: Storage, slot: nat, item: Item, k: nat)
    requires s.Sized() && slot < s.length && |item| == s.itemSize && k < s.length
    ensures var r := Put(s, slot, item);
            r.Sized() && r.ItemAt(k) == if k == slot then item else s.ItemAt(k)
  {
    var r := Put(s, slot, item);
    OffsetGap(k, s.length, s.itemSize);
    OffsetGap(k, slot, s.itemSize);
    OffsetGap(slot, k, s.itemSize);
    assert r.ItemAt(k) == if k == slot then item else s.ItemAt(k);
  }

  function SentBack(s: Storage, item: Item): Storage
    requires s.Sized() && |item| == s.itemSize
  {
    if s.itemSize == 0 then s.(waiting := s.waiting + 1)
    else Put(s, s.writeSlot, item).(writeSlot := Next(s.writeSlot, s.length), waiting := s.waiting + 1)
  }

  function SentFront(s: Storage, item: Item): Storage
    requires s.Sized() && |item| == s.itemSize
  {
    if s.itemSize == 0 then s.(waiting := s.waiting + 1)
    else Put(s, s.readSlot, item).(readSlot := Previous(s.readSlot, s.length), waiting := s.waiting + 1)
  }

  /** Written like a send to the front, but not counted if an item was there. */
  function Overwritten(s: Storage, item: Item): Storage
    requires s.Sized() && |item| == s.itemSize
  {
    if s.itemSize == 0 then s.(waiting := s.waiting + 1)
    else Put(s, s.readSlot, item).(readSlot := Previous(s.readSlot, s.length),
                                   waiting := (if s.waiting > 0 then s.waiting - 1 else s.waiting) + 1)
  }

  function Received(s: Storage): Storage
    requires s.Sized() && s.waiting > 0
  {
    if s.itemSize == 0 then s.(waiting := s.waiting - 1)
    else s.(readSlot := Next(s.readSlot, s.length), waiting := s.waiting - 1)
  }

  function Cleared(s: Storage): Storage
    requires s.length >= 1
  {
    s.(writeSlot := 0, readSlot := s.length - 1, waiting := 0)
  }

  lemma SentBackItem(s: Storage, item: Item, i: nat)
    requires s.Valid() && |item| == s.itemSize && s.waiting < s.length && i <= s.waiting
    ensures var r := SentBack(s, item);
            r.Valid() && r.ItemAt(r.SlotOf(i)) == if i < s.waiting then s.ItemAt(s.SlotOf(i)) else item
  {
    if s.itemSize > 0 { PutFacts(s, s.writeSlot, item, s.SlotOf(i)); }
  }

  lemma SendBackAppends(s: Storage, item: Item, r: Storage)
    requires s.Valid() && |item| == s.itemSize && s.waiting < s.length && r == SentBack(s, item)
    ensures r.Valid() && r.Contents() == s.Contents() + [item]
  {
    SentBackItem(s, item, 0);
    forall i | 0 <= i <= s.waiting
        ensures r.ItemAt(r.SlotOf(i)) == if i < s.waiting then s.ItemAt(s.SlotOf(i)) else item {
      SentBackItem(s, item, i);
    }
    Appended(s, item, r);
  }

  lemma Appended(s: Storage, item: Item, r: Storage)
    requires s.Valid() && r.Valid() && r.waiting == s.waiting + 1 && r.length == s.length
    requires forall i :: 0 <= i <= s.waiting ==>
             r.ItemAt(r.SlotOf(i)) == if i < s.waiting then s.ItemAt(s.SlotOf(i)) else item
    ensures r.Contents() == s.Contents() + [item]
  {
  }

  lemma SentFrontItem(s: Storage, item: Item, i: nat)
    requires s.Valid() && |item| == s.itemSize && s.waiting < s.length && i <= s.waiting
    ensures var r := SentFront(s, item);
            r.Valid() && r.ItemAt(r.SlotOf(i)) == if i == 0 then item else s.ItemAt(s.SlotOf(i - 1))
  {
    if s.itemSize > 0 {
      SlotsAfterFront(s, item, i);
      PutFacts(s, s.readSlot, item, SentFront(s, item).SlotOf(i));
    }
  }

  /** The slot before the oldest item becomes that of the new oldest one. */
  lemma SlotsAfterFront(s: Storage, item: Item, i: nat)
    requires s.Valid() && |item| == s.itemSize && s.itemSize > 0 && s.waiting < s.length && i <= s.waiting
    ensures var r := SentFront(s, item);
            && r.Valid() && r.SlotOf(i) == (if i == 0 then s.readSlot else s.SlotOf(i - 1))
            && (i > 0 ==> r.SlotOf(i) != s.readSlot)
  {
  }

  lemma SendFrontPrepends(s: Storage, item: Item, r: Storage)
    requires s.Valid() && |item| == s.itemSize && s.waiting < s.length && r == SentFront(s, item)
    ensures r.Valid() && r.Contents() == [item] + s.Contents()
  {
    SentFrontItem(s, item, 0);
    forall i | 0 <= i <= s.waiting ensures r.ItemAt(r.SlotOf(i)) == if i == 0 then item else s.ItemAt(s.SlotOf(i - 1)) {
      SentFrontItem(s, item, i);
    }
    Prepended(s, item, r);
  }

  lemma Prepended(s: Storage, item: Item, r: Storage)
    requires s.Valid() && r.Valid() && r.waiting == s.waiting + 1 && r.length == s.length
    requires forall i :: 0 <= i <= s.waiting ==>
             r.ItemAt(r.SlotOf(i)) == if i == 0 then item else s.ItemAt(s.SlotOf(i - 1))
    ensures r.Contents() == [item] + s.Contents()
  {
  }

  lemma ReceiveDropsFirst(s: Storage)
    requires s.Valid() && s.waiting > 0
    ensures Received(s).Valid() && Received(s).Contents() == s.Contents()[1..]
  {
    var r := Received(s);
    forall i | 0 <= i < r.waiting ensures r.Contents()[i] == s.Contents()[1..][i] {
      if s.itemSize > 0 { assert r.SlotOf(i) == s.SlotOf(i + 1); }
    }
  }

  /** On a queue of one slot overwriting leaves exactly the new item, unless items have no
      size and there is one already. */
  lemma OverwriteReplaces(s: Storage, item: Item)
    requires s.Valid() && |item| == s.itemSize && s.length == 1 && (s.itemSize > 0 || s.waiting == 0)
    ensures Overwritten(s, item).Valid() && Overwritten(s, item).Contents() == [item]
  {
    if s.itemSize > 0 { PutFacts(s, s.readSlot, item, 0); }
  }

  /** On a longer queue the write position would no longer follow the items: the assertion in
      xQueueGenericSend that the length is one is needed exactly when an item is replaced. */
  lemma OverwriteKeepsPositionsIff(s: Storage, item: Item)
    requires s.Valid() && |item| == s.itemSize && s.itemSize > 0
    ensures Overwritten(s, item).Valid() <==> s.length == 1 || s.waiting == 0
  {
    var r := Overwritten(s, item);
    PutFacts(s, s.readSlot, item, 0);
  }

  /** Items of size zero are counted whatever the position, so overwriting a full semaphore
      pushes its count past the length. */
  lemma OverwriteBoundedIff(s: Storage, item: Item)
    requires s.Valid() && |item| == s.itemSize && s.length == 1
    ensures Overwritten(s, item).waiting <= s.length <==> s.itemSize > 0 || s.waiting < s.length
  {
  }

  /** A new binary semaphore, given twice by overwriting, counts two. */
  lemma OverwriteCountsPastLength()
    ensures var s := Cleared(Storage(1, 0, [], 0, 0, 0));
            && s.Valid() && Overwritten(s, []).Valid()
            && Overwritten(Overwritten(s, []), []).waiting == 2 > s.length
  {
    assert Offset(1, 0) == Offset(0, 0) + 0;
  }

  lemma ClearEmpties(s: Storage)
    requires s.Sized()
    ensures Cleared(s).Valid() && Cleared(s).Contents() == []
  {
  }

  class Queue {
    const data: array<Byte>
    const length: nat
    const itemSize: nat
    var writeTo: nat
    var readFrom: nat
    var messagesWaiting: nat
    ghost var writeSlot: nat
    ghost var readSlot: nat

    ghost function Snapshot(): Storage
      reads this, data
    {
      Storage(length, itemSize, data[..], writeSlot, readSlot, messagesWaiting)
    }

    /** The byte pointers stand at the beginnings of their slots. */
    ghost predicate Placed()
      reads this, data
    {
      Snapshot().Sized() && writeTo == Offset(writeSlot, itemSize) && readFrom == Offset(readSlot, itemSize)
    }

    ghost predicate Valid()
      reads this, data
    {
      Placed() && Snapshot().Valid()
    }

    ghost function Contents(): seq<Item>
      requires Valid()
      reads this, data
    {
      Snapshot().Contents()
    }

    constructor (length: nat, itemSize: nat)
      requires length >= 1
      ensures Valid() && fresh(data) && this.length == length && this.itemSize == itemSize && Contents() == []
    {
      OffsetIsProduct(length, itemSize);
      OffsetIsProduct(length - 1, itemSize);
      data := new Byte[length * itemSize](_ => 0);
      this.length, this.itemSize := length, itemSize;
      writeTo, readFrom, messagesWaiting := 0, (length - 1) * itemSize, 0;
      writeSlot, readSlot := 0, length - 1;
    }

    /** memcpy into the storage area. */
    method StoreAt(at: nat, item: Item)
      requires at + |item| <= data.Length
      modifies data
      ensures data[..] == Stored(old(data[..]), at, item)
    {
      forall i | 0 <= i < |item| { data[at + i] := item[i]; }
    }

    /** prvCopyDataToQueue of a queue that is not a mutex. */
    method CopyDataToQueue(item: Item, position: Position)
      requires Placed() && |item| == itemSize
      modifies this, data
      ensures Placed()
      ensures Snapshot() == match position
                            case SendToBack => SentBack(old(Snapshot()), item)
                            case SendToFront => SentFront(old(Snapshot()), item)
                            case Overwrite => Overwritten(old(Snapshot()), item)
    {
      var waiting := messagesWaiting;
      if itemSize == 0 {
      } else if position == SendToBack {
        NextOffset(writeSlot, length, itemSize);
        StoreAt(writeTo, item);
        writeTo := writeTo + itemSize;
        if writeTo >= data.Length {
          writeTo := 0;
        }
        writeSlot := Next(writeSlot, length);
      } else {
        PreviousOffset(readSlot, length, itemSize);
        StoreAt(readFrom, item);
        var before := readFrom as int - itemSize;
        if before < 0 {
          readFrom := data.Length - itemSize;
        } else {
          readFrom := before;
        }
        readSlot := Previous(readSlot, length);
        if position == Overwrite {
          if waiting > 0 {
            waiting := waiting - 1;
          }
        }
      }
      messagesWaiting := waiting + 1;
    }

    /** prvCopyDataFromQueue. */
    method CopyDataFromQueue() returns (item: Item)
      requires Placed()
      modifies `readFrom, `readSlot
      ensures Placed() && item == Snapshot().ItemAt(readSlot)
      ensures readSlot == if itemSize == 0 then old(readSlot) else Next(old(readSlot), length)
    {
      item := [];
      if itemSize != 0 {
        NextOffset(readSlot, length, itemSize);
        readFrom := readFrom + itemSize;
        if readFrom >= data.Length {
          readFrom := 0;
        }
        readSlot := Next(readSlot, length);
        OffsetGap(readSlot, length, itemSize);
        item := data[readFrom..readFrom + itemSize];
      }
    }

    /** The data side of a send: it succeeds iff there is room or the item is to be
        overwritten, which the source allows on queues of one slot.  Only overwriting a full
        queue whose items have no size leaves the invariant. */
    method TrySend(item: Item, position: Position) returns (sent: bool)
      requires Valid() && |item| == itemSize && (position == Overwrite ==> length == 1)
      modifies this, data
      ensures Placed() && (sent <==> old(messagesWaiting) < length || position == Overwrite)
      ensures Valid() <==> position != Overwrite || itemSize > 0 || old(messagesWaiting) < length
      ensures !Valid() ==> Snapshot() == old(Snapshot()).(waiting := old(messagesWaiting) + 1)
      ensures Valid() ==>
              Contents() == if !sent then old(Contents())
                            else match position
                                 case SendToBack => old(Contents()) + [item]
                                 case SendToFront => [item] + old(Contents())
                                 case Overwrite => [item]
    {
      ghost var s := Snapshot();
      sent := messagesWaiting < length || position == Overwrite;
      if sent {
        CopyDataToQueue(item, position);
        match position {
          case SendToBack => SendBackAppends(s, item, Snapshot());
          case SendToFront => SendFrontPrepends(s, item, Snapshot());
          case Overwrite =>
            if itemSize > 0 || s.waiting == 0 { OverwriteReplaces(s, item); }
        }
      }
    }

    /** The data side of a receive. */
    method TryReceive() returns (received: Option<Item>)
      requires Valid()
      modifies this
      ensures Valid()
      ensures if old(Contents()) == [] then received == None && Contents() == []
              else received == Some(old(Contents())[0]) && Contents() == old(Contents())[1..]
    {
      ghost var s := Snapshot();
      received := None;
      if messagesWaiting > 0 {
        var item := CopyDataFromQueue();
        assert item == s.Contents()[0];
        messagesWaiting := messagesWaiting - 1;
        ReceiveDropsFirst(s);
        received := Some(item);
      }
    }

    /** The data side of a peek: the read pointer is put back. */
    method TryPeek() returns (received: Option<Item>)
      requires Valid()
      modifies `readFrom, `readSlot
      ensures Valid() && Contents() == old(Contents())
      ensures received == if old(Contents()) == [] then None else Some(old(Contents())[0])
    {
      ghost var s := Snapshot();
      received := None;
      if messagesWaiting > 0 {
        var originalReadPosition := readFrom;
        ghost var originalSlot := readSlot;
        var item := CopyDataFromQueue();
        assert item == s.Contents()[0];
        readFrom, readSlot := originalReadPosition, originalSlot;
        received := Some(item);
      }
    }

    /** xQueueGenericReset. */
    method Reset()
      requires Placed()
      modifies this
      ensures Valid() && Contents() == []
    {
      ghost var s := Snapshot();
      OffsetIsProduct(length - 1, itemSize);
      messagesWaiting := 0;
      writeTo := 0;
      readFrom := (length - 1) * itemSize;
      writeSlot, readSlot := 0, length - 1;
      ClearEmpties(s);
    }
  }
}
