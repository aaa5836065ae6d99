/** The byte ring of a stream buffer (stream_buffer.c): one slot always stays free, so that
    equal head and tail mean empty. */
module ByteRing {

  type Byte = x: nat | x < 256

  /** The position j places after `at`. */
  function At(at: nat, j: nat, length: nat): (r: nat)
    requires at < length && j <= length
    ensures r < length
  {
    if at + j < length then at + j else at + j - length
  }

  /** How far position i lies after `at`. */
  function Offset(at: nat, i: nat, length: nat): (r: nat)
    requires at < length && i < length
    ensures r < length && At(at, r, length) == i
  {
    if i >= at then i - at else i + length - at
  }

  lemma OffsetOfAt(at: nat, j: nat, length: nat)
    requires at < length && j < length
    ensures Offset(at, At(at, j, length), length) == j
  {
  }

  lemma AtAdds(at: nat, i: nat, j: nat, length: nat)
    requires at < length && i + j <= length
    ensures At(At(at, i, length), j, length) == At(at, i + j, length)
  {
  }

  /** `data` laid over the ring from `at` on. */
  function Written(bytes: seq<Byte>, at: nat, data: seq<Byte>): (r: seq<Byte>)
    requires at < |bytes| && |data| <= |bytes|
    ensures |r| == |bytes|
    ensures forall i :: 0 <= i < |r| ==>
              r[i] == if Offset(at, i, |bytes|) < |data| then data[Offset(at, i, |bytes|)] else bytes[i]
  {
    seq(|bytes|, i requires 0 <= i < |bytes| =>
      if Offset(at, i, |bytes|) < |data| then data[Offset(at, i, |bytes|)] else bytes[i])
  }

  lemma WrittenTwice(bytes: seq<Byte>, at: nat, a: seq<Byte>, b: seq<Byte>)
    requires at < |bytes| && |a| + |b| <= |bytes| && b != []
    ensures Written(Written(bytes, at, a), At(at, |a|, |bytes|), b) == Written(bytes, at, a + b)
  {
    var l := Written(Written(bytes, at, a), At(at, |a|, |bytes|), b);
    var r := Written(bytes, at, a + b);
    forall i | 0 <= i < |bytes| ensures l[i] == r[i] {
      var o := Offset(at, i, |bytes|);
      assert Offset(At(at, |a|, |bytes|), i, |bytes|) == if o >= |a| then o - |a| else o + |bytes| - |a|;
    }
  }

  datatype Ring = Ring(bytes: seq<Byte>, head: nat, tail: nat) {
    predicate Valid() { head < |bytes| && tail < |bytes| }

    /** prvBytesInBuffer. */
    function Used(): (n: nat)
      requires Valid()
      ensures n < |bytes| && At(tail, n, |bytes|) == head
    {
      Offset(tail, head, |bytes|)
    }

    function Space(): nat
      requires Valid()
    {
      |bytes| - 1 - Used()
    }

    /** The n bytes from the tail on. */
    function First(n: nat): (r: seq<Byte>)
      requires Valid() && n <= |bytes|
      ensures |r| == n && forall j :: 0 <= j < n ==> r[j] == bytes[At(tail, j, |bytes|)]
    {
      seq(n, j requires 0 <= j < n => bytes[At(tail, j, |bytes|)])
    }

    function Contents(): seq<Byte>
      requires Valid()
    {
      First(Used())
    }
  }

  /** Bytes written into the free part change nothing until the head is moved. */
  lemma WriteUncommitted(s: Ring, data: seq<Byte>, r: Ring)
    requires s.Valid() && |data| <= s.Space() && r == s.(bytes := Written(s.bytes, s.head, data))
    ensures r.Valid() && r.Contents() == s.Contents() && r.Used() == s.Used()
  {
    forall j | 0 <= j < s.Used() ensures r.Contents()[j] == s.Contents()[j] { UnreadIsElsewhere(s, data, j); }
  }

  /** The j-th unread byte lies outside the stretch being written. */
  lemma UnreadIsElsewhere(s: Ring, data: seq<Byte>, j: nat)
    requires s.Valid() && |data| <= s.Space() && j < s.Used()
    ensures Offset(s.head, At(s.tail, j, |s.bytes|), |s.bytes|) >= |data|
  {
  }

  /** Moving the head over them appends them. */
  lemma WriteCommitted(s: Ring, data: seq<Byte>, r: Ring)
    requires s.Valid() && |data| <= s.Space()
    requires r == Ring(Written(s.bytes, s.head, data), At(s.head, |data|, |s.bytes|), s.tail)
    ensures r.Valid() && r.Used() == s.Used() + |data| && r.Contents() == s.Contents() + data
  {
    forall j | 0 <= j < r.Used() ensures r.Contents()[j] == (s.Contents() + data)[j] {
      if j < s.Used() { UnreadIsElsewhere(s, data, j); } else { WrittenByte(s, data, j - s.Used()); }
    }
  }

  lemma WrittenByte(s: Ring, data: seq<Byte>, k: nat)
    requires s.Valid() && |data| <= s.Space() && k < |data|
    ensures Written(s.bytes, s.head, data)[At(s.tail, s.Used() + k, |s.bytes|)] == data[k]
  {
    AtAdds(s.tail, s.Used(), k, |s.bytes|);
    OffsetOfAt(s.head, k, |s.bytes|);
  }

  /** Moving the tail over n bytes drops them. */
  lemma ReadCommitted(s: Ring, n: nat, r: Ring)
    requires s.Valid() && n <= s.Used() && r == s.(tail := At(s.tail, n, |s.bytes|))
    ensures r.Valid() && r.Used() == s.Used() - n
    ensures s.First(n) == s.Contents()[..n] && r.Contents() == s.Contents()[n..]
  {
    forall j | 0 <= j < r.Used() ensures r.Contents()[j] == s.Contents()[n..][j] {
      AtAdds(s.tail, n, j, |s.bytes|);
    }
  }
}

/** Discrete messages in a byte stream: each is preceded by its length in a fixed number of
    bytes. */
module Framing {
  import opened ByteRing

  /** How many lengths `size` bytes can express. */
  function Lengths(size: nat): nat {
    if size == 0 then 1 else 256 * Lengths(size - 1)
  }

  function Encoded(n: nat, size: nat): (r: seq<Byte>)
    ensures |r| == size
  {
    if size == 0 then [] else [n % 256] + Encoded(n / 256, size - 1)
  }

  function Decoded(s: seq<Byte>): nat {
    if s == [] then 0 else s[0] + 256 * Decoded(s[1..])
  }

  /** Reading a length back gives its remainder modulo what the field can express... */
  lemma {:induction false} DecodeTruncates(n: nat, size: nat)
    ensures Decoded(Encoded(n, size)) < Lengths(size)
    ensures n < Lengths(size) ==> Decoded(Encoded(n, size)) == n
  {
    if size > 0 {
      DecodeTruncates(n / 256, size - 1);
      assert Encoded(n, size)[1..] == Encoded(n / 256, size - 1);
    }
  }

  /** ... so a message length survives exactly when it fits, which is what
      prvWriteMessageToBuffer asserts. */
  lemma LengthSurvivesIff(n: nat, size: nat)
    ensures Decoded(Encoded(n, size)) == n <==> n < Lengths(size)
  {
    DecodeTruncates(n, size);
  }

  predicate Storable(m: seq<Byte>, size: nat) {
    m != [] && |m| < Lengths(size)
  }

  function Frame(m: seq<Byte>, size: nat): seq<Byte> {
    Encoded(|m|, size) + m
  }

  function Frames(messages: seq<seq<Byte>>, size: nat): seq<Byte> {
    if messages == [] then [] else Frame(messages[0], size) + Frames(messages[1..], size)
  }

  lemma {:induction false} FramesAppend(messages: seq<seq<Byte>>, m: seq<Byte>, size: nat)
    ensures Frames(messages + [m], size) == Frames(messages, size) + Frame(m, size)
  {
    if messages == [] {
      assert messages + [m] == [m];
    } else {
      assert (messages + [m])[1..] == messages[1..] + [m];
      FramesAppend(messages[1..], m, size);
    }
  }

  /** The first frame of a stream of frames. */
  lemma FirstFrame(messages: seq<seq<Byte>>, size: nat)
    requires messages != [] && |messages[0]| < Lengths(size)
    ensures var s, m := Frames(messages, size), messages[0];
            && |s| >= size + |m| && Decoded(s[..size]) == |m|
            && s[size..size + |m|] == m && s[size + |m|..] == Frames(messages[1..], size)
  {
    var s, m := Frames(messages, size), messages[0];
    DecodeTruncates(|m|, size);
    assert s[..size] == Encoded(|m|, size);
  }

  lemma SomeFrame(messages: seq<seq<Byte>>, size: nat)
    ensures messages != [] ==> messages[0] in messages && |Frames(messages, size)| >= size + |messages[0]|
  {
  }

  /** Frames can be read back in only one way: two lists of messages with the same bytes are
      the same list. */
  lemma {:induction false} FramesUnique(a: seq<seq<Byte>>, b: seq<seq<Byte>>, size: nat)
    requires forall m :: m in a || m in b ==> Storable(m, size)
    requires Frames(a, size) == Frames(b, size)
    ensures a == b
    decreases |a|
  {
    if a != [] && b != [] {
      assert a[0] in a && b[0] in b;
      FirstFrame(a, size);
      FirstFrame(b, size);
      FramesUnique(a[1..], b[1..], size);
      assert a == [a[0]] + a[1..] && b == [b[0]] + b[1..];
    } else {
      SomeFrame(a, size);
      SomeFrame(b, size);
    }
  }
}

/** Sending and receiving, for one writer and one reader that do not overlap. */
module StreamBuffers {
  import opened ByteRing
  import opened Framing

  class StreamBuffer {
    const buffer: array<Byte>
    const isMessageBuffer: bool
    const bytesToStoreMessageLength: nat
    var head: nat
    var tail: nat

    ghost function Snapshot(): Ring
      reads this, buffer
    {
      Ring(buffer[..], head, tail)
    }

    ghost predicate Valid()
      reads this, buffer
    {
      Snapshot().Valid() && (isMessageBuffer ==> bytesToStoreMessageLength > 0)
    }

    ghost function Contents(): seq<Byte>
      requires Valid()
      reads this, buffer
    {
      Snapshot().Contents()
    }

    /** The bytes held are the frames of these messages. */
    ghost predicate Holds(messages: seq<seq<Byte>>)
      reads this, buffer
    {
      && Valid() && isMessageBuffer && Contents() == Frames(messages, bytesToStoreMessageLength)
      && forall m :: m in messages ==> Storable(m, bytesToStoreMessageLength)
    }

    /** The allocation is one byte longer than the capacity asked for. */
    constructor (capacity: nat, isMessageBuffer: bool, bytesToStoreMessageLength: nat)
      requires isMessageBuffer ==> bytesToStoreMessageLength > 0
      ensures Valid() && fresh(buffer) && buffer.Length == capacity + 1 && Contents() == []
      ensures this.isMessageBuffer == isMessageBuffer && this.bytesToStoreMessageLength == bytesToStoreMessageLength
      ensures isMessageBuffer ==> Holds([])
    {
      buffer := new Byte[capacity + 1](_ => 0);
      this.isMessageBuffer, this.bytesToStoreMessageLength := isMessageBuffer, bytesToStoreMessageLength;
      head, tail := 0, 0;
    }

    /** prvBytesInBuffer. */
    method BytesInBuffer() returns (count: nat)
      requires Valid()
      ensures count == Snapshot().Used() == |Contents()|
    {
      count := buffer.Length + head - tail;
      if count >= buffer.Length {
        count := count - buffer.Length;
      }
    }

    /** xStreamBufferSpacesAvailable.  Without a concurrent reader its loop runs once. */
    method SpacesAvailable() returns (space: nat)
      requires Valid()
      ensures space == Snapshot().Space() && space + |Contents()| == buffer.Length - 1
    {
      var distance: int := buffer.Length + tail - head;
      distance := distance - 1;
      if distance >= buffer.Length {
        distance := distance - buffer.Length;
      }
      space := distance;
    }

    /** prvWriteBytesToBuffer: at most two copies, the second from the start of the buffer.
        The head itself is left for the caller to move. */
    method WriteBytes(data: seq<Byte>, at: nat) returns (nextHead: nat)
      requires buffer.Length > 0 && at < buffer.Length && 0 < |data| <= buffer.Length
      modifies buffer
      ensures buffer[..] == Written(old(buffer[..]), at, data) && nextHead == At(at, |data|, buffer.Length)
    {
      var firstLength := if buffer.Length - at < |data| then buffer.Length - at else |data|;
      forall i | 0 <= i < firstLength { buffer[at + i] := data[i]; }
      if |data| > firstLength {
        forall i | 0 <= i < |data| - firstLength { buffer[i] := data[firstLength + i]; }
      }
      nextHead := at + |data|;
      if nextHead >= buffer.Length {
        nextHead := nextHead - buffer.Length;
      }
    }

    /** prvReadBytesFromBuffer. */
    method ReadBytes(count: nat, at: nat) returns (data: seq<Byte>, nextTail: nat)
      requires at < buffer.Length && 0 < count <= buffer.Length
      ensures data == Snapshot().(tail := at, head := at).First(count) && nextTail == At(at, count, buffer.Length)
    {
      var firstLength := if buffer.Length - at < count then buffer.Length - at else count;
      data := buffer[at..at + firstLength];
      if count > firstLength {
        data := data + buffer[..count - firstLength];
      }
      nextTail := at + count;
      if nextTail >= buffer.Length {
        nextTail := nextTail - buffer.Length;
      }
    }

    /** prvWriteMessageToBuffer on a stream buffer: as many bytes as fit. */
    method WriteStream(data: seq<Byte>, space: nat) returns (sent: nat)
      requires Valid() && !isMessageBuffer && space <= Snapshot().Space()
      modifies `head, buffer
      ensures Valid() && sent == (if |data| < space then |data| else space)
      ensures Contents() == old(Contents()) + data[..sent]
    {
      ghost var s := Snapshot();
      sent := if |data| < space then |data| else space;
      if sent != 0 {
        head := WriteBytes(data[..sent], head);
        WriteCommitted(s, data[..sent], Snapshot());
      }
    }

    /** prvWriteMessageToBuffer on a message buffer: the length is written first, but the head
        moves only once, after the data. */
    method WriteMessage(data: seq<Byte>, space: nat, ghost messages: seq<seq<Byte>>) returns (sent: nat)
      requires Holds(messages) && space <= Snapshot().Space() && |data| < Lengths(bytesToStoreMessageLength)
      modifies `head, buffer
      ensures var fits := space >= |data| + bytesToStoreMessageLength;
              && sent == (if fits then |data| else 0)
              && (if sent > 0 then Holds(messages + [data]) else Holds(messages) && Contents() == old(Contents()))
    {
      ghost var s := Snapshot();
      var length := |data|;
      var nextHead := head;
      if space >= |data| + bytesToStoreMessageLength {
        nextHead := WriteBytes(Encoded(|data|, bytesToStoreMessageLength), nextHead);
        WriteUncommitted(s, Encoded(|data|, bytesToStoreMessageLength), Snapshot());
      } else {
        length := 0;
      }
      if length != 0 {
        head := WriteBytes(data, nextHead);
        WrittenTwice(s.bytes, s.head, Encoded(|data|, bytesToStoreMessageLength), data);
        AtAdds(s.head, bytesToStoreMessageLength, |data|, buffer.Length);
        WriteCommitted(s, Frame(data, bytesToStoreMessageLength), Snapshot());
        FramesAppend(messages, data, bytesToStoreMessageLength);
      }
      sent := length;
    }

    /** prvReadMessageFromBuffer on a stream buffer. */
    method ReadStream(max: nat) returns (data: seq<Byte>)
      requires Valid() && !isMessageBuffer
      modifies `tail
      ensures Valid() && |data| == (if max < |old(Contents())| then max else |old(Contents())|)
      ensures old(Contents()) == data + Contents()
    {
      ghost var s := Snapshot();
      var available := BytesInBuffer();
      var count := if max < available then max else available;
      data := [];
      if count != 0 {
        data, tail := ReadBytes(count, tail);
        ReadCommitted(s, count, Snapshot());
      }
    }

    /** The receive side of a message buffer: xStreamBufferReceiveFromISR, and
        xStreamBufferReceive without blocking.  The next message comes out whole, or nothing
        changes because the caller's buffer is too small. */
    method ReceiveMessage(max: nat, ghost messages: seq<seq<Byte>>) returns (data: seq<Byte>)
      requires Holds(messages)
      modifies `tail
      ensures if messages == [] || max < |messages[0]| then data == [] && Holds(messages) && tail == old(tail)
              else data == messages[0] && Holds(messages[1..])
    {
      ghost var s := Snapshot();
      data := [];
      var available := BytesInBuffer();
      SomeFrame(messages, bytesToStoreMessageLength);
      if available > bytesToStoreMessageLength {
        NextFrame(s, messages, bytesToStoreMessageLength);
        var header, nextTail := ReadBytes(bytesToStoreMessageLength, tail);
        assert header == s.First(bytesToStoreMessageLength);
        var nextLength := Decoded(header);
        available := available - bytesToStoreMessageLength;
        if nextLength > max {
          nextLength := 0;
        }
        var count := if nextLength < available then nextLength else available;
        if count != 0 {
          data, tail := ReadBytes(count, nextTail);
          NextFrameRead(s, messages, bytesToStoreMessageLength, data, Snapshot());
        }
      }
    }

    /** xStreamBufferNextMessageLengthBytes. */
    method NextMessageLength(ghost messages: seq<seq<Byte>>) returns (length: nat)
      requires Holds(messages)
      ensures length == if messages == [] then 0 else |messages[0]|
    {
      var available := BytesInBuffer();
      SomeFrame(messages, bytesToStoreMessageLength);
      length := 0;
      if available > bytesToStoreMessageLength {
        NextFrame(Snapshot(), messages, bytesToStoreMessageLength);
        var header, _ := ReadBytes(bytesToStoreMessageLength, tail);
        assert header == Snapshot().First(bytesToStoreMessageLength);
        length := Decoded(header);
      } else {
        assert available == 0;
      }
    }
  }

  /** The header at the tail gives the length of the first pending message. */
  lemma NextFrame(s: Ring, messages: seq<seq<Byte>>, size: nat)
    requires s.Valid() && s.Contents() == Frames(messages, size) && s.Used() > size
    requires forall m :: m in messages ==> Storable(m, size)
    ensures messages != [] && Decoded(s.First(size)) == |messages[0]| && s.Used() >= size + |messages[0]|
            && messages[0] != []
  {
    SomeFrame(messages, size);
    FirstFrame(messages, size);
    ReadCommitted(s, size, s.(tail := At(s.tail, size, |s.bytes|)));
  }

  /** Reading the bytes behind the header yields the message and leaves the other frames. */
  lemma NextFrameRead(s: Ring, messages: seq<seq<Byte>>, size: nat, data: seq<Byte>, r: Ring)
    requires s.Valid() && s.Contents() == Frames(messages, size) && messages != []
    requires Storable(messages[0], size) && s.Used() >= size + |messages[0]|
    requires data == s.(tail := At(s.tail, size, |s.bytes|)).First(|messages[0]|)
    requires r == s.(tail := At(At(s.tail, size, |s.bytes|), |messages[0]|, |s.bytes|))
    ensures data == messages[0] && r.Valid() && r.Contents() == Frames(messages[1..], size)
  {
    var m := s.(tail := At(s.tail, size, |s.bytes|));
    ReadCommitted(s, size, m);
    ReadCommitted(m, |messages[0]|, r);
    FirstFrame(messages, size);
    var all := s.Contents();
    assert all[size..][..|messages[0]|] == all[size..size + |messages[0]|];
    assert all[size..][|messages[0]|..] == all[size + |messages[0]|..];
  }
}
