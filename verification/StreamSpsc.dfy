/** One writer and one reader working on a stream buffer at the same time (stream_buffer.c).
    Every step is one load of a shared index, one byte copied, or one store of an index; the
    steps of the two sides interleave freely. */
module StreamSpsc {
  import opened ByteRing

  /** Where the writer is.  Sampling follows xStreamBufferSpacesAvailable: load the tail, load
      it again to compute the space, then compare with a third load and start over if it
      moved.  Filling copies `chunk` behind the head; k bytes are in place. */
  datatype Writer =
    | WriterIdle
    | Sampling(data: seq<Byte>)
    | Sampled(data: seq<Byte>, original: nat)
    | Computed(data: seq<Byte>, original: nat, space: nat)
    | Filling(chunk: seq<Byte>, k: nat)

  /** Draining has seen `available` bytes and has copied `got` from the tail on. */
  datatype Reader = ReaderIdle | Draining(available: nat, got: seq<Byte>)

  /** `sent` and `received` are all bytes whose index update has been stored. */
  datatype State = State(ring: Ring, writer: Writer, reader: Reader, sent: seq<Byte>, received: seq<Byte>)

  /** A send decides how much of its data to write: all that fits on a stream buffer, all or
      nothing for a framed message.  A receive takes as many of the bytes it saw as it likes.
      A message of length zero is given up after its header has been copied in, and a
      receive with too small a buffer after the header has been copied out. */
  datatype Step =
    | BeginSend(data: seq<Byte>) | LoadOriginalTail | LoadTail | Recheck(whole: bool) | CopyIn | PublishHead
    | GiveUpSend
    | LoadHead | CopyOut | PublishTail | GiveUpReceive

  function SpaceSeen(head: nat, tail: nat, length: nat): nat
    requires head < length && tail < length
  {
    var d: int := length + tail - head - 1;
    if d >= length then d - length else d
  }

  function Chosen(data: seq<Byte>, space: nat, whole: bool): (r: seq<Byte>)
    ensures |r| <= space && r <= data
  {
    if |data| <= space then data else if whole then [] else data[..space]
  }

  predicate Enabled(s: State, e: Step) {
    s.ring.Valid() &&
    match e
    case BeginSend(data) => s.writer.WriterIdle?
    case LoadOriginalTail => s.writer.Sampling?
    case LoadTail => s.writer.Sampled?
    case Recheck(whole) => s.writer.Computed?
    case CopyIn => s.writer.Filling? && s.writer.k < |s.writer.chunk| <= |s.ring.bytes|
    case PublishHead => s.writer.Filling? && s.writer.k == |s.writer.chunk| <= |s.ring.bytes|
    case GiveUpSend => s.writer.Filling?
    case LoadHead => s.reader.ReaderIdle?
    case CopyOut => s.reader.Draining? && |s.reader.got| < s.reader.available <= |s.ring.bytes|
    case PublishTail => s.reader.Draining? && |s.reader.got| <= |s.ring.bytes|
    case GiveUpReceive => s.reader.Draining?
  }

  function After(s: State, e: Step): State
    requires Enabled(s, e)
  {
    var length := |s.ring.bytes|;
    match e
    case BeginSend(data) => s.(writer := Sampling(data))
    case LoadOriginalTail => s.(writer := Sampled(s.writer.data, s.ring.tail))
    case LoadTail => s.(writer := Computed(s.writer.data, s.writer.original,
        SpaceSeen(s.ring.head, s.ring.tail, length)))
    case Recheck(whole) =>
      if s.writer.original != s.ring.tail then s.(writer := Sampling(s.writer.data))
      else s.(writer := Filling(Chosen(s.writer.data, s.writer.space, whole), 0))
    case CopyIn =>
      s.(ring := s.ring.(bytes := s.ring.bytes[At(s.ring.head, s.writer.k, length) := s.writer.chunk[s.writer.k]]),
         writer := s.writer.(k := s.writer.k + 1))
    case PublishHead =>
      s.(ring := s.ring.(head := At(s.ring.head, |s.writer.chunk|, length)), sent := s.sent + s.writer.chunk,
          writer := WriterIdle)
    case GiveUpSend => s.(writer := WriterIdle)
    case LoadHead => s.(reader := Draining(s.ring.Used(), []))
    case CopyOut =>
      s.(reader := s.reader.(got := s.reader.got + [s.ring.bytes[At(s.ring.tail, |s.reader.got|, length)]]))
    case PublishTail =>
      s.(ring := s.ring.(tail := At(s.ring.tail, |s.reader.got|, length)), received := s.received + s.reader.got,
         reader := ReaderIdle)
    case GiveUpReceive => s.(reader := ReaderIdle)
  }

  // ----- the invariant

  /** What has been sent is what has been received followed by the bytes in the ring. */
  ghost predicate StreamIntact(s: State) {
    s.ring.Valid() && s.sent == s.received + s.ring.Contents()
  }

  /** The writer's view of the space is never more than the truth, and the bytes it has
      copied are in place behind the head. */
  ghost predicate WriterSound(s: State)
    requires s.ring.Valid()
  {
    match s.writer
    case Computed(_, _, space) => space <= s.ring.Space()
    case Filling(chunk, k) =>
      && k <= |chunk| <= s.ring.Space()
      && forall j :: 0 <= j < k ==> s.ring.bytes[At(s.ring.head, j, |s.ring.bytes|)] == chunk[j]
    case _ => true
  }

  /** The reader takes no more than there is, and what it has copied is the oldest part. */
  ghost predicate ReaderSound(s: State)
    requires s.ring.Valid()
  {
    match s.reader
    case ReaderIdle => true
    case Draining(available, got) => |got| <= available <= s.ring.Used() && got == s.ring.First(|got|)
  }

  ghost predicate Sound(s: State) {
    StreamIntact(s) && WriterSound(s) && ReaderSound(s)
  }

  /** The wrapped subtraction of xStreamBufferSpacesAvailable is the free space. */
  lemma SpaceSeenIsSpace(r: Ring)
    requires r.Valid()
    ensures SpaceSeen(r.head, r.tail, |r.bytes|) == r.Space()
  {
  }

  /** The place the writer copies to holds no unread byte. */
  lemma CopyMissesUnread(s: State, j: nat)
    requires Sound(s) && Enabled(s, CopyIn) && j < s.ring.Used()
    ensures At(s.ring.tail, j, |s.ring.bytes|) != At(s.ring.head, s.writer.k, |s.ring.bytes|)
  {
    AtAdds(s.ring.tail, s.ring.Used(), s.writer.k, |s.ring.bytes|);
  }

  lemma CopyInSound(s: State)
    requires Sound(s) && Enabled(s, CopyIn)
    ensures Sound(After(s, CopyIn))
  {
    var r, length := After(s, CopyIn), |s.ring.bytes|;
    forall j | 0 <= j < s.ring.Used() ensures r.ring.Contents()[j] == s.ring.Contents()[j] { CopyMissesUnread(s, j); }
    assert r.ring.Contents() == s.ring.Contents();
    forall j | 0 <= j < s.writer.k ensures At(s.ring.head, j, length) != At(s.ring.head, s.writer.k, length) {
      OffsetOfAt(s.ring.head, j, length);
      OffsetOfAt(s.ring.head, s.writer.k, length);
    }
    CopiedStays(s, r);
  }

  /** Bytes among the unread ones are as they were for the reader. */
  lemma CopiedStays(s: State, r: State)
    requires s.ring.Valid() && ReaderSound(s) && r.reader == s.reader && r.ring.Valid()
    requires r.ring.tail == s.ring.tail && |r.ring.bytes| == |s.ring.bytes| && s.ring.Used() <= r.ring.Used()
    requires forall j :: 0 <= j < s.ring.Used() ==> r.ring.Contents()[j] == s.ring.Contents()[j]
    ensures ReaderSound(r)
  {
    if s.reader.Draining? {
      forall j | 0 <= j < |s.reader.got| ensures s.reader.got[j] == r.ring.First(|s.reader.got|)[j] {
        assert r.ring.Contents()[j] == s.ring.Contents()[j];
      }
    }
  }

  lemma PublishHeadSound(s: State)
    requires Sound(s) && Enabled(s, PublishHead)
    ensures Sound(After(s, PublishHead))
  {
    var r, chunk := After(s, PublishHead), s.writer.chunk;
    InPlace(s.ring, chunk);
    WriteCommitted(s.ring, chunk, r.ring);
    assert r.sent == r.received + r.ring.Contents();
    assert forall j :: 0 <= j < s.ring.Used() ==> r.ring.Contents()[j] == s.ring.Contents()[j];
    CopiedStays(s, r);
  }

  /** Once every byte of the chunk is in place, the ring is as if it had been written at once. */
  lemma InPlace(r: Ring, chunk: seq<Byte>)
    requires r.Valid() && |chunk| <= r.Space()
    requires forall j :: 0 <= j < |chunk| ==> r.bytes[At(r.head, j, |r.bytes|)] == chunk[j]
    ensures Written(r.bytes, r.head, chunk) == r.bytes
  {
    forall i | 0 <= i < |r.bytes| ensures Written(r.bytes, r.head, chunk)[i] == r.bytes[i] {
      var o := Offset(r.head, i, |r.bytes|);
      assert o < |chunk| ==> r.bytes[At(r.head, o, |r.bytes|)] == chunk[o];
    }
  }

  lemma CopyOutSound(s: State)
    requires Sound(s) && Enabled(s, CopyOut)
    ensures Sound(After(s, CopyOut))
  {
    var r, k := After(s, CopyOut), |s.reader.got|;
    assert r.reader.got == s.ring.First(k + 1);
  }

  lemma PublishTailSound(s: State)
    requires Sound(s) && Enabled(s, PublishTail)
    ensures Sound(After(s, PublishTail))
  {
    var r := After(s, PublishTail);
    ReadCommitted(s.ring, |s.reader.got|, r.ring);
    MovedOver(s.received, s.reader.got, s.ring.Contents(), r.ring.Contents(), |s.reader.got|);
    MoreSpace(s, r);
  }

  lemma MovedOver(received: seq<Byte>, got: seq<Byte>, contents: seq<Byte>, rest: seq<Byte>, n: nat)
    requires n <= |contents| && got == contents[..n] && rest == contents[n..]
    ensures received + contents == received + got + rest
  {
  }

  /** The writer does not mind the reader making room. */
  lemma MoreSpace(s: State, r: State)
    requires s.ring.Valid() && r.ring.Valid() && WriterSound(s) && r.writer == s.writer
    requires r.ring.bytes == s.ring.bytes && r.ring.head == s.ring.head && r.ring.Space() >= s.ring.Space()
    ensures WriterSound(r)
  {
  }

  lemma StepSound(s: State, e: Step)
    requires Sound(s) && Enabled(s, e)
    ensures Sound(After(s, e))
  {
    match e
    case LoadTail => SpaceSeenIsSpace(s.ring);
    case CopyIn => CopyInSound(s);
    case PublishHead => PublishHeadSound(s);
    case CopyOut => CopyOutSound(s);
    case PublishTail => PublishTailSound(s);
    case _ =>
  }

  // ----- what each step moves

  /** A send takes all its data if it fits; otherwise as much as fits, or nothing if it must go
      whole. */
  lemma SendTakesWhatFits(s: State, whole: bool)
    requires Sound(s) && Enabled(s, Recheck(whole)) && s.writer.original == s.ring.tail
    ensures var r, data, space := After(s, Recheck(whole)), s.writer.data, s.writer.space;
            && r == s.(writer := r.writer) && r.writer.Filling? && r.writer.k == 0 && r.writer.chunk <= data
            && |r.writer.chunk| == (if |data| <= space then |data| else if whole then 0 else space)
  {
  }

  /** Before that the space is sampled, and sampled again if the tail has moved. */
  lemma SamplingRetries(s: State, e: Step)
    requires Sound(s) && Enabled(s, e)
    requires e.BeginSend? || e.LoadOriginalTail? || e.LoadTail? || (e.Recheck? && s.writer.original != s.ring.tail)
    ensures var r := After(s, e);
            && r == s.(writer := r.writer)
            && (e.BeginSend? ==> r.writer == Sampling(e.data))
            && (e.LoadOriginalTail? ==> r.writer == Sampled(s.writer.data, s.ring.tail))
            && (e.LoadTail? ==> r.writer == Computed(s.writer.data, s.writer.original, s.ring.Space()))
            && (e.Recheck? ==> r.writer == Sampling(s.writer.data))
  {
    if e.LoadTail? { SpaceSeenIsSpace(s.ring); }
  }

  /** Storing the head sends the whole chunk, storing the tail receives every byte copied, and
      no other step sends or receives anything. */
  lemma StoresMoveBytes(s: State, e: Step)
    requires Sound(s) && Enabled(s, e)
    ensures var r := After(s, e);
            && r.sent == s.sent + (if e == PublishHead then s.writer.chunk else [])
            && r.received == s.received + (if e == PublishTail then s.reader.got else [])
            && (e == PublishHead || e == GiveUpSend ==> r.writer == WriterIdle)
            && (e == PublishTail || e == GiveUpReceive ==> r.reader == ReaderIdle)
            && (e != PublishHead && e != PublishTail ==> r.ring.Used() == s.ring.Used())
            && |r.sent| - |r.received| == r.ring.Used()
  {
    StepSound(s, e);
  }

  /** The copying steps go on one byte at a time, and the reader starts from all there is. */
  lemma CopiesGoOn(s: State, e: Step)
    requires Sound(s) && Enabled(s, e) && (e == CopyIn || e == CopyOut || e == LoadHead)
    ensures var r := After(s, e);
            && (e == CopyIn ==> r.writer == s.writer.(k := s.writer.k + 1) && r.reader == s.reader)
            && (e == CopyOut ==>
                  && r.writer == s.writer && r.reader.Draining? && r.reader.available == s.reader.available
                  && |r.reader.got| == |s.reader.got| + 1 && s.reader.got <= r.reader.got)
            && (e == LoadHead ==> r == s.(reader := Draining(|s.sent| - |s.received|, [])))
  {
    StoresMoveBytes(s, e);
  }

  // ----- whole runs

  function Fresh(bytes: seq<Byte>): State
    requires bytes != []
  {
    State(Ring(bytes, 0, 0), WriterIdle, ReaderIdle, [], [])
  }

  predicate IsRun(s: State, run: seq<Step>)
    decreases |run|
  {
    run == [] || (Enabled(s, run[0]) && IsRun(After(s, run[0]), run[1..]))
  }

  function Outcome(s: State, run: seq<Step>): State
    requires IsRun(s, run)
    decreases |run|
  {
    if run == [] then s else Outcome(After(s, run[0]), run[1..])
  }

  lemma {:induction false} RunSound(s: State, run: seq<Step>)
    requires Sound(s) && IsRun(s, run)
    ensures Sound(Outcome(s, run)) && |Outcome(s, run).ring.bytes| == |s.ring.bytes|
    decreases |run|
  {
    if run != [] {
      StepSound(s, run[0]);
      RunSound(After(s, run[0]), run[1..]);
    }
  }

  /** Under every interleaving the bytes received are a prefix of the bytes sent, and at most
      length - 1 bytes are in between. */
  lemma ReceivedIsPrefixOfSent(bytes: seq<Byte>, run: seq<Step>)
    requires bytes != [] && IsRun(Fresh(bytes), run)
    ensures var s := Outcome(Fresh(bytes), run);
            s.received <= s.sent && |s.sent| - |s.received| <= |bytes| - 1
  {
    assert Fresh(bytes).ring.Contents() == [];
    RunSound(Fresh(bytes), run);
  }
}

/** Messages through the same steps: the writer sends frames and the reader takes one frame at
    a time, while the other side is at work. */
module MessageSpsc {
  import opened ByteRing
  import opened Framing
  import opened StreamSpsc

  /** `posted` and `delivered` are the messages whose index update has been stored. */
  datatype Mail = Mail(s: State, posted: seq<seq<Byte>>, delivered: seq<seq<Byte>>)

  /** How many bytes a receive takes, by the header it has copied out: the header and the
      message, or what it saw of it. */
  function Taken(available: nat, got: seq<Byte>, size: nat): nat
    requires size <= |got| && size <= available
  {
    var length := Decoded(got[..size]);
    size + if length < available - size then length else available - size
  }

  /** A sender offers a frame and writes all of it or nothing; a frame without data is not
      published, and neither is a receive of a header alone. */
  ghost predicate Allowed(m: Mail, e: Step, size: nat) {
    Enabled(m.s, e) &&
    match e
    case BeginSend(data) => exists d :: |d| < Lengths(size) && data == Frame(d, size)
    case Recheck(whole) => whole
    case PublishHead => m.s.writer.chunk == [] || |m.s.writer.chunk| > size
    case PublishTail =>
      && m.s.reader.available > size && |m.s.reader.got| > size
      && |m.s.reader.got| == Taken(m.s.reader.available, m.s.reader.got, size)
    case _ => true
  }

  ghost function Next(m: Mail, e: Step, size: nat): Mail
    requires Allowed(m, e, size)
  {
    var s := m.s;
    var r := After(s, e);
    match e
    case PublishHead => if s.writer.chunk == [] then m.(s := r)
        else m.(s := r, posted := m.posted + [s.writer.chunk[size..]])
    case PublishTail => m.(s := r, delivered := m.delivered + [s.reader.got[size..]])
    case _ => m.(s := r)
  }

  // ----- the invariant

  /** The writer works on one frame, or has found no room for it. */
  ghost predicate FrameInHand(w: Writer, size: nat) {
    match w
    case WriterIdle => true
    case Sampling(data) => IsFrame(data, size)
    case Sampled(data, _) => IsFrame(data, size)
    case Computed(data, _, _) => IsFrame(data, size)
    case Filling(chunk, _) => chunk == [] || IsFrame(chunk, size)
  }

  ghost predicate IsFrame(data: seq<Byte>, size: nat) {
    exists d :: |d| < Lengths(size) && data == Frame(d, size)
  }

  /** What the reader has seen is nothing, or at least one whole frame. */
  predicate WholeFrameSeen(m: Mail, size: nat) {
    m.s.reader.Draining? && m.s.reader.available > 0 ==>
      |m.delivered| < |m.posted| && m.s.reader.available >= size + |m.posted[|m.delivered|]|
  }

  ghost predicate MailSound(m: Mail, size: nat) {
    && Sound(m.s) && m.s.sent == Frames(m.posted, size) && m.s.received == Frames(m.delivered, size)
    && m.delivered <= m.posted && (forall d :: d in m.posted ==> Storable(d, size))
    && FrameInHand(m.s.writer, size) && WholeFrameSeen(m, size)
  }

  /** Taking the head off a list and off its first part. */
  lemma HeadAndParts<T>(list: seq<T>, k: nat)
    requires 0 < k <= |list|
    ensures list[..k][0] == list[0] && list[..k][1..] == list[1..][..k - 1] && list[1..][k - 1..] == list[k..]
  {
  }

  lemma FramesHead(messages: seq<seq<Byte>>, size: nat)
    requires messages != []
    ensures Frames(messages, size) == Frame(messages[0], size) + Frames(messages[1..], size)
  {
  }

  lemma {:induction false} FramesSplit(messages: seq<seq<Byte>>, k: nat, size: nat)
    requires k <= |messages|
    ensures Frames(messages, size) == Frames(messages[..k], size) + Frames(messages[k..], size)
    decreases |messages|
  {
    if k == 0 {
      assert messages[..0] == [] && messages[0..] == messages;
    } else {
      HeadAndParts(messages, k);
      FramesSplit(messages[1..], k - 1, size);
      FramesHead(messages, size);
      FramesHead(messages[..k], size);
      Regroup(Frame(messages[0], size), Frames(messages[1..][..k - 1], size), Frames(messages[k..], size));
    }
  }

  lemma Regroup(a: seq<Byte>, b: seq<Byte>, c: seq<Byte>)
    ensures a + (b + c) == a + b + c
  {
  }

  /** The bytes in the ring are the frames posted and not yet delivered. */
  lemma RingHoldsTheRest(m: Mail, size: nat)
    requires MailSound(m, size)
    ensures m.s.ring.Contents() == Frames(m.posted[|m.delivered|..], size)
  {
    FramesSplit(m.posted, |m.delivered|, size);
    assert m.posted[..|m.delivered|] == m.delivered;
    assert m.s.sent[|m.s.received|..] == m.s.ring.Contents();
  }

  lemma LoadHeadSeesFrame(m: Mail, size: nat)
    requires MailSound(m, size) && Allowed(m, LoadHead, size)
    ensures WholeFrameSeen(Next(m, LoadHead, size), size)
  {
    RingHoldsTheRest(m, size);
    SomeFrame(m.posted[|m.delivered|..], size);
  }

  lemma PostedFrame(m: Mail, size: nat)
    requires MailSound(m, size) && Allowed(m, PublishHead, size)
    ensures MailSound(Next(m, PublishHead, size), size)
  {
    StepSound(m.s, PublishHead);
    if m.s.writer.chunk != [] { FrameTaken(m.s.writer.chunk, m.posted, size); }
  }

  /** What a frame with data adds to the messages posted. */
  lemma FrameTaken(chunk: seq<Byte>, posted: seq<seq<Byte>>, size: nat)
    requires IsFrame(chunk, size) && |chunk| > size
    ensures Storable(chunk[size..], size) && Frames(posted + [chunk[size..]], size) == Frames(posted, size) + chunk
  {
    var d :| |d| < Lengths(size) && chunk == Frame(d, size);
    assert chunk[size..] == d;
    FramesAppend(posted, d, size);
  }

  /** A receive that goes by the header takes exactly the first frame. */
  lemma TakesFirstFrame(rest: seq<seq<Byte>>, available: nat, got: seq<Byte>, size: nat)
    requires rest != [] && |rest[0]| < Lengths(size) && available >= size + |rest[0]|
    requires size <= |got| <= |Frames(rest, size)| && got == Frames(rest, size)[..|got|]
    requires |got| == Taken(available, got, size)
    ensures got == Frame(rest[0], size) && got[size..] == rest[0]
  {
    FirstFrame(rest, size);
    assert got[..size] == Frames(rest, size)[..size];
  }

  lemma Undelivered(m: Mail, size: nat)
    requires MailSound(m, size) && |m.delivered| < |m.posted|
    ensures var d := m.posted[|m.delivered|];
            Storable(d, size) && Frames(m.delivered + [d], size) == m.s.received + Frame(d, size)
            && m.delivered + [d] <= m.posted
  {
    var d := m.posted[|m.delivered|];
    assert d in m.posted;
    FramesAppend(m.delivered, d, size);
    assert m.delivered + [d] == m.posted[..|m.delivered| + 1];
  }

  lemma DeliveredFrame(m: Mail, size: nat)
    requires MailSound(m, size) && Allowed(m, PublishTail, size)
    ensures MailSound(Next(m, PublishTail, size), size)
  {
    StepSound(m.s, PublishTail);
    RingHoldsTheRest(m, size);
    Undelivered(m, size);
    assert m.s.reader.got == m.s.ring.Contents()[..|m.s.reader.got|];
    TakesFirstFrame(m.posted[|m.delivered|..], m.s.reader.available, m.s.reader.got, size);
  }

  lemma StepMailSound(m: Mail, e: Step, size: nat)
    requires MailSound(m, size) && Allowed(m, e, size)
    ensures MailSound(Next(m, e, size), size)
  {
    match e
    case PublishHead => PostedFrame(m, size);
    case PublishTail => DeliveredFrame(m, size);
    case LoadHead => LoadHeadSeesFrame(m, size);
    case _ => StepSound(m.s, e);
  }

  // ----- whole runs

  ghost predicate IsMailRun(m: Mail, run: seq<Step>, size: nat)
    decreases |run|
  {
    run == [] || (Allowed(m, run[0], size) && IsMailRun(Next(m, run[0], size), run[1..], size))
  }

  ghost function MailOutcome(m: Mail, run: seq<Step>, size: nat): Mail
    requires IsMailRun(m, run, size)
    decreases |run|
  {
    if run == [] then m else MailOutcome(Next(m, run[0], size), run[1..], size)
  }

  lemma {:induction false} MailRunSound(m: Mail, run: seq<Step>, size: nat)
    requires MailSound(m, size) && IsMailRun(m, run, size)
    ensures MailSound(MailOutcome(m, run, size), size)
    decreases |run|
  {
    if run != [] {
      StepMailSound(m, run[0], size);
      MailRunSound(Next(m, run[0], size), run[1..], size);
    }
  }

  /** Under every interleaving the messages delivered are a prefix of the messages posted,
      each of them whole. */
  lemma DeliveredArePrefixOfPosted(bytes: seq<Byte>, run: seq<Step>, size: nat)
    requires bytes != [] && size > 0 && IsMailRun(Mail(Fresh(bytes), [], []), run, size)
    ensures var m := MailOutcome(Mail(Fresh(bytes), [], []), run, size);
            && m.delivered <= m.posted && (forall d :: d in m.posted ==> Storable(d, size))
            && m.s.sent == Frames(m.posted, size) && m.s.received == Frames(m.delivered, size)
  {
    assert Fresh(bytes).ring.Contents() == [];
    MailRunSound(Mail(Fresh(bytes), [], []), run, size);
  }
}
