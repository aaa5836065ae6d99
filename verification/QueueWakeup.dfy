/** Blocking on a queue (queue.c): tasks and interrupts send, receive and peek, a task about
    to block locks the queue so that interrupts only count what they did, and unlocking
    replays the counts on the wait lists.  Each step below is one critical section. */
module WakeupProtocol {
  import opened ListView

  type Id = nat

  const UNLOCKED: int := -1
  const INT8_MAX: int := 127

  /** Where the task that has locked the queue is: it has locked it, has seen the queue empty
      (or full) and is about to join a wait list, is about to unlock it, or has unlocked the
      transmit side only. */
  datatype Phase = Idle | Locked(t: Id) | Blocking(t: Id, receiving: bool) | Leaving(t: Id) | HalfUnlocked(t: Id)

  /** `wokenReceivers` were taken off the receive list and have not retried yet.  `posts` is
      what the transmit lock count would be without its cap.  The same for senders. */
  datatype State = State(
    tasks: set<Id>, length: nat, waiting: nat,
    receivers: seq<Id>, senders: seq<Id>, wokenReceivers: set<Id>, wokenSenders: set<Id>,
    txLock: int, rxLock: int, posts: nat, takes: nat, phase: Phase)
  {
    predicate Listed(t: Id) { t in receivers || t in senders }

    predicate Running(t: Id) {
      t in tasks && !Listed(t)
    }
  }

  function Min(a: nat, b: nat): nat { if a < b then a else b }

  /** prvIncrementQueueTxLock and prvIncrementQueueRxLock. */
  function Counted(lock: int, numberOfTasks: nat): int {
    if lock < numberOfTasks then lock + 1 else lock
  }

  function WakeReceiver(s: State): State {
    if s.receivers == [] then s
    else s.(receivers := s.receivers[1..], wokenReceivers := s.wokenReceivers + {s.receivers[0]})
  }

  function WakeSender(s: State): State {
    if s.senders == [] then s
    else s.(senders := s.senders[1..], wokenSenders := s.wokenSenders + {s.senders[0]})
  }

  /** k turns of the transmit loop of prvUnlockQueue. */
  function WakeReceivers(s: State, k: nat): State
    decreases k
  {
    if k == 0 || s.receivers == [] then s else WakeReceivers(WakeReceiver(s), k - 1)
  }

  function WakeSenders(s: State, k: nat): State
    decreases k
  {
    if k == 0 || s.senders == [] then s else WakeSenders(WakeSender(s), k - 1)
  }

  datatype Step =
    | Send(t: Id, overwrite: bool) | Receive(t: Id) | Peek(t: Id)
    | IsrSend(overwrite: bool) | IsrReceive
    | Lock(t: Id) | CheckEmpty | CheckFull | Expire | Place(at: nat) | UnlockTx | UnlockRx
    | Timeout(t: Id)

  predicate HasRoom(s: State, overwrite: bool) { s.waiting < s.length || overwrite }

  function Posted(s: State): State { s.(waiting := if s.waiting < s.length then s.waiting + 1 else s.waiting) }

  /** Tasks run only while nobody has the queue locked, because a locker has suspended the
      scheduler.  A woken task goes back to the operation it was blocked in.  Overwriting is
      for queues of length one. */
  predicate Enabled(s: State, e: Step) {
    match e
    case Send(t, overwrite) => s.phase == Idle && s.Running(t) && t !in s.wokenReceivers
        && (overwrite ==> s.length == 1)
    case Receive(t) => s.phase == Idle && s.Running(t) && t !in s.wokenSenders
    case Peek(t) => s.phase == Idle && s.Running(t) && t !in s.wokenSenders
    case IsrSend(overwrite) => overwrite ==> s.length == 1
    case IsrReceive => true
    case Lock(t) => s.phase == Idle && s.Running(t) && t !in s.wokenReceivers && t !in s.wokenSenders
    case CheckEmpty => s.phase.Locked?
    case CheckFull => s.phase.Locked?
    case Expire => s.phase.Locked?
    case Place(at) => s.phase.Blocking? && at <= |if s.phase.receiving then s.receivers else s.senders|
    case UnlockTx => s.phase.Leaving?
    case UnlockRx => s.phase.HalfUnlocked?
    case Timeout(t) => s.Listed(t)
  }

  function After(s: State, e: Step): State
    requires Enabled(s, e)
  {
    match e
    case Send(t, overwrite) =>
      var r := s.(wokenSenders := s.wokenSenders - {t});
      if HasRoom(s, overwrite) then WakeReceiver(Posted(r)) else r
    case Receive(t) =>
      var r := s.(wokenReceivers := s.wokenReceivers - {t});
      if s.waiting > 0 then WakeSender(r.(waiting := s.waiting - 1)) else r
    case Peek(t) =>
      var r := s.(wokenReceivers := s.wokenReceivers - {t});
      if s.waiting > 0 then WakeReceiver(r) else r
    case IsrSend(overwrite) =>
      if !HasRoom(s, overwrite) then s
      else if s.txLock == UNLOCKED then WakeReceiver(Posted(s))
      else Posted(s).(txLock := Counted(s.txLock, |s.tasks|), posts := s.posts + 1)
    case IsrReceive =>
      if s.waiting == 0 then s
      else if s.rxLock == UNLOCKED then WakeSender(s.(waiting := s.waiting - 1))
      else s.(waiting := s.waiting - 1, rxLock := Counted(s.rxLock, |s.tasks|), takes := s.takes + 1)
    case Lock(t) =>
      s.(phase := Locked(t), txLock := if s.txLock == UNLOCKED then 0 else s.txLock,
         rxLock := if s.rxLock == UNLOCKED then 0 else s.rxLock)
    case CheckEmpty => s.(phase := if s.waiting == 0 then Blocking(s.phase.t, true) else Leaving(s.phase.t))
    case CheckFull => s.(phase := if s.waiting == s.length then Blocking(s.phase.t, false) else Leaving(s.phase.t))
    case Expire => s.(phase := Leaving(s.phase.t))
    case Place(at) =>
      if s.phase.receiving then s.(receivers := InsertedAt(s.receivers, at, s.phase.t), phase := Leaving(s.phase.t))
      else s.(senders := InsertedAt(s.senders, at, s.phase.t), phase := Leaving(s.phase.t))
    case UnlockTx =>
      var counted := if s.txLock > 0 then s.txLock else 0;
      WakeReceivers(s, counted).(txLock := UNLOCKED, posts := 0, phase := HalfUnlocked(s.phase.t))
    case UnlockRx =>
      WakeSenders(s, if s.rxLock > 0 then s.rxLock else 0).(rxLock := UNLOCKED, takes := 0, phase := Idle)
    case Timeout(t) =>
      if t in s.receivers then s.(receivers := Removed(s.receivers, IndexOf(s.receivers, t)))
      else s.(senders := Removed(s.senders, IndexOf(s.senders, t)))
  }

  // ----- the invariant

  predicate Members(list: seq<Id>, tasks: set<Id>) {
    Distinct(list) && forall t :: t in list ==> t in tasks
  }

  /** Each task is on at most one list or in one set of woken tasks. */
  ghost predicate Separate(s: State) {
    && Members(s.receivers, s.tasks) && Members(s.senders, s.tasks)
    && s.wokenReceivers <= s.tasks && s.wokenSenders <= s.tasks && s.wokenReceivers !! s.wokenSenders
    && (forall t :: t in s.receivers ==> t !in s.senders && t !in s.wokenReceivers && t !in s.wokenSenders)
    && (forall t :: t in s.senders ==> t !in s.wokenReceivers && t !in s.wokenSenders)
    && (s.phase.Locked? || s.phase.Blocking? ==>
          s.Running(s.phase.t) && s.phase.t !in s.wokenReceivers && s.phase.t !in s.wokenSenders)
  }

  /** A lock count is the number of events while locked, capped at the number of tasks. */
  predicate LocksCount(s: State) {
    && (match s.phase
        case Idle => s.txLock == UNLOCKED && s.rxLock == UNLOCKED && s.posts == 0 && s.takes == 0
        case HalfUnlocked(_) => s.txLock == UNLOCKED && s.posts == 0 && s.rxLock == Min(s.takes, |s.tasks|)
        case _ => s.txLock == Min(s.posts, |s.tasks|) && s.rxLock == Min(s.takes, |s.tasks|))
  }

  /** No wake-up is owed to anyone on a wait list: every message is spoken for by a woken
      receiver or by a post still to be replayed, and every free slot likewise. */
  predicate NoneLost(s: State) {
    && (s.receivers != [] || (s.phase.Blocking? && s.phase.receiving) ==>
          s.waiting <= |s.wokenReceivers| + s.posts)
    && (s.senders != [] || (s.phase.Blocking? && !s.phase.receiving) ==>
          s.length - s.waiting <= |s.wokenSenders| + s.takes)
  }

  ghost predicate Sound(s: State) {
    s.length >= 1 && s.waiting <= s.length && Separate(s) && LocksCount(s) && NoneLost(s)
  }

  // ----- waking from the lists

  /** What waking one receiver does. */
  lemma WakeReceiverFacts(s: State)
    requires Separate(s)
    ensures Separate(WakeReceiver(s))
    ensures s.receivers != [] ==> |WakeReceiver(s).wokenReceivers| == |s.wokenReceivers| + 1
  {
    if s.receivers != [] { HeadLeaves(s.receivers); }
  }

  lemma WakeSenderFacts(s: State)
    requires Separate(s)
    ensures Separate(WakeSender(s))
    ensures s.senders != [] ==> |WakeSender(s).wokenSenders| == |s.wokenSenders| + 1
  {
    if s.senders != [] { HeadLeaves(s.senders); }
  }

  lemma HeadLeaves(list: seq<Id>)
    requires list != [] && Distinct(list)
    ensures Distinct(list[1..]) && list[0] in list && list[0] !in list[1..]
    ensures forall t :: t in list <==> t in list[1..] || t == list[0]
  {
  }

  /** k turns of the loop wake k receivers, or all of them. */
  lemma {:induction false} WakeReceiversFacts(s: State, k: nat)
    requires Separate(s)
    ensures var r := WakeReceivers(s, k);
            && Separate(r) && r == s.(receivers := r.receivers, wokenReceivers := r.wokenReceivers)
            && |r.receivers| == |s.receivers| - Min(k, |s.receivers|)
            && |r.wokenReceivers| == |s.wokenReceivers| + Min(k, |s.receivers|)
    decreases k
  {
    if k > 0 && s.receivers != [] {
      WakeReceiverFacts(s);
      WakeReceiversFacts(WakeReceiver(s), k - 1);
    }
  }

  lemma {:induction false} WakeSendersFacts(s: State, k: nat)
    requires Separate(s)
    ensures var r := WakeSenders(s, k);
            && Separate(r) && r == s.(senders := r.senders, wokenSenders := r.wokenSenders)
            && |r.senders| == |s.senders| - Min(k, |s.senders|)
            && |r.wokenSenders| == |s.wokenSenders| + Min(k, |s.senders|)
    decreases k
  {
    if k > 0 && s.senders != [] {
      WakeSenderFacts(s);
      WakeSendersFacts(WakeSender(s), k - 1);
    }
  }

  /** A list of distinct tasks is no longer than there are tasks. */
  lemma {:induction false} ListFits(list: seq<Id>, tasks: set<Id>)
    requires Members(list, tasks)
    ensures |list| <= |tasks|
    decreases |list|
  {
    if list != [] {
      HeadLeaves(list);
      ListFits(list[1..], tasks - {list[0]});
    }
  }

  lemma {:induction false} WakeNoMoreThanListed(s: State, k: nat, m: nat)
    requires |s.receivers| <= k && |s.receivers| <= m
    ensures WakeReceivers(s, k) == WakeReceivers(s, m)
    decreases k
  {
    if k > 0 && m > 0 && s.receivers != [] { WakeNoMoreThanListed(WakeReceiver(s), k - 1, m - 1); }
  }

  /** Replaying the capped count wakes the very tasks that replaying every post would. */
  lemma CapWakesTheSame(s: State, posts: nat)
    requires Separate(s)
    ensures WakeReceivers(s, Min(posts, |s.tasks|)) == WakeReceivers(s, posts)
  {
    ListFits(s.receivers, s.tasks);
    if posts > |s.tasks| { WakeNoMoreThanListed(s, |s.tasks|, posts); }
  }

  // ----- every step keeps the invariant

  lemma TaskSendSound(s: State, t: Id, overwrite: bool)
    requires Sound(s) && Enabled(s, Send(t, overwrite))
    ensures Sound(After(s, Send(t, overwrite)))
  {
    var r := s.(wokenSenders := s.wokenSenders - {t});
    assert |r.wokenSenders| + 1 >= |s.wokenSenders|;
    WakeReceiverFacts(Posted(r));
  }

  lemma TaskReceiveSound(s: State, t: Id)
    requires Sound(s) && Enabled(s, Receive(t))
    ensures Sound(After(s, Receive(t)))
  {
    var r := s.(wokenReceivers := s.wokenReceivers - {t});
    assert |r.wokenReceivers| + 1 >= |s.wokenReceivers|;
    if s.waiting > 0 { WakeSenderFacts(r.(waiting := s.waiting - 1)); }
  }

  /** A peeking task leaves its message behind and passes the wake-up on. */
  lemma TaskPeekSound(s: State, t: Id)
    requires Sound(s) && Enabled(s, Peek(t))
    ensures Sound(After(s, Peek(t)))
  {
    var r := s.(wokenReceivers := s.wokenReceivers - {t});
    assert |r.wokenReceivers| + 1 >= |s.wokenReceivers|;
    WakeReceiverFacts(r);
  }

  lemma IsrSendSound(s: State, overwrite: bool)
    requires Sound(s) && Enabled(s, IsrSend(overwrite))
    ensures Sound(After(s, IsrSend(overwrite)))
  {
    if HasRoom(s, overwrite) {
      if s.txLock == UNLOCKED { PostedAndWoken(s); } else { PostedUnderLock(s); }
    }
  }

  /** A message has come, and it is not owed to anyone who still waits. */
  lemma PostedAndWoken(s: State)
    requires Sound(s) && s.txLock == UNLOCKED
    ensures Sound(WakeReceiver(Posted(s)))
  {
    WakeReceiverFacts(Posted(s));
  }

  /** A message has come and is counted. */
  lemma PostedUnderLock(s: State)
    requires Sound(s) && s.txLock != UNLOCKED
    ensures Sound(Posted(s).(txLock := Counted(s.txLock, |s.tasks|), posts := s.posts + 1))
  {
  }

  lemma IsrReceiveSound(s: State)
    requires Sound(s)
    ensures Sound(After(s, IsrReceive))
  {
    if s.waiting > 0 { WakeSenderFacts(s.(waiting := s.waiting - 1)); }
  }

  lemma PlaceSound(s: State, at: nat)
    requires Sound(s) && Enabled(s, Place(at))
    ensures Sound(After(s, Place(at)))
  {
    InsertedFacts(if s.phase.receiving then s.receivers else s.senders, at, s.phase.t);
  }

  lemma UnlockTxSound(s: State)
    requires Sound(s) && Enabled(s, UnlockTx)
    ensures Sound(After(s, UnlockTx))
  {
    ListFits(s.receivers, s.tasks);
    WakeReceiversFacts(s, s.txLock);
  }

  lemma UnlockRxSound(s: State)
    requires Sound(s) && Enabled(s, UnlockRx)
    ensures Sound(After(s, UnlockRx))
  {
    ListFits(s.senders, s.tasks);
    WakeSendersFacts(s, s.rxLock);
  }

  /** Unlocking after the replay completes the step. */
  lemma UnlockedTx(s: State, w: State)
    requires Sound(s) && s.phase.Leaving? && w == WakeReceivers(s, if s.txLock > 0 then s.txLock else 0)
    ensures w.phase == s.phase
    ensures var r := w.(txLock := UNLOCKED, posts := 0, phase := HalfUnlocked(s.phase.t));
            Sound(r) && r == After(s, UnlockTx)
  {
    WakeReceiversFacts(s, if s.txLock > 0 then s.txLock else 0);
    UnlockTxSound(s);
  }

  lemma UnlockedRx(s: State, w: State)
    requires Sound(s) && s.phase.HalfUnlocked? && w == WakeSenders(s, if s.rxLock > 0 then s.rxLock else 0)
    ensures w.phase == s.phase
    ensures var r := w.(rxLock := UNLOCKED, takes := 0, phase := Idle); Sound(r) && r == After(s, UnlockRx)
  {
    WakeSendersFacts(s, if s.rxLock > 0 then s.rxLock else 0);
    UnlockRxSound(s);
  }

  lemma TimeoutSound(s: State, t: Id)
    requires Sound(s) && Enabled(s, Timeout(t))
    ensures Sound(After(s, Timeout(t)))
  {
    var list := if t in s.receivers then s.receivers else s.senders;
    RemovedFacts(list, IndexOf(list, t));
  }

  lemma StepSound(s: State, e: Step)
    requires Sound(s) && Enabled(s, e)
    ensures Sound(After(s, e))
  {
    match e
    case Send(t, overwrite) => TaskSendSound(s, t, overwrite);
    case Receive(t) => TaskReceiveSound(s, t);
    case Peek(t) => TaskPeekSound(s, t);
    case IsrSend(overwrite) => IsrSendSound(s, overwrite);
    case IsrReceive => IsrReceiveSound(s);
    case Place(at) => PlaceSound(s, at);
    case UnlockTx => UnlockTxSound(s);
    case UnlockRx => UnlockRxSound(s);
    case Timeout(t) => TimeoutSound(s, t);
    case _ =>
  }

  // ----- whole runs

  function Fresh(tasks: set<Id>, length: nat): State {
    State(tasks, length, 0, [], [], {}, {}, UNLOCKED, UNLOCKED, 0, 0, Idle)
  }

  ghost predicate IsRun(s: State, run: seq<Step>)
    decreases |run|
  {
    run == [] || (Enabled(s, run[0]) && IsRun(After(s, run[0]), run[1..]))
  }

  function Outcome(s: State, run: seq<Step>): State
    requires IsRun(s, run)
    decreases |run|
  {
    if run == [] then s else Outcome(After(s, run[0]), run[1..])
  }

  lemma {:induction false} RunSound(s: State, run: seq<Step>)
    requires Sound(s) && IsRun(s, run)
    ensures Sound(Outcome(s, run)) && Outcome(s, run).length == s.length && Outcome(s, run).tasks == s.tasks
    decreases |run|
  {
    if run != [] {
      StepSound(s, run[0]);
      StepKeepsShape(s, run[0]);
      RunSound(After(s, run[0]), run[1..]);
    }
  }

  /** In every run, whoever is still on a wait list is owed nothing: messages do not outnumber
      the receivers woken and still to retry plus the posts made while locked, and free slots
      likewise.  In every phase a lock count is the number of events while locked, capped at
      the number of tasks. */
  lemma NoWakeUpLost(tasks: set<Id>, length: nat, run: seq<Step>)
    requires length >= 1 && IsRun(Fresh(tasks, length), run)
    ensures var s := Outcome(Fresh(tasks, length), run);
            && s.waiting <= length
            && (s.receivers != [] ==> s.waiting <= |s.wokenReceivers| + s.posts)
            && (s.senders != [] ==> length - s.waiting <= |s.wokenSenders| + s.takes)
            && s.tasks == tasks && LocksCount(s)
  {
    RunSound(Fresh(tasks, length), run);
  }

  /** Whatever the tasks and interrupts did, once the queue is unlocked and every woken task
      has retried: nobody waits to receive beside a message, nobody waits to send beside a
      free slot, and so the two wait lists are never both in use. */
  lemma QuietQueueKeepsNobodyWaiting(tasks: set<Id>, length: nat, run: seq<Step>)
    requires length >= 1 && IsRun(Fresh(tasks, length), run)
    ensures var s := Outcome(Fresh(tasks, length), run);
            s.phase == Idle ==>
              && (s.receivers != [] && s.wokenReceivers == {} ==> s.waiting == 0)
              && (s.senders != [] && s.wokenSenders == {} ==> s.waiting == length)
              && (s.wokenReceivers == {} && s.wokenSenders == {} ==> s.receivers == [] || s.senders == [])
  {
    NoWakeUpLost(tasks, length, run);
  }

  lemma StepKeepsShape(s: State, e: Step)
    requires Sound(s) && Enabled(s, e)
    ensures After(s, e).length == s.length && After(s, e).tasks == s.tasks
  {
    match e
    case UnlockTx => WakeReceiversFacts(s, if s.txLock > 0 then s.txLock else 0);
    case UnlockRx => WakeSendersFacts(s, if s.rxLock > 0 then s.rxLock else 0);
    case _ =>
  }

  // ----- messages are conserved

  /** A queue as its users see it: how many messages it holds, and how many have ever been put
      in, taken out, and replaced by overwriting. */
  datatype Tally = Tally(held: nat, sent: nat, received: nat, replaced: nat)

  /** One more step, told from the count alone: a send adds a message if there is room, a
      receive takes one if there is one, whoever makes it and whether or not the queue is
      locked; nothing else touches the messages. */
  function Counting(length: nat, n: Tally, e: Step): (r: Tally)
    requires n.held <= length
    ensures r.held <= length && r.held + r.received + n.sent == n.held + n.received + r.sent
  {
    if e.Send? || e.IsrSend? then
      if n.held < length then n.(held := n.held + 1, sent := n.sent + 1)
      else if e.overwrite then n.(replaced := n.replaced + 1) else n
    else if e.Receive? || e.IsrReceive? then
      if n.held > 0 then n.(held := n.held - 1, received := n.received + 1) else n
    else n
  }

  /** Read off the history alone: what is held is what was there and has been sent, less what
      has been received. */
  function Tallied(length: nat, n: Tally, run: seq<Step>): (r: Tally)
    requires n.held <= length
    ensures r.held <= length && r.held + r.received + n.sent == n.held + n.received + r.sent
    decreases |run|
  {
    if run == [] then n else Tallied(length, Counting(length, n, run[0]), run[1..])
  }

  lemma StepCounts(s: State, e: Step)
    requires Sound(s) && Enabled(s, e)
    ensures forall n: Tally :: n.held == s.waiting ==> After(s, e).waiting == Counting(s.length, n, e).held
  {
    match e
    case UnlockTx => WakeReceiversFacts(s, if s.txLock > 0 then s.txLock else 0);
    case UnlockRx => WakeSendersFacts(s, if s.rxLock > 0 then s.rxLock else 0);
    case _ =>
  }

  /** In every run the messages waiting are those the history accounts for: no receive leaves
      its message behind, and no message gets lost or is made up. */
  lemma {:induction false} MessagesConserved(s: State, run: seq<Step>, n: Tally)
    requires Sound(s) && IsRun(s, run) && n.held == s.waiting
    ensures Outcome(s, run).waiting == Tallied(s.length, n, run).held
    ensures var r := Tallied(s.length, n, run);
            Outcome(s, run).waiting == s.waiting + (r.sent - n.sent) - (r.received - n.received)
    decreases |run|
  {
    if run != [] {
      StepSound(s, run[0]);
      StepKeepsShape(s, run[0]);
      StepCounts(s, run[0]);
      MessagesConserved(After(s, run[0]), run[1..], Counting(s.length, n, run[0]));
    }
  }

  // ----- who is woken, and in which order

  /** The task that goes back to the receive or peek it was blocked in; and to the send. */
  function Retrying(e: Step): set<Id> {
    if e.Receive? || e.Peek? then {e.t} else {}
  }

  function RetryingSend(e: Step): set<Id> {
    if e.Send? then {e.t} else {}
  }

  /** The first n of a list, and the list without them. */
  function First(list: seq<Id>, n: nat): set<Id> {
    set i | 0 <= i < n && i < |list| :: list[i]
  }

  function Rest(list: seq<Id>, n: nat): seq<Id> {
    if n < |list| then list[n..] else []
  }

  lemma FirstAndRest(list: seq<Id>)
    ensures First(list, 0) == {} && Rest(list, 0) == list
    ensures list == [] ==> First(list, 1) == {} && Rest(list, 1) == []
    ensures list != [] ==> First(list, 1) == {list[0]} && Rest(list, 1) == list[1..]
  {
  }

  lemma OneThenMore(list: seq<Id>, n: nat)
    requires n > 0 && list != []
    ensures First(list, n) == {list[0]} + First(list[1..], n - 1) && Rest(list, n) == Rest(list[1..], n - 1)
  {
    forall t | t in First(list, n) ensures t in {list[0]} + First(list[1..], n - 1) {
      var i :| 0 <= i < n && i < |list| && list[i] == t;
      if i > 0 { assert list[1..][i - 1] == t; }
    }
    forall t | t in First(list[1..], n - 1) ensures t in First(list, n) {
      var i :| 0 <= i < n - 1 && i < |list[1..]| && list[1..][i] == t;
      assert list[i + 1] == t;
    }
  }

  lemma BeyondTheEnd(list: seq<Id>, n: nat, m: nat)
    requires |list| <= n && |list| <= m
    ensures First(list, n) == First(list, m) && Rest(list, n) == Rest(list, m)
  {
  }

  /** How many receivers a step has a message for: one for a send that succeeds or a peek that
      passes its message on, and as many as were posted while the queue was locked when it is
      unlocked. */
  function ReceiversDue(s: State, e: Step): nat {
    match e
    case Send(_, overwrite) => if s.waiting < s.length || overwrite then 1 else 0
    case IsrSend(overwrite) => if (s.waiting < s.length || overwrite) && s.txLock == UNLOCKED then 1 else 0
    case Peek(_) => if s.waiting > 0 then 1 else 0
    case UnlockTx => s.posts
    case _ => 0
  }

  function SendersDue(s: State, e: Step): nat {
    match e
    case Receive(_) => if s.waiting > 0 then 1 else 0
    case IsrReceive => if s.waiting > 0 && s.rxLock == UNLOCKED then 1 else 0
    case UnlockRx => s.takes
    case _ => 0
  }

  lemma {:induction false} FirstReceiversWoken(s: State, k: nat)
    ensures WakeReceivers(s, k) == s.(receivers := Rest(s.receivers, k),
                                      wokenReceivers := s.wokenReceivers + First(s.receivers, k))
    decreases k
  {
    FirstAndRest(s.receivers);
    if k > 0 && s.receivers != [] {
      OneThenMore(s.receivers, k);
      FirstReceiversWoken(WakeReceiver(s), k - 1);
      assert s.wokenReceivers + {s.receivers[0]} + First(s.receivers[1..], k - 1)
          == s.wokenReceivers + First(s.receivers, k);
    } else {
      assert s.wokenReceivers + First(s.receivers, k) == s.wokenReceivers && Rest(s.receivers, k) == s.receivers;
    }
  }

  lemma {:induction false} FirstSendersWoken(s: State, k: nat)
    ensures WakeSenders(s, k) == s.(senders := Rest(s.senders, k), wokenSenders := s.wokenSenders + First(s.senders, k))
    decreases k
  {
    FirstAndRest(s.senders);
    if k > 0 && s.senders != [] {
      OneThenMore(s.senders, k);
      FirstSendersWoken(WakeSender(s), k - 1);
      assert s.wokenSenders + {s.senders[0]} + First(s.senders[1..], k - 1) == s.wokenSenders + First(s.senders, k);
    } else {
      assert s.wokenSenders + First(s.senders, k) == s.wokenSenders && Rest(s.senders, k) == s.senders;
    }
  }

  lemma CapIsEnough(list: seq<Id>, tasks: set<Id>, n: nat)
    requires Members(list, tasks)
    ensures First(list, Min(n, |tasks|)) == First(list, n) && Rest(list, Min(n, |tasks|)) == Rest(list, n)
  {
    ListFits(list, tasks);
    if n > |tasks| { BeyondTheEnd(list, n, |tasks|); }
  }

  lemma WithNothing(woken: set<Id>)
    ensures woken - {} == woken && woken + {} == woken
  {
  }

  /** Each step wakes exactly the receivers it has a message for, those first in line, and
      leaves the rest in order; only joining the list and a timeout do otherwise. */
  lemma ReceiversServedInOrder(s: State, e: Step)
    requires Sound(s) && Enabled(s, e) && !e.Place? && !e.Timeout?
    ensures var r, due := After(s, e), ReceiversDue(s, e);
            && r.receivers == Rest(s.receivers, due)
            && r.wokenReceivers == s.wokenReceivers - Retrying(e) + First(s.receivers, due)
  {
    FirstAndRest(s.receivers);
    WithNothing(s.wokenReceivers);
    WithNothing(s.wokenReceivers - Retrying(e));
    match e
    case UnlockTx =>
      CapIsEnough(s.receivers, s.tasks, s.posts);
      FirstReceiversWoken(s, s.txLock);
    case UnlockRx => FirstSendersWoken(s, if s.rxLock > 0 then s.rxLock else 0);
    case _ =>
  }

  /** The same for senders and free slots. */
  lemma SendersServedInOrder(s: State, e: Step)
    requires Sound(s) && Enabled(s, e) && !e.Place? && !e.Timeout?
    ensures var r, due := After(s, e), SendersDue(s, e);
            && r.senders == Rest(s.senders, due)
            && r.wokenSenders == s.wokenSenders - RetryingSend(e) + First(s.senders, due)
  {
    FirstAndRest(s.senders);
    WithNothing(s.wokenSenders);
    WithNothing(s.wokenSenders - RetryingSend(e));
    match e
    case UnlockTx => FirstReceiversWoken(s, if s.txLock > 0 then s.txLock else 0);
    case UnlockRx =>
      CapIsEnough(s.senders, s.tasks, s.takes);
      FirstSendersWoken(s, s.rxLock);
    case _ =>
  }

  /** Joining a list changes only that list, by one task at the given place. */
  lemma Joins(s: State, at: nat)
    requires Sound(s) && Enabled(s, Place(at))
    ensures var r, t := After(s, Place(at)), s.phase.t;
            && r == s.(receivers := r.receivers, senders := r.senders, phase := Leaving(t))
            && if s.phase.receiving
               then r.senders == s.senders && r.receivers == s.receivers[..at] + [t] + s.receivers[at..]
               else r.receivers == s.receivers && r.senders == s.senders[..at] + [t] + s.senders[at..]
  {
  }

  /** A task whose block time ends leaves the list it is on, which keeps its order. */
  lemma TimesOut(s: State, t: Id)
    requires Sound(s) && Enabled(s, Timeout(t))
    ensures var r := After(s, Timeout(t));
            && r == s.(receivers := r.receivers, senders := r.senders) && !r.Listed(t)
            && if t in s.receivers then r.senders == s.senders && LeftList(s.receivers, t, r.receivers)
               else r.receivers == s.receivers && LeftList(s.senders, t, r.senders)
  {
    if t in s.receivers { LeavesList(s.receivers, t); } else { LeavesList(s.senders, t); }
  }

  lemma LeavesList(list: seq<Id>, t: Id)
    requires Distinct(list) && t in list
    ensures LeftList(list, t, Removed(list, IndexOf(list, t))) && t !in Removed(list, IndexOf(list, t))
  {
    RemovedFacts(list, IndexOf(list, t));
    assert list[IndexOf(list, t)] == t;
  }

  /** t is gone from a list whose order is otherwise kept. */
  predicate LeftList(list: seq<Id>, t: Id, after: seq<Id>) {
    exists k: nat :: k < |list| && list[k] == t && after == list[..k] + list[k + 1..]
  }

  /** A task that has the queue locked goes on to block exactly if the queue is empty, or full
      for a sender; otherwise it leaves, as it does when its block time has ended. */
  lemma BlocksIffItMust(s: State, e: Step)
    requires Sound(s) && Enabled(s, e)
    ensures e == CheckEmpty ==>
              After(s, e).phase == if s.waiting == 0 then Blocking(s.phase.t, true) else Leaving(s.phase.t)
    ensures e == CheckFull ==>
              After(s, e).phase == if s.waiting == s.length then Blocking(s.phase.t, false) else Leaving(s.phase.t)
    ensures e == Expire ==> After(s, e).phase == Leaving(s.phase.t)
    ensures e.Lock? ==> After(s, e) == s.(phase := Locked(e.t), txLock := 0, rxLock := 0)
    ensures e.Place? ==> After(s, e).phase == Leaving(s.phase.t)
    ensures e == UnlockTx ==> After(s, e).phase == HalfUnlocked(s.phase.t)
    ensures e == UnlockRx ==> After(s, e).phase == Idle
  {
    match e
    case UnlockTx => WakeReceiversFacts(s, if s.txLock > 0 then s.txLock else 0);
    case UnlockRx => WakeSendersFacts(s, if s.rxLock > 0 then s.rxLock else 0);
    case _ =>
  }

  // ----- resetting a queue

  /** xQueueGenericReset of a queue in use. */
  function AfterReset(s: State): State {
    WakeSender(s.(waiting := 0, txLock := UNLOCKED, rxLock := UNLOCKED))
  }

  /** A reset frees every slot but wakes one sender, so it is outside the protocol: senders
      are left waiting beside free slots unless at most one was waiting, or those already
      woken can fill the queue. */
  lemma ResetKeepsWakeUpsIff(s: State)
    requires Sound(s) && s.phase == Idle
    ensures Sound(AfterReset(s)) <==> |s.senders| <= 1 || s.length <= |s.wokenSenders| + 1
  {
    WakeSenderFacts(s.(waiting := 0));
  }

  // ----- the lock counts fit their type

  /** configASSERT in the two increment macros. */
  predicate CountAssertHolds(lock: int, numberOfTasks: nat) {
    lock < numberOfTasks ==> lock != INT8_MAX
  }

  /** A step of an interrupt that finds the queue locked counts what it did. */
  predicate StepAssertHolds(s: State, e: Step) {
    match e
    case IsrSend(overwrite) =>
      HasRoom(s, overwrite) && s.txLock != UNLOCKED ==> CountAssertHolds(s.txLock, |s.tasks|)
    case IsrReceive => s.waiting > 0 && s.rxLock != UNLOCKED ==> CountAssertHolds(s.rxLock, |s.tasks|)
    case _ => true
  }

  ghost predicate RunAssertsHold(s: State, run: seq<Step>)
    requires IsRun(s, run)
    decreases |run|
  {
    run == [] || (StepAssertHolds(s, run[0]) && RunAssertsHold(After(s, run[0]), run[1..]))
  }

  lemma {:induction false} FewTasksFit(s: State, run: seq<Step>)
    requires Sound(s) && IsRun(s, run) && |s.tasks| <= INT8_MAX
    ensures RunAssertsHold(s, run)
    decreases |run|
  {
    if run != [] {
      StepSound(s, run[0]);
      StepKeepsShape(s, run[0]);
      FewTasksFit(After(s, run[0]), run[1..]);
    }
  }

  /** An interrupt sends and another receives, k times, and then one sends. */
  function Burst(k: nat): seq<Step> {
    [IsrSend(false)] + if k == 0 then [] else [IsrReceive] + Burst(k - 1)
  }

  lemma {:induction false} BurstOverflows(s: State, k: nat)
    requires s.length >= 1 && s.waiting == 0 && |s.tasks| > INT8_MAX
    requires k <= INT8_MAX && s.txLock == INT8_MAX - k && s.rxLock >= 0
    ensures IsRun(s, Burst(k)) && !RunAssertsHold(s, Burst(k))
    decreases k
  {
    if k > 0 {
      var m := After(s, IsrSend(false));
      BurstOverflows(After(m, IsrReceive), k - 1);
      assert Burst(k)[1..] == [IsrReceive] + Burst(k - 1) && Burst(k)[1..][1..] == Burst(k - 1);
      assert IsRun(m, Burst(k)[1..]) && !RunAssertsHold(m, Burst(k)[1..]);
    }
  }

  /** With 128 tasks or more, a task that locks the queue and 127 sends and receives of
      interrupts before it goes on make the next send fail the assertion. */
  lemma ManyTasksOverflow(tasks: set<Id>, length: nat, t: Id)
    requires length >= 1 && |tasks| > INT8_MAX && t in tasks
    ensures IsRun(Fresh(tasks, length), [Lock(t)] + Burst(INT8_MAX))
    ensures !RunAssertsHold(Fresh(tasks, length), [Lock(t)] + Burst(INT8_MAX))
  {
    BurstOverflows(After(Fresh(tasks, length), Lock(t)), INT8_MAX);
    assert ([Lock(t)] + Burst(INT8_MAX))[1..] == Burst(INT8_MAX);
  }

  /** In every run the assertion holds at every count exactly when there are at most 127
      tasks. */
  lemma CountAssertHoldsIff(tasks: set<Id>, length: nat)
    requires length >= 1
    ensures (forall run :: IsRun(Fresh(tasks, length), run) ==> RunAssertsHold(Fresh(tasks, length), run))
            <==> |tasks| <= INT8_MAX
  {
    var s := Fresh(tasks, length);
    if |tasks| <= INT8_MAX {
      forall run | IsRun(s, run) ensures RunAssertsHold(s, run) { FewTasksFit(s, run); }
    } else {
      var t :| t in tasks;
      ManyTasksOverflow(tasks, length, t);
    }
  }
}

/** A run after which a reset leaves a sender waiting beside a free slot: two tasks wait to
    send to a full queue of length two, and the reset wakes only the first. */
module ResetStrandsSender {
  import opened ListView
  import opened WakeupProtocol

  function Scene(waiting: nat, senders: seq<Id>, lock: int, phase: Phase): State {
    State({0, 1}, 2, waiting, [], senders, {}, {}, lock, lock, 0, 0, phase)
  }

  lemma Extend(s: State, e: Step, r: State, rest: seq<Step>)
    requires Enabled(s, e) && After(s, e) == r && IsRun(r, rest)
    ensures IsRun(s, [e] + rest) && Outcome(s, [e] + rest) == Outcome(r, rest)
  {
    assert ([e] + rest)[1..] == rest;
  }

  /** Task t finds the queue full, joins the end of the list of senders, and the run goes on. */
  function BlockingSend(t: Id, at: nat, rest: seq<Step>): seq<Step> {
    [Lock(t)] + ([CheckFull] + ([Place(at)] + ([UnlockTx] + ([UnlockRx] + rest))))
  }

  function Run(): seq<Step> {
    [Send(0, false)] + ([Send(0, false)] + BlockingSend(0, 0, BlockingSend(1, 1, [])))
  }

  lemma Joins(senders: seq<Id>, t: Id)
    requires t in {0, 1}
    ensures var s := Scene(2, senders, 0, Blocking(t, false));
            Enabled(s, Place(|senders|)) && After(s, Place(|senders|)) == Scene(2, senders + [t], 0, Leaving(t))
  {
    assert InsertedAt(senders, |senders|, t) == senders + [t];
  }

  lemma Unlocks(senders: seq<Id>, t: Id, rest: seq<Step>)
    requires IsRun(Scene(2, senders, UNLOCKED, Idle), rest)
    ensures var s, run := Scene(2, senders, 0, Leaving(t)), [UnlockTx] + ([UnlockRx] + rest);
            IsRun(s, run) && Outcome(s, run) == Outcome(Scene(2, senders, UNLOCKED, Idle), rest)
  {
    var half := Scene(2, senders, 0, HalfUnlocked(t)).(txLock := UNLOCKED);
    Extend(half, UnlockRx, Scene(2, senders, UNLOCKED, Idle), rest);
    Extend(Scene(2, senders, 0, Leaving(t)), UnlockTx, half, [UnlockRx] + rest);
  }

  lemma Blocks(senders: seq<Id>, t: Id, rest: seq<Step>)
    requires t in {0, 1} && t !in senders && IsRun(Scene(2, senders + [t], UNLOCKED, Idle), rest)
    ensures var s, run := Scene(2, senders, UNLOCKED, Idle), BlockingSend(t, |senders|, rest);
            IsRun(s, run) && Outcome(s, run) == Outcome(Scene(2, senders + [t], UNLOCKED, Idle), rest)
  {
    var leave := [UnlockTx] + ([UnlockRx] + rest);
    Unlocks(senders + [t], t, rest);
    Joins(senders, t);
    Extend(Scene(2, senders, 0, Blocking(t, false)), Place(|senders|), Scene(2, senders + [t], 0, Leaving(t)), leave);
    Extend(Scene(2, senders, 0, Locked(t)), CheckFull, Scene(2, senders, 0, Blocking(t, false)),
        [Place(|senders|)] + leave);
    Extend(Scene(2, senders, UNLOCKED, Idle), Lock(t), Scene(2, senders, 0, Locked(t)),
        [CheckFull] + ([Place(|senders|)] + leave));
  }

  lemma BothBlock()
    ensures IsRun(Fresh({0, 1}, 2), Run())
    ensures Outcome(Fresh({0, 1}, 2), Run()) == Scene(2, [0, 1], UNLOCKED, Idle)
  {
    var both := BlockingSend(0, 0, BlockingSend(1, 1, []));
    assert [0] + [1] == [0, 1] && [] + [0] == [0];
    Blocks([0], 1, []);
    Blocks([], 0, BlockingSend(1, 1, []));
    Extend(Scene(1, [], UNLOCKED, Idle), Send(0, false), Scene(2, [], UNLOCKED, Idle), both);
    Extend(Fresh({0, 1}, 2), Send(0, false), Scene(1, [], UNLOCKED, Idle), [Send(0, false)] + both);
  }

  /** The woken task sends, nobody has anything left to do, and task 1 still waits to send
      although a slot is free. */
  lemma SenderLeftBesideFreeSlot()
    ensures IsRun(Fresh({0, 1}, 2), Run())
    ensures var s := AfterReset(Outcome(Fresh({0, 1}, 2), Run()));
            && !Sound(s) && Enabled(s, Send(0, false))
            && var r := After(s, Send(0, false));
               r.phase == Idle && r.senders == [1] && r.wokenSenders == {} && r.waiting < r.length
  {
    BothBlock();
    assert [0, 1][1..] == [1];
  }
}

/** The critical sections of queue.c that touch the counts and the wait lists. */
module QueueWakeup {
  import opened ListView
  import opened WakeupProtocol

  class Queue {
    const tasks: set<Id>
    const length: nat
    var messagesWaiting: nat
    var tasksWaitingToReceive: seq<Id>
    var tasksWaitingToSend: seq<Id>
    var txLock: int
    var rxLock: int
    ghost var wokenReceivers: set<Id>
    ghost var wokenSenders: set<Id>
    ghost var posts: nat
    ghost var takes: nat
    ghost var phase: Phase

    ghost function Snapshot(): State
      reads this
    {
      State(tasks, length, messagesWaiting, tasksWaitingToReceive, tasksWaitingToSend, wokenReceivers, wokenSenders,
            txLock, rxLock, posts, takes, phase)
    }

    ghost predicate Valid()
      reads this
    {
      Sound(Snapshot())
    }

    constructor (tasks: set<Id>, length: nat)
      requires length >= 1
      ensures Valid() && Snapshot() == Fresh(tasks, length)
    {
      this.tasks, this.length := tasks, length;
      messagesWaiting, tasksWaitingToReceive, tasksWaitingToSend := 0, [], [];
      wokenReceivers, wokenSenders, posts, takes, phase := {}, {}, 0, 0, Idle;
      txLock, rxLock := UNLOCKED, UNLOCKED;
    }

    /** xTaskRemoveFromEventList of the receive list. */
    method WakeOneReceiver()
      requires tasksWaitingToReceive != []
      modifies `tasksWaitingToReceive, `wokenReceivers
      ensures Snapshot() == WakeReceiver(old(Snapshot()))
    {
      wokenReceivers := wokenReceivers + {tasksWaitingToReceive[0]};
      tasksWaitingToReceive := tasksWaitingToReceive[1..];
    }

    /** xTaskRemoveFromEventList of the send list. */
    method WakeOneSender()
      requires tasksWaitingToSend != []
      modifies `tasksWaitingToSend, `wokenSenders
      ensures Snapshot() == WakeSender(old(Snapshot()))
    {
      wokenSenders := wokenSenders + {tasksWaitingToSend[0]};
      tasksWaitingToSend := tasksWaitingToSend[1..];
    }

    /** Wake the first waiting receiver, if there is one. */
    method WakeAnyReceiver()
      modifies `tasksWaitingToReceive, `wokenReceivers
      ensures Snapshot() == WakeReceiver(old(Snapshot()))
    {
      if tasksWaitingToReceive != [] {
        WakeOneReceiver();
      }
    }

    method WakeAnySender()
      modifies `tasksWaitingToSend, `wokenSenders
      ensures Snapshot() == WakeSender(old(Snapshot()))
    {
      if tasksWaitingToSend != [] {
        WakeOneSender();
      }
    }

    /** prvIncrementQueueTxLock, with its assertion. */
    method IncrementTxLock()
      requires |tasks| <= INT8_MAX
      modifies `txLock, `posts
      ensures Snapshot() == old(Snapshot()).(txLock := Counted(old(txLock), |tasks|), posts := old(posts) + 1)
    {
      if txLock < |tasks| {
        assert txLock != INT8_MAX;
        txLock := txLock + 1;
      }
      posts := posts + 1;
    }

    /** prvIncrementQueueRxLock, with its assertion. */
    method IncrementRxLock()
      requires |tasks| <= INT8_MAX
      modifies `rxLock, `takes
      ensures Snapshot() == old(Snapshot()).(rxLock := Counted(old(rxLock), |tasks|), takes := old(takes) + 1)
    {
      if rxLock < |tasks| {
        assert rxLock != INT8_MAX;
        rxLock := rxLock + 1;
      }
      takes := takes + 1;
    }

    /** The count kept by prvCopyDataToQueue. */
    method CountPost(overwrite: bool)
      requires HasRoom(Snapshot(), overwrite) && messagesWaiting <= length && (overwrite ==> length == 1)
      modifies `messagesWaiting
      ensures Snapshot() == Posted(old(Snapshot()))
    {
      var waiting := messagesWaiting;
      if overwrite && waiting > 0 {
        waiting := waiting - 1;
      }
      messagesWaiting := waiting + 1;
    }

    /** The critical section of xQueueGenericSend for a task. */
    method TrySend(t: Id, overwrite: bool) returns (sent: bool)
      requires Valid() && Enabled(Snapshot(), Send(t, overwrite))
      modifies this
      ensures Valid() && Snapshot() == After(old(Snapshot()), Send(t, overwrite))
      ensures sent <==> old(messagesWaiting) < length || overwrite
      ensures messagesWaiting == old(messagesWaiting) + if old(messagesWaiting) < length then 1 else 0
      ensures tasksWaitingToReceive == Rest(old(tasksWaitingToReceive), if sent then 1 else 0)
      ensures tasksWaitingToSend == old(tasksWaitingToSend)
    {
      ghost var s := Snapshot();
      wokenSenders := wokenSenders - {t};
      sent := messagesWaiting < length || overwrite;
      if sent {
        CountPost(overwrite);
        WakeAnyReceiver();
      }
      TaskSendSound(s, t, overwrite);
    }

    /** The critical section of xQueueReceive and xQueueSemaphoreTake. */
    method TryReceive(t: Id) returns (received: bool)
      requires Valid() && Enabled(Snapshot(), Receive(t))
      modifies this
      ensures Valid() && Snapshot() == After(old(Snapshot()), Receive(t))
      ensures received <==> old(messagesWaiting) > 0
      ensures messagesWaiting == old(messagesWaiting) - if received then 1 else 0
      ensures tasksWaitingToSend == Rest(old(tasksWaitingToSend), if received then 1 else 0)
      ensures tasksWaitingToReceive == old(tasksWaitingToReceive)
    {
      ghost var s := Snapshot();
      wokenReceivers := wokenReceivers - {t};
      received := messagesWaiting > 0;
      if received {
        messagesWaiting := messagesWaiting - 1;
        WakeAnySender();
      }
      assert Snapshot() == After(s, Receive(t));
      TaskReceiveSound(s, t);
    }

    /** The critical section of xQueuePeek. */
    method TryPeek(t: Id) returns (received: bool)
      requires Valid() && Enabled(Snapshot(), Peek(t))
      modifies this
      ensures Valid() && Snapshot() == After(old(Snapshot()), Peek(t))
      ensures received <==> old(messagesWaiting) > 0
      ensures messagesWaiting == old(messagesWaiting)
      ensures tasksWaitingToReceive == Rest(old(tasksWaitingToReceive), if received then 1 else 0)
      ensures tasksWaitingToSend == old(tasksWaitingToSend)
    {
      ghost var s := Snapshot();
      wokenReceivers := wokenReceivers - {t};
      received := messagesWaiting > 0;
      if received {
        WakeAnyReceiver();
      }
      TaskPeekSound(s, t);
    }

    /** xQueueGenericSendFromISR, with the increment macro and its assertion. */
    method SendFromISR(overwrite: bool) returns (sent: bool)
      requires Valid() && Enabled(Snapshot(), IsrSend(overwrite)) && |tasks| <= INT8_MAX
      modifies this
      ensures Valid() && Snapshot() == After(old(Snapshot()), IsrSend(overwrite))
      ensures sent <==> old(messagesWaiting) < length || overwrite
      ensures messagesWaiting == old(messagesWaiting) + if old(messagesWaiting) < length then 1 else 0
      ensures tasksWaitingToReceive
              == Rest(old(tasksWaitingToReceive), if sent && old(txLock) == UNLOCKED then 1 else 0)
      ensures tasksWaitingToSend == old(tasksWaitingToSend)
    {
      ghost var s := Snapshot();
      sent := messagesWaiting < length || overwrite;
      if sent {
        var lock := txLock;
        CountPost(overwrite);
        if lock == UNLOCKED {
          WakeAnyReceiver();
        } else {
          IncrementTxLock();
        }
      }
      IsrSendSound(s, overwrite);
    }

    /** xQueueReceiveFromISR. */
    method ReceiveFromISR() returns (received: bool)
      requires Valid() && |tasks| <= INT8_MAX
      modifies this
      ensures Valid() && Snapshot() == After(old(Snapshot()), IsrReceive)
      ensures received <==> old(messagesWaiting) > 0
      ensures messagesWaiting == old(messagesWaiting) - if received then 1 else 0
      ensures tasksWaitingToSend == Rest(old(tasksWaitingToSend), if received && old(rxLock) == UNLOCKED then 1 else 0)
      ensures tasksWaitingToReceive == old(tasksWaitingToReceive)
    {
      ghost var s := Snapshot();
      received := messagesWaiting > 0;
      if received {
        var lock := rxLock;
        messagesWaiting := messagesWaiting - 1;
        assert Snapshot() == s.(waiting := s.waiting - 1);
        if lock == UNLOCKED {
          WakeAnySender();
        } else {
          IncrementRxLock();
        }
      }
      assert Snapshot() == After(s, IsrReceive);
      IsrReceiveSound(s);
    }

    /** prvLockQueue. */
    method LockQueue(t: Id)
      requires Valid() && Enabled(Snapshot(), Lock(t))
      modifies `txLock, `rxLock, `phase
      ensures Valid() && Snapshot() == After(old(Snapshot()), Lock(t))
      ensures txLock == 0 && rxLock == 0 && messagesWaiting == old(messagesWaiting)
    {
      if rxLock == UNLOCKED {
        rxLock := 0;
      }
      if txLock == UNLOCKED {
        txLock := 0;
      }
      phase := Locked(t);
    }

    /** prvIsQueueEmpty, on which the task decides to block. */
    method IsQueueEmpty() returns (empty: bool)
      requires Valid() && phase.Locked?
      modifies `phase
      ensures Valid() && Snapshot() == After(old(Snapshot()), CheckEmpty) && (empty <==> messagesWaiting == 0)
    {
      empty := messagesWaiting == 0;
      phase := if empty then Blocking(phase.t, true) else Leaving(phase.t);
    }

    /** prvIsQueueFull. */
    method IsQueueFull() returns (full: bool)
      requires Valid() && phase.Locked?
      modifies `phase
      ensures Valid() && Snapshot() == After(old(Snapshot()), CheckFull) && (full <==> messagesWaiting == length)
    {
      full := messagesWaiting == length;
      phase := if full then Blocking(phase.t, false) else Leaving(phase.t);
    }

    /** vTaskPlaceOnEventList, at the place the task's priority gives it. */
    method PlaceOnEventList(t: Id, receiving: bool, at: nat)
      requires Valid() && phase == Blocking(t, receiving) && Enabled(Snapshot(), Place(at))
      modifies `tasksWaitingToReceive, `tasksWaitingToSend, `phase
      ensures Valid() && Snapshot() == After(old(Snapshot()), Place(at))
    {
      ghost var s := Snapshot();
      PlaceSound(s, at);
      if receiving {
        tasksWaitingToReceive := InsertedAt(tasksWaitingToReceive, at, t);
      } else {
        tasksWaitingToSend := InsertedAt(tasksWaitingToSend, at, t);
      }
      phase := Leaving(t);
    }

    /** The transmit loop of prvUnlockQueue: one waiting receiver for each count. */
    method ReplayPosts(counted: nat)
      modifies `tasksWaitingToReceive, `wokenReceivers
      ensures Snapshot() == WakeReceivers(old(Snapshot()), counted)
    {
      var lock := counted;
      while lock > 0
        invariant WakeReceivers(Snapshot(), lock) == WakeReceivers(old(Snapshot()), counted)
      {
        if tasksWaitingToReceive != [] {
          WakeOneReceiver();
        } else {
          break;
        }
        lock := lock - 1;
      }
    }

    /** The transmit half of prvUnlockQueue. */
    method UnlockTransmit()
      requires Valid() && phase.Leaving?
      modifies `tasksWaitingToReceive, `wokenReceivers, `txLock, `posts, `phase
      ensures Valid() && Snapshot() == After(old(Snapshot()), UnlockTx)
      ensures txLock == UNLOCKED
      ensures tasksWaitingToReceive == Rest(old(tasksWaitingToReceive), if old(txLock) > 0 then old(txLock) else 0)
    {
      ghost var s := Snapshot();
      ReplayPosts(if txLock > 0 then txLock else 0);
      UnlockedTx(s, Snapshot());
      FirstReceiversWoken(s, if s.txLock > 0 then s.txLock else 0);
      txLock, posts, phase := UNLOCKED, 0, HalfUnlocked(phase.t);
    }

    /** The receive loop. */
    method ReplayTakes(counted: nat)
      modifies `tasksWaitingToSend, `wokenSenders
      ensures Snapshot() == WakeSenders(old(Snapshot()), counted)
    {
      var lock := counted;
      while lock > 0
        invariant WakeSenders(Snapshot(), lock) == WakeSenders(old(Snapshot()), counted)
      {
        if tasksWaitingToSend != [] {
          WakeOneSender();
          lock := lock - 1;
        } else {
          break;
        }
      }
    }

    /** The receive half. */
    method UnlockReceive()
      requires Valid() && phase.HalfUnlocked?
      modifies `tasksWaitingToSend, `wokenSenders, `rxLock, `takes, `phase
      ensures Valid() && Snapshot() == After(old(Snapshot()), UnlockRx)
      ensures rxLock == UNLOCKED
      ensures tasksWaitingToSend == Rest(old(tasksWaitingToSend), if old(rxLock) > 0 then old(rxLock) else 0)
    {
      ghost var s := Snapshot();
      ReplayTakes(if rxLock > 0 then rxLock else 0);
      UnlockedRx(s, Snapshot());
      FirstSendersWoken(s, if s.rxLock > 0 then s.rxLock else 0);
      rxLock, takes, phase := UNLOCKED, 0, Idle;
    }
  }
}
