/** Direct-to-task notifications (tasks.c): a task marks itself as waiting in one critical
    section and joins a delayed list in a later one, with interrupts free to notify it in
    between. */
module NotifyProtocol {
  import opened Options

  type Id = nat
  type Word = x: nat | x < WORD_MODULUS

  const WORD_MODULUS: nat := 0x1_0000_0000

  datatype NotifyState = NotWaiting | WaitingNotification | Received

  /** The suspended list also holds tasks that block without a timeout. */
  datatype Place = Ready | Delayed | SuspendedList

  /** Where a task is in a wait for a notification on index i.  `Entering` has suspended the
      scheduler, `Marked` has marked itself as waiting, `Skipping` has found no need to
      block.  A task that is `Waiting` has joined a list, and is blocked or has been
      unblocked since. */
  datatype Call =
    | NoCall | Entering(i: nat, take: bool) | Marked(i: nat, take: bool) | Skipping(i: nat, take: bool)
    | Waiting(i: nat, take: bool)

  /** `stopped` records an explicit vTaskSuspend that has not been undone. */
  datatype Task = Task(place: Place, notify: seq<NotifyState>, value: seq<Word>, call: Call, stopped: bool)

  datatype Action = SetBits(bits: Word) | Increment | Overwrite(v: Word) | NoOverwrite(v: Word) | NoAction

  /** `pending` are the tasks on the pending-ready list.  `caller` is the task that has the
      scheduler suspended inside its own wait; nothing but interrupts can then intervene. */
  datatype State = State(indices: nat, tasks: map<Id, Task>, pending: set<Id>, suspensions: nat, caller: Option<Id>)

  /** `clear` are the bits a wait clears before it blocks, and those it clears when a
      notification has come; a take clears its whole count at the end if it is not zero. */
  datatype Step =
    | Decline(t: Id, i: nat, take: bool) | Enter(t: Id, i: nat, take: bool)
    | Mark(t: Id, clear: Word) | Join(t: Id, forever: bool) | Resume | Finish(t: Id, clear: Word)
    | Notify(t: Id, i: nat, a: Action) | NotifyFromIsr(t: Id, i: nat, a: Action)
    | Timeout(t: Id) | SuspendTask(t: Id) | ResumeTask(t: Id) | ResumeFromIsr(t: Id)
    | ClearState(t: Id, i: nat) | SuspendAll

  /** Bitwise or of two words below 2^n. */
  function Or(a: nat, b: nat, n: nat): (r: nat)
    requires a < Pow2(n) && b < Pow2(n)
    ensures r < Pow2(n)
  {
    if n == 0 then 0
    else (if a % 2 == 1 || b % 2 == 1 then 1 else 0) + 2 * Or(a / 2, b / 2, n - 1)
  }

  /** The bits of a word below 2^n that are not in another. */
  function AndNot(a: nat, b: nat, n: nat): (r: nat)
    requires a < Pow2(n)
    ensures r <= a
  {
    if n == 0 then 0
    else (if a % 2 == 1 && b % 2 == 0 then 1 else 0) + 2 * AndNot(a / 2, b / 2, n - 1)
  }

  predicate Bit(a: nat, k: nat) {
    if k == 0 then a % 2 == 1 else Bit(a / 2, k - 1)
  }

  lemma Halves(b: nat, rest: nat)
    requires b < 2
    ensures (b + 2 * rest) / 2 == rest && (b + 2 * rest) % 2 == b
  {
  }

  lemma {:induction false} OrBit(a: nat, b: nat, n: nat, k: nat)
    requires a < Pow2(n) && b < Pow2(n) && k < n
    ensures Bit(Or(a, b, n), k) <==> Bit(a, k) || Bit(b, k)
  {
    Halves(if a % 2 == 1 || b % 2 == 1 then 1 else 0, Or(a / 2, b / 2, n - 1));
    if k > 0 { OrBit(a / 2, b / 2, n - 1, k - 1); }
  }

  lemma {:induction false} AndNotBit(a: nat, b: nat, n: nat, k: nat)
    requires a < Pow2(n) && k < n
    ensures Bit(AndNot(a, b, n), k) <==> Bit(a, k) && !Bit(b, k)
  {
    Halves(if a % 2 == 1 && b % 2 == 0 then 1 else 0, AndNot(a / 2, b / 2, n - 1));
    if k > 0 { AndNotBit(a / 2, b / 2, n - 1, k - 1); }
  }

  /** Bit by bit, acting on a value sets bits and clearing takes bits away. */
  lemma WordBits(a: Word, b: Word, k: nat)
    requires k < 32
    ensures Bit(BitOr(a, b), k) <==> Bit(a, k) || Bit(b, k)
    ensures Bit(Cleared(a, b), k) <==> Bit(a, k) && !Bit(b, k)
  {
    WordsBelowPow2();
    OrBit(a, b, 32, k);
    AndNotBit(a, b, 32, k);
  }

  function Pow2(n: nat): nat { if n == 0 then 1 else 2 * Pow2(n - 1) }

  lemma WordsBelowPow2()
    ensures Pow2(32) == WORD_MODULUS
  {
    assert Pow2(8) == 256;
    assert Pow2(16) == 65536;
    assert Pow2(24) == 16777216;
  }

  function BitOr(a: Word, b: Word): Word {
    WordsBelowPow2();
    Or(a, b, 32)
  }

  function Cleared(a: Word, mask: Word): Word {
    WordsBelowPow2();
    AndNot(a, mask, 32)
  }

  function PlusOne(v: Word): Word { if v + 1 == WORD_MODULUS then 0 else v + 1 }

  /** The new notification value. */
  function Acted(v: Word, was: NotifyState, a: Action): Word {
    match a
    case SetBits(bits) => BitOr(v, bits)
    case Increment => PlusOne(v)
    case Overwrite(w) => w
    case NoOverwrite(w) => if was == Received then v else w
    case NoAction => v
  }

  /** The first half of every notification call: the state becomes received and the value is
      acted on. */
  function Noted(k: Task, i: nat, a: Action): Task
    requires i < |k.notify| && i < |k.value|
  {
    k.(notify := k.notify[i := Received], value := k.value[i := Acted(k.value[i], k.notify[i], a)])
  }

  function NoLongerWaiting(states: seq<NotifyState>): (r: seq<NotifyState>)
    ensures |r| == |states|
    ensures forall j :: 0 <= j < |r| ==> r[j] == if states[j] == WaitingNotification then NotWaiting else states[j]
  {
    seq(|states|, j requires 0 <= j < |states| => if states[j] == WaitingNotification then NotWaiting else states[j])
  }

  /** prvTaskIsTaskSuspended, for a task on no object's event list. */
  predicate SeemsSuspended(s: State, t: Id)
    requires t in s.tasks
  {
    s.tasks[t].place == SuspendedList && t !in s.pending && WaitingNotification !in s.tasks[t].notify
  }

  predicate Known(s: State, t: Id, i: nat) {
    t in s.tasks && i < s.indices && |s.tasks[t].notify| == s.indices && |s.tasks[t].value| == s.indices
  }

  predicate InCall(k: Task) { k.call.Entering? || k.call.Marked? || k.call.Skipping? }

  /** `Decline` goes straight to the end of a call, because the task would not wait or has no
      need to.  A task can run, and so act, when it is ready and no other task has the scheduler
      suspended inside a wait. */
  predicate Enabled(s: State, e: Step) {
    match e
    case Decline(t, i, take) => Known(s, t, i) && s.tasks[t].place == Ready && s.tasks[t].call == NoCall
        && s.caller == None
    case Enter(t, i, take) => Known(s, t, i) && s.tasks[t].place == Ready && s.tasks[t].call == NoCall
        && s.suspensions == 0 && s.caller == None
    case Mark(t, clear) => s.caller == Some(t) && t in s.tasks && s.tasks[t].call.Entering?
        && Known(s, t, s.tasks[t].call.i)
    case Join(t, forever) => s.caller == Some(t) && t in s.tasks && s.tasks[t].call.Marked?
    case Resume =>
      && s.suspensions > 0
      && (s.caller.Some? ==>
            && s.caller.value in s.tasks
            && !s.tasks[s.caller.value].call.Entering? && !s.tasks[s.caller.value].call.Marked?)
    case Finish(t, clear) =>
      && s.caller == None && t in s.tasks && s.tasks[t].place == Ready
          && (s.tasks[t].call.Waiting? || s.tasks[t].call.Skipping?)
      && Known(s, t, s.tasks[t].call.i) && s.suspensions == 0
    case Notify(t, i, a) => Known(s, t, i) && s.caller == None
    case NotifyFromIsr(t, i, a) => Known(s, t, i)
    case Timeout(t) => t in s.tasks && s.tasks[t].place == Delayed && s.suspensions == 0
    case SuspendTask(t) => t in s.tasks && s.caller == None
    case ResumeTask(t) => t in s.tasks && s.caller == None
    case ResumeFromIsr(t) => t in s.tasks
    case ClearState(t, i) => Known(s, t, i) && s.caller == None
    case SuspendAll => s.caller == None
  }

  function After(s: State, e: Step): State
    requires Enabled(s, e)
  {
    match e
    case Decline(t, i, take) => s.(tasks := s.tasks[t := s.tasks[t].(call := Skipping(i, take))])
    case Enter(t, i, take) =>
      s.(tasks := s.tasks[t := s.tasks[t].(call := Entering(i, take))], suspensions := 1, caller := Some(t))
    case Mark(t, clear) => s.(tasks := s.tasks[t := MarkedTask(s.tasks[t], clear)])
    case Join(t, forever) =>
      s.(tasks := s.tasks[t := s.tasks[t].(place := if forever then SuspendedList else Delayed,
                                          call := Waiting(s.tasks[t].call.i, s.tasks[t].call.take))])
    case Resume => Resumed(s)
    case Finish(t, clear) => s.(tasks := s.tasks[t := Finished(s.tasks[t], clear)])
    case Notify(t, i, a) =>
      var k := Noted(s.tasks[t], i, a);
      s.(tasks := s.tasks[t := if s.tasks[t].notify[i] == WaitingNotification then k.(place := Ready) else k])
    case NotifyFromIsr(t, i, a) =>
      var k := Noted(s.tasks[t], i, a);
      if s.tasks[t].notify[i] != WaitingNotification then s.(tasks := s.tasks[t := k])
      else if s.suspensions == 0 then s.(tasks := s.tasks[t := k.(place := Ready)])
      else s.(tasks := s.tasks[t := k], pending := s.pending + {t})
    case Timeout(t) => s.(tasks := s.tasks[t := s.tasks[t].(place := Ready)])
    case SuspendTask(t) =>
      var k := s.tasks[t].(place := SuspendedList, notify := NoLongerWaiting(s.tasks[t].notify), stopped := true);
      s.(tasks := s.tasks[t := k],
         pending := s.pending - {t})
    case ResumeTask(t) =>
      if SeemsSuspended(s, t) then s.(tasks := s.tasks[t := s.tasks[t].(place := Ready, stopped := false)]) else s
    case ResumeFromIsr(t) =>
      if !SeemsSuspended(s, t) then s
      else if s.suspensions == 0 then s.(tasks := s.tasks[t := s.tasks[t].(place := Ready, stopped := false)])
      else s.(tasks := s.tasks[t := s.tasks[t].(stopped := false)], pending := s.pending + {t})
    case ClearState(t, i) =>
      var k := s.tasks[t];
      if k.notify[i] == Received then s.(tasks := s.tasks[t := k.(notify := k.notify[i := NotWaiting])]) else s
    case SuspendAll => s.(suspensions := s.suspensions + 1)
  }

  /** The critical section that decides whether to block: a take looks at the value; a wait
      looks at the state, and if it is to block it clears bits of the value. */
  function MarkedTask(k: Task, clear: Word): Task
    requires k.call.Entering? && k.call.i < |k.notify| && k.call.i < |k.value|
  {
    var i, take := k.call.i, k.call.take;
    if (if take then k.value[i] == 0 else k.notify[i] != Received)
    then k.(notify := k.notify[i := WaitingNotification], call := Marked(i, take),
            value := if take then k.value else k.value[i := Cleared(k.value[i], clear)])
    else k.(call := Skipping(i, take))
  }

  /** xTaskResumeAll: at the last resume every task held pending becomes ready. */
  function Resumed(s: State): State
    requires s.suspensions > 0
  {
    if s.suspensions > 1 then s.(suspensions := s.suspensions - 1)
    else State(s.indices, map t | t in s.tasks :: if t in s.pending then s.tasks[t].(place := Ready) else s.tasks[t],
               {}, 0, None)
  }

  /** What the end of a wait or take leaves of the value. */
  function Left(k: Task, clear: Word): Word
    requires k.call != NoCall && k.call.i < |k.notify| && k.call.i < |k.value|
  {
    var v := k.value[k.call.i];
    if k.call.take then (if v == 0 || clear != 0 then 0 else v - 1)
    else if k.notify[k.call.i] == Received then Cleared(v, clear) else v
  }

  /** The critical section at the end of a wait or take. */
  function Finished(k: Task, clear: Word): Task
    requires (k.call.Waiting? || k.call.Skipping?) && k.call.i < |k.notify| && k.call.i < |k.value|
  {
    var i := k.call.i;
    k.(notify := k.notify[i := NotWaiting], value := k.value[i := Left(k, clear)], call := NoCall)
  }

  // ----- the invariant

  predicate MarkedNowhere(k: Task, indices: nat)
    requires |k.notify| == indices
  {
    forall j :: 0 <= j < indices ==> k.notify[j] != WaitingNotification
  }

  /** A state is "waiting" only while its task is in the wait that marked it; a task blocked
      in a wait is still marked, unless it has been suspended by hand or is about to be made
      ready; and a task suspended by hand is marked nowhere. */
  predicate TaskSound(s: State, t: Id)
    requires t in s.tasks
  {
    var k := s.tasks[t];
    && |k.notify| == s.indices && |k.value| == s.indices && (k.call != NoCall ==> k.call.i < s.indices)
    && (forall j :: 0 <= j < s.indices && k.notify[j] == WaitingNotification ==>
          (k.call.Marked? || k.call.Waiting?) && k.call.i == j)
    && (k.call.Waiting? && k.place != Ready && t !in s.pending && !k.stopped ==>
          k.notify[k.call.i] == WaitingNotification)
    && (k.call.Marked? ==> k.place == Ready && (t in s.pending || k.notify[k.call.i] == WaitingNotification))
    && (t in s.pending ==> MarkedNowhere(k, s.indices))
    && (k.stopped ==> k.place == SuspendedList && t !in s.pending && MarkedNowhere(k, s.indices))
    && (k.call.Entering? ==> k.place == Ready && t !in s.pending)
    && (k.call.NoCall? || InCall(k) ==> k.place == Ready || k.stopped || t in s.pending)
    && (s.caller == Some(t) || InCall(k) ==> s.caller == Some(t) || k.call.Skipping?)
    && (s.caller == Some(t) ==> s.suspensions > 0 && k.call != NoCall && !k.stopped)
  }

  ghost predicate Sound(s: State) {
    && (forall t :: t in s.pending ==> t in s.tasks) && (s.suspensions == 0 ==> s.pending == {})
    && (s.caller.Some? ==> s.caller.value in s.tasks && s.suspensions == 1)
    && (forall t :: t in s.tasks ==> TaskSound(s, t))
  }

  /** Steps that change one task. */
  lemma OneTask(s: State, r: State, t: Id)
    requires Sound(s) && t in s.tasks && t in r.tasks && r.indices == s.indices && r.tasks == s.tasks[t := r.tasks[t]]
    requires (forall u :: u != t ==> (u in r.pending <==> u in s.pending)) && r.pending <= r.tasks.Keys
    requires r.suspensions == s.suspensions && r.caller == s.caller && (r.suspensions == 0 ==> r.pending == {})
    requires TaskSound(r, t)
    ensures Sound(r)
  {
    forall u | u in r.tasks ensures TaskSound(r, u) { assert TaskSound(s, u); }
  }

  lemma EnterSound(s: State, t: Id, i: nat, take: bool)
    requires Sound(s) && Enabled(s, Enter(t, i, take))
    ensures Sound(After(s, Enter(t, i, take)))
  {
    var r := After(s, Enter(t, i, take));
    forall u | u in r.tasks ensures TaskSound(r, u) { assert TaskSound(s, u); }
  }

  lemma MarkSound(s: State, t: Id, clear: Word)
    requires Sound(s) && Enabled(s, Mark(t, clear))
    ensures Sound(After(s, Mark(t, clear)))
  {
    assert TaskSound(s, t);
    OneTask(s, After(s, Mark(t, clear)), t);
  }

  lemma JoinSound(s: State, t: Id, forever: bool)
    requires Sound(s) && Enabled(s, Join(t, forever))
    ensures Sound(After(s, Join(t, forever)))
  {
    assert TaskSound(s, t);
    OneTask(s, After(s, Join(t, forever)), t);
  }

  lemma ResumeSound(s: State)
    requires Sound(s) && Enabled(s, Resume)
    ensures Sound(After(s, Resume))
  {
    var r := After(s, Resume);
    forall u | u in r.tasks ensures TaskSound(r, u) { assert TaskSound(s, u); }
  }

  lemma FinishSound(s: State, t: Id, clear: Word)
    requires Sound(s) && Enabled(s, Finish(t, clear))
    ensures Sound(After(s, Finish(t, clear)))
  {
    assert TaskSound(s, t);
    OneTask(s, After(s, Finish(t, clear)), t);
  }

  lemma NotifySound(s: State, t: Id, i: nat, a: Action)
    requires Sound(s) && Enabled(s, Notify(t, i, a))
    ensures Sound(After(s, Notify(t, i, a)))
  {
    assert TaskSound(s, t);
    OneTask(s, After(s, Notify(t, i, a)), t);
  }

  /** An interrupt may notify at any point of the wait. */
  lemma NotifyFromIsrSound(s: State, t: Id, i: nat, a: Action)
    requires Sound(s) && Enabled(s, NotifyFromIsr(t, i, a))
    ensures Sound(After(s, NotifyFromIsr(t, i, a)))
  {
    assert TaskSound(s, t);
    OneTask(s, After(s, NotifyFromIsr(t, i, a)), t);
  }

  lemma OtherSound(s: State, e: Step)
    requires Sound(s) && Enabled(s, e) && (e.Decline? || e.Timeout? || e.ResumeTask? || e.ClearState?)
    ensures Sound(After(s, e))
  {
    assert TaskSound(s, e.t);
    OneTask(s, After(s, e), e.t);
  }

  lemma SuspendTaskSound(s: State, t: Id)
    requires Sound(s) && Enabled(s, SuspendTask(t))
    ensures Sound(After(s, SuspendTask(t)))
  {
    assert TaskSound(s, t);
    OneTask(s, After(s, SuspendTask(t)), t);
  }

  /** A task resumed by an interrupt while the scheduler is suspended is held pending. */
  lemma ResumeFromIsrSound(s: State, t: Id)
    requires Sound(s) && Enabled(s, ResumeFromIsr(t))
    ensures Sound(After(s, ResumeFromIsr(t)))
  {
    assert TaskSound(s, t);
    SuspendedTestExact(s, t);
    OneTask(s, After(s, ResumeFromIsr(t)), t);
  }

  lemma SuspendAllSound(s: State)
    requires Sound(s) && Enabled(s, SuspendAll)
    ensures Sound(After(s, SuspendAll))
  {
    forall u | u in s.tasks ensures TaskSound(After(s, SuspendAll), u) { assert TaskSound(s, u); }
  }

  lemma StepSound(s: State, e: Step)
    requires Sound(s) && Enabled(s, e)
    ensures Sound(After(s, e))
  {
    match e
    case Enter(t, i, take) => EnterSound(s, t, i, take);
    case Mark(t, clear) => MarkSound(s, t, clear);
    case Join(t, forever) => JoinSound(s, t, forever);
    case Resume => ResumeSound(s);
    case Finish(t, clear) => FinishSound(s, t, clear);
    case Notify(t, i, a) => NotifySound(s, t, i, a);
    case NotifyFromIsr(t, i, a) => NotifyFromIsrSound(s, t, i, a);
    case SuspendTask(t) => SuspendTaskSound(s, t);
    case ResumeFromIsr(t) => ResumeFromIsrSound(s, t);
    case SuspendAll => SuspendAllSound(s);
    case _ => OtherSound(s, e);
  }

  // ----- what each step changes, told from the state before it

  predicate OnlyTaskChanges(s: State, r: State, t: Id) {
    && t in s.tasks && t in r.tasks && r.tasks.Keys == s.tasks.Keys && r.indices == s.indices
    && forall u :: u in s.tasks && u != t ==> r.tasks[u] == s.tasks[u]
  }

  /** Only the i-th value and state of a task differ. */
  predicate OnlyIndexChanges(k: Task, after: Task, i: nat) {
    && i < |k.notify| == |after.notify| && i < |k.value| == |after.value|
    && (forall j :: 0 <= j < |k.notify| && j != i ==> after.notify[j] == k.notify[j])
    && (forall j :: 0 <= j < |k.value| && j != i ==> after.value[j] == k.value[j])
  }

  /** What a notification does to the value, in numbers and bits. */
  ghost predicate ValueAfter(before: Word, was: NotifyState, a: Action, after: Word) {
    match a
    case SetBits(bits) => forall k: nat :: k < 32 ==> (Bit(after, k) <==> Bit(before, k) || Bit(bits, k))
    case Increment => after == (before + 1) % WORD_MODULUS
    case Overwrite(v) => after == v
    case NoOverwrite(v) => after == if was == Received then before else v
    case NoAction => after == before
  }

  lemma ActionChanges(before: Word, was: NotifyState, a: Action)
    ensures ValueAfter(before, was, a, Acted(before, was, a))
  {
    if a.SetBits? {
      forall k: nat | k < 32 ensures Bit(Acted(before, was, a), k) <==> Bit(before, k) || Bit(a.bits, k) {
        WordBits(before, a.bits, k);
      }
    }
  }

  /** A notification marks the index received and acts on its value; a task that was waiting on
      it becomes ready, or is held pending if an interrupt notifies while the scheduler is
      suspended; nothing else changes. */
  lemma NotificationChanges(s: State, e: Step)
    requires Enabled(s, e) && (e.Notify? || e.NotifyFromIsr?)
    ensures var r := After(s, e);
            var k, after := s.tasks[e.t], r.tasks[e.t];
            && OnlyTaskChanges(s, r, e.t) && OnlyIndexChanges(k, after, e.i)
            && after.notify[e.i] == Received && ValueAfter(k.value[e.i], k.notify[e.i], e.a, after.value[e.i])
            && after.call == k.call && after.stopped == k.stopped
            && r.suspensions == s.suspensions && r.caller == s.caller
            && (var held := k.notify[e.i] == WaitingNotification && e.NotifyFromIsr? && s.suspensions > 0;
                && r.pending == (if held then s.pending + {e.t} else s.pending)
                && after.place == if k.notify[e.i] == WaitingNotification && !held then Ready else k.place)
  {
    ActionChanges(s.tasks[e.t].value[e.i], s.tasks[e.t].notify[e.i], e.a);
  }

  /** The end of a call: a take takes one off the count, or all of it; a wait clears the given
      bits if a notification has come; and the index is not waited on any more. */
  lemma FinishChanges(s: State, t: Id, clear: Word)
    requires Enabled(s, Finish(t, clear))
    ensures var r := After(s, Finish(t, clear));
            var k, after, i := s.tasks[t], r.tasks[t], s.tasks[t].call.i;
            && OnlyTaskChanges(s, r, t) && OnlyIndexChanges(k, after, i) && r.pending == s.pending
            && after.notify[i] == NotWaiting && after.call == NoCall && after.place == k.place
            && (k.call.take ==> after.value[i] == if k.value[i] == 0 || clear != 0 then 0 else k.value[i] - 1)
            && (!k.call.take && k.notify[i] != Received ==> after.value[i] == k.value[i])
            && (!k.call.take && k.notify[i] == Received ==>
                  forall b: nat :: b < 32 ==> (Bit(after.value[i], b) <==> Bit(k.value[i], b) && !Bit(clear, b)))
  {
    var k := s.tasks[t];
    var v := k.value[k.call.i];
    forall b: nat | b < 32 ensures Bit(Cleared(v, clear), b) <==> Bit(v, b) && !Bit(clear, b) { WordBits(v, clear, b); }
  }

  /** The decision to block: a take blocks exactly if the count is zero, a wait exactly if no
      notification has been received, and only a wait that blocks clears bits. */
  lemma MarkChanges(s: State, t: Id, clear: Word)
    requires Enabled(s, Mark(t, clear))
    ensures var r := After(s, Mark(t, clear));
            var k, after, i := s.tasks[t], r.tasks[t], s.tasks[t].call.i;
            var blocks := if k.call.take then k.value[i] == 0 else k.notify[i] != Received;
            && OnlyTaskChanges(s, r, t) && OnlyIndexChanges(k, after, i)
            && r.pending == s.pending && after.place == k.place
            && (blocks <==> after.call.Marked?) && (!blocks <==> after.call.Skipping?) && after.call.i == i
            && after.call.take == k.call.take
            && after.notify[i] == (if blocks then WaitingNotification else k.notify[i])
            && (!blocks || k.call.take ==> after.value[i] == k.value[i])
            && (blocks && !k.call.take ==>
                  forall b: nat :: b < 32 ==> (Bit(after.value[i], b) <==> Bit(k.value[i], b) && !Bit(clear, b)))
  {
    var k := s.tasks[t];
    var v := k.value[k.call.i];
    forall b: nat | b < 32 ensures Bit(Cleared(v, clear), b) <==> Bit(v, b) && !Bit(clear, b) { WordBits(v, clear, b); }
  }

  /** Joining a list, timeouts, suspension and resumption change where the task is, and no
      value; a suspension ends every wait. */
  lemma PlaceChanges(s: State, e: Step)
    requires Sound(s) && Enabled(s, e) && (e.Join? || e.Timeout? || e.SuspendTask?)
    ensures var r := After(s, e);
            var k, after := s.tasks[e.t], r.tasks[e.t];
            && OnlyTaskChanges(s, r, e.t) && after.value == k.value && r.suspensions == s.suspensions
            && r.pending == (if e.SuspendTask? then s.pending - {e.t} else s.pending)
            && after.place == (if e.Timeout? then Ready else if e.Join? && !e.forever then Delayed else SuspendedList)
            && after.call == (if e.Join? then Waiting(k.call.i, k.call.take) else k.call)
            && after.stopped == (e.SuspendTask? || k.stopped) && |after.notify| == |k.notify|
            && forall j :: 0 <= j < |k.notify| ==>
                 after.notify[j] == if e.SuspendTask? && k.notify[j] == WaitingNotification then NotWaiting
                                    else k.notify[j]
  {
  }

  /** Only a task suspended by hand is resumed: at once, or held pending if an interrupt does it
      while the scheduler is suspended. */
  lemma ResumptionChanges(s: State, e: Step)
    requires Sound(s) && Enabled(s, e) && (e.ResumeTask? || e.ResumeFromIsr?)
    ensures var r, k, later := After(s, e), s.tasks[e.t], e.ResumeFromIsr? && s.suspensions > 0;
            && (!k.stopped ==> r == s)
            && (k.stopped ==>
                  && OnlyTaskChanges(s, r, e.t) && r.suspensions == s.suspensions
                  && r.tasks[e.t] == k.(stopped := false, place := if later then k.place else Ready)
                  && r.pending == if later then s.pending + {e.t} else s.pending)
  {
    SuspendedTestExact(s, e.t);
  }

  /** Beginning a call and clearing a state. */
  lemma CallChanges(s: State, e: Step)
    requires Sound(s) && Enabled(s, e) && (e.Decline? || e.Enter? || e.ClearState?)
    ensures var r := After(s, e);
            var k, after := s.tasks[e.t], r.tasks[e.t];
            && OnlyTaskChanges(s, r, e.t) && after.value == k.value && after.place == k.place && r.pending == s.pending
            && (e.Decline? ==> after == k.(call := Skipping(e.i, e.take)) && r.suspensions == s.suspensions)
            && (e.Enter? ==>
                  && after == k.(call := Entering(e.i, e.take))
                  && r.suspensions == s.suspensions + 1 && r.caller == Some(e.t))
            && (e.ClearState? ==>
                  && OnlyIndexChanges(k, after, e.i) && after.call == k.call
                  && after.notify[e.i] == if k.notify[e.i] == Received then NotWaiting else k.notify[e.i])
  {
  }

  /** The last resume makes every task held pending ready and nothing else; an earlier one
      only counts. */
  lemma ResumeChanges(s: State)
    requires Sound(s) && Enabled(s, Resume)
    ensures var r := After(s, Resume);
            && r.tasks.Keys == s.tasks.Keys && r.suspensions == s.suspensions - 1
            && (s.suspensions > 1 ==> r.tasks == s.tasks && r.pending == s.pending)
            && (s.suspensions == 1 ==>
                  && r.pending == {} && r.caller == None
                  && forall t :: t in s.tasks ==>
                       r.tasks[t] == if t in s.pending then s.tasks[t].(place := Ready) else s.tasks[t])
  {
  }

  // ----- what follows

  /** Blocked in a wait, and not suspended by hand. */
  predicate BlockedInWait(s: State, t: Id) {
    t in s.tasks && s.tasks[t].call.Waiting? && s.tasks[t].place != Ready && !s.tasks[t].stopped
  }

  function Fresh(indices: nat, ids: set<Id>): State {
    State(indices,
          map t | t in ids :: Task(Ready, seq(indices, _ => NotWaiting), seq(indices, _ => 0), NoCall, false),
          {}, 0, None)
  }

  predicate IsRun(s: State, run: seq<Step>)
    decreases |run|
  {
    run == [] || (Enabled(s, run[0]) && IsRun(After(s, run[0]), run[1..]))
  }

  function Outcome(s: State, run: seq<Step>): State
    requires IsRun(s, run)
    decreases |run|
  {
    if run == [] then s else Outcome(After(s, run[0]), run[1..])
  }

  lemma {:induction false} RunSound(s: State, run: seq<Step>)
    requires Sound(s) && IsRun(s, run)
    ensures Sound(Outcome(s, run))
    decreases |run|
  {
    if run != [] {
      StepSound(s, run[0]);
      RunSound(After(s, run[0]), run[1..]);
    }
  }

  /** Under every interleaving, whenever the scheduler is not suspended no task is left
      blocked on an index that has been notified. */
  lemma NoNotificationLost(indices: nat, ids: set<Id>, run: seq<Step>, t: Id)
    requires IsRun(Fresh(indices, ids), run)
    ensures var s := Outcome(Fresh(indices, ids), run);
            s.suspensions == 0 && BlockedInWait(s, t) ==>
              s.tasks[t].call.i < |s.tasks[t].notify| && s.tasks[t].notify[s.tasks[t].call.i] == WaitingNotification
  {
    RunSound(Fresh(indices, ids), run);
    var s := Outcome(Fresh(indices, ids), run);
    assert t in s.tasks ==> TaskSound(s, t);
  }

  /** The test vTaskResume relies on tells a task suspended by hand from one blocked without a
      timeout, although both are on the suspended list. */
  lemma SuspendedTestExact(s: State, t: Id)
    requires Sound(s) && t in s.tasks
    ensures SeemsSuspended(s, t) <==> s.tasks[t].stopped
  {
    assert TaskSound(s, t);
    var k := s.tasks[t];
    if k.stopped { assert forall j :: 0 <= j < |k.notify| ==> k.notify[j] != WaitingNotification; }
    if k.call.Waiting? { assert k.notify[k.call.i] in k.notify; }
  }

  // ----- notifications used to count

  /** A give adds one to a count, a take that finds it above zero takes one off. */
  function Gives(e: Step, t: Id, i: nat): nat {
    match e
    case Notify(u, j, a) => if u == t && j == i && a == Increment then 1 else 0
    case NotifyFromIsr(u, j, a) => if u == t && j == i && a == Increment then 1 else 0
    case _ => 0
  }

  function Takes(s: State, e: Step, t: Id, i: nat): nat
    requires Enabled(s, e)
  {
    if e.Finish? && e.t == t && s.tasks[t].call.i == i && s.tasks[t].value[i] > 0 then 1 else 0
  }

  /** The step uses the index to count, or leaves it alone. */
  predicate CountsOnly(s: State, e: Step, t: Id, i: nat)
    requires Enabled(s, e)
  {
    match e
    case Notify(u, j, a) => u == t && j == i ==> a == Increment || a == NoAction
    case NotifyFromIsr(u, j, a) => u == t && j == i ==> a == Increment || a == NoAction
    case Mark(u, clear) => u == t && s.tasks[t].call.i == i ==> s.tasks[t].call.take
    case Finish(u, clear) => u == t && s.tasks[t].call.i == i ==> s.tasks[t].call.take && clear == 0
    case _ => true
  }

  predicate CountingRun(s: State, run: seq<Step>, t: Id, i: nat)
    requires IsRun(s, run)
    decreases |run|
  {
    run == [] || (CountsOnly(s, run[0], t, i) && CountingRun(After(s, run[0]), run[1..], t, i))
  }

  function AllGives(run: seq<Step>, t: Id, i: nat): nat
    decreases |run|
  {
    if run == [] then 0 else Gives(run[0], t, i) + AllGives(run[1..], t, i)
  }

  function AllTakes(s: State, run: seq<Step>, t: Id, i: nat): nat
    requires IsRun(s, run)
    decreases |run|
  {
    if run == [] then 0 else Takes(s, run[0], t, i) + AllTakes(After(s, run[0]), run[1..], t, i)
  }

  function Count(s: State, t: Id, i: nat): nat {
    if t in s.tasks && i < |s.tasks[t].value| then s.tasks[t].value[i] else 0
  }

  lemma StepCounts(s: State, e: Step, t: Id, i: nat)
    requires Sound(s) && Enabled(s, e) && t in s.tasks && i < s.indices && CountsOnly(s, e, t, i)
    requires Count(s, t, i) + Gives(e, t, i) < WORD_MODULUS
    ensures Count(After(s, e), t, i) + Takes(s, e, t, i) == Count(s, t, i) + Gives(e, t, i)
    ensures t in After(s, e).tasks && After(s, e).indices == s.indices
  {
    assert TaskSound(s, t);
  }

  /** No give is lost and none counted twice: however gives, takes, timeouts and suspensions
      interleave, the count at the end is what it was, and all gives, less the takes that found
      it above zero. */
  lemma {:induction false} GivesAreConserved(s: State, run: seq<Step>, t: Id, i: nat)
    requires Sound(s) && IsRun(s, run) && CountingRun(s, run, t, i) && t in s.tasks && i < s.indices
    requires Count(s, t, i) + AllGives(run, t, i) < WORD_MODULUS
    ensures Count(Outcome(s, run), t, i) + AllTakes(s, run, t, i) == Count(s, t, i) + AllGives(run, t, i)
    decreases |run|
  {
    if run != [] {
      StepSound(s, run[0]);
      StepCounts(s, run[0], t, i);
      GivesAreConserved(After(s, run[0]), run[1..], t, i);
    }
  }
}

/** The notification functions of tasks.c. */
module Notifications {
  import opened Options
  import opened ListView
  import opened NotifyProtocol

  class Kernel {
    const indices: nat
    var tasks: map<Id, Task>
    var pendingReady: seq<Id>
    var schedulerSuspended: nat
    ghost var caller: Option<Id>

    function Pending(): set<Id>
      reads this
    {
      set t | t in pendingReady
    }

    ghost function Snapshot(): State
      reads this
    {
      State(indices, tasks, Pending(), schedulerSuspended, caller)
    }

    ghost predicate Valid()
      reads this
    {
      Sound(Snapshot()) && Distinct(pendingReady)
    }

    constructor (indices: nat, ids: set<Id>)
      ensures Valid() && Snapshot() == Fresh(indices, ids)
    {
      this.indices := indices;
      tasks := map t | t in ids :: Task(Ready, seq(indices, _ => NotWaiting), seq(indices, _ => 0), NoCall, false);
      pendingReady, schedulerSuspended, caller := [], 0, None;
      new;
      assert Pending() == {};
    }

    /** The first critical section of xTaskGenericNotifyWait and ulTaskGenericNotifyTake. */
    method MarkWaiting(t: Id, bitsToClearOnEntry: Word) returns (shouldBlock: bool)
      requires Valid() && Enabled(Snapshot(), Mark(t, bitsToClearOnEntry))
      modifies `tasks
      ensures Valid() && Snapshot() == After(old(Snapshot()), Mark(t, bitsToClearOnEntry))
      ensures shouldBlock <==> t in tasks && tasks[t].call.Marked?
    {
      MarkSound(Snapshot(), t, bitsToClearOnEntry);
      var k := tasks[t];
      var i := k.call.i;
      shouldBlock := false;
      if k.call.take {
        if k.value[i] == 0 {
          tasks := tasks[t := k.(notify := k.notify[i := WaitingNotification], call := Marked(i, k.call.take))];
          shouldBlock := true;
        }
      } else {
        if k.notify[i] != Received {
          var v := Cleared(k.value[i], bitsToClearOnEntry);
          tasks := tasks[t := k.(notify := k.notify[i := WaitingNotification], value := k.value[i := v],
                                 call := Marked(i, k.call.take))];
          shouldBlock := true;
        }
      }
      if !shouldBlock {
        tasks := tasks[t := k.(call := Skipping(i, k.call.take))];
      }
    }

    /** The last critical section of both: a wait reports whether a notification came, and
        then clears the given bits; a take reports the count it found, and clears it if asked
        to or takes one off. */
    method FinishWait(t: Id, clear: Word) returns (received: bool, value: Word)
      requires Valid() && Enabled(Snapshot(), Finish(t, clear))
      modifies `tasks
      ensures Valid() && Snapshot() == After(old(Snapshot()), Finish(t, clear))
      ensures received <==> old(tasks)[t].notify[old(tasks)[t].call.i] == Received
      ensures value == old(tasks)[t].value[old(tasks)[t].call.i]
      ensures old(tasks)[t].call.take ==>
                tasks[t].value[old(tasks)[t].call.i] == if value == 0 || clear != 0 then 0 else value - 1
    {
      FinishSound(Snapshot(), t, clear);
      var k := tasks[t];
      var i := k.call.i;
      value := k.value[i];
      received := k.notify[i] == Received;
      var left := value;
      if k.call.take {
        if value != 0 {
          left := if clear != 0 then 0 else value - 1;
        }
      } else if received {
        left := Cleared(value, clear);
      }
      tasks := tasks[t := k.(notify := k.notify[i := NotWaiting], value := k.value[i := left], call := NoCall)];
    }

    /** The common start of the notifying functions. */
    method Note(t: Id, i: nat, a: Action) returns (original: NotifyState, written: bool)
      requires Known(Snapshot(), t, i)
      modifies `tasks
      ensures tasks == old(tasks)[t := Noted(old(tasks)[t], i, a)] && original == old(tasks)[t].notify[i]
      ensures !written <==> a.NoOverwrite? && original == Received
      ensures ValueAfter(old(tasks)[t].value[i], original, a, tasks[t].value[i]) && tasks[t].notify[i] == Received
    {
      var k := tasks[t];
      ActionChanges(k.value[i], k.notify[i], a);
      original := k.notify[i];
      written := true;
      var v := k.value[i];
      match a {
        case SetBits(bits) => v := BitOr(v, bits);
        case Increment => v := PlusOne(v);
        case Overwrite(w) => v := w;
        case NoOverwrite(w) =>
          if original != Received {
            v := w;
          } else {
            written := false;
          }
        case NoAction =>
      }
      tasks := tasks[t := k.(notify := k.notify[i := Received], value := k.value[i := v])];
    }

    /** xTaskGenericNotify. */
    method NotifyTask(t: Id, i: nat, a: Action) returns (written: bool)
      requires Valid() && Enabled(Snapshot(), Notify(t, i, a))
      modifies `tasks
      ensures Valid() && Snapshot() == After(old(Snapshot()), Notify(t, i, a))
      ensures !written <==> a.NoOverwrite? && old(tasks)[t].notify[i] == Received
    {
      ghost var s, r := Snapshot(), After(Snapshot(), Notify(t, i, a));
      NotifySound(s, t, i, a);
      var original;
      original, written := Note(t, i, a);
      if original == WaitingNotification {
        tasks := tasks[t := tasks[t].(place := Ready)];
      }
      assert tasks == r.tasks;
    }

    /** Append the event item of t to the pending-ready list. */
    method HoldPending(t: Id)
      requires Distinct(pendingReady) && t !in pendingReady
      modifies `pendingReady
      ensures Distinct(pendingReady) && Pending() == old(Pending()) + {t}
    {
      pendingReady := pendingReady + [t];
    }

    /** xTaskGenericNotifyFromISR, and with Increment vTaskGenericNotifyGiveFromISR. */
    method NotifyTaskFromISR(t: Id, i: nat, a: Action) returns (written: bool)
      requires Valid() && Enabled(Snapshot(), NotifyFromIsr(t, i, a))
      modifies `tasks, `pendingReady
      ensures Valid() && Snapshot() == After(old(Snapshot()), NotifyFromIsr(t, i, a))
      ensures !written <==> a.NoOverwrite? && old(tasks)[t].notify[i] == Received
    {
      ghost var s, r := Snapshot(), After(Snapshot(), NotifyFromIsr(t, i, a));
      NotifyFromIsrSound(s, t, i, a);
      var original;
      original, written := Note(t, i, a);
      if original == WaitingNotification {
        if schedulerSuspended == 0 {
          tasks := tasks[t := tasks[t].(place := Ready)];
        } else {
          assert TaskSound(s, t);
          HoldPending(t);
        }
      }
      assert tasks == r.tasks && Pending() == r.pending;
    }

    /** xTaskResumeFromISR. */
    method ResumeTaskFromISR(t: Id)
      requires Valid() && t in tasks
      modifies `tasks, `pendingReady
      ensures Valid() && Snapshot() == After(old(Snapshot()), ResumeFromIsr(t))
    {
      ghost var s := Snapshot();
      ResumeFromIsrSound(s, t);
      if tasks[t].place == SuspendedList && t !in pendingReady && WaitingNotification !in tasks[t].notify {
        if schedulerSuspended == 0 {
          tasks := tasks[t := tasks[t].(place := Ready, stopped := false)];
        } else {
          tasks := tasks[t := tasks[t].(stopped := false)];
          HoldPending(t);
        }
      }
    }

    /** The loop of xTaskResumeAll over the pending-ready list. */
    method MovePendingReadyTasks()
      requires Distinct(pendingReady) && Pending() <= tasks.Keys
      modifies `tasks, `pendingReady
      ensures pendingReady == [] && tasks.Keys == old(tasks).Keys
      ensures forall t :: t in tasks ==>
              tasks[t] == if t in old(Pending()) then old(tasks)[t].(place := Ready) else old(tasks)[t]
    {
      ghost var held, was := Pending(), tasks;
      while pendingReady != []
        invariant Distinct(pendingReady) && Pending() <= held && tasks.Keys == was.Keys
        invariant forall t :: t in tasks ==>
                  tasks[t] == if t in held - Pending() then was[t].(place := Ready) else was[t]
        decreases |pendingReady|
      {
        var t := pendingReady[0];
        ghost var before := Pending();
        assert t in before;
        pendingReady := pendingReady[1..];
        assert Pending() == before - {t};
        tasks := tasks[t := tasks[t].(place := Ready)];
      }
      assert Pending() == {};
    }

    /** xTaskResumeAll, as far as it concerns the tasks held pending. */
    method ResumeAll()
      requires Valid() && Enabled(Snapshot(), Resume)
      modifies this
      ensures Valid() && Snapshot() == After(old(Snapshot()), Resume)
    {
      ghost var s := Snapshot();
      ResumeSound(s);
      schedulerSuspended := schedulerSuspended - 1;
      if schedulerSuspended == 0 {
        caller := None;
        MovePendingReadyTasks();
        assert Pending() == {} && tasks == Resumed(s).tasks;
      }
    }
  }
}
