/** Whole runs of the blocking and tick entry points of tasks.c, on the clock: what each entry
    point does to it, and what a whole history leaves. */
module KernelSteps {
  import opened Clocks
  import opened TickMath

  /** `held` are the tasks on the pending-ready list. */
  datatype View = View(modulus: nat, clock: Clock, held: set<TaskId>, suspensions: nat, pended: nat)
  {
    /** Ticks and released tasks are held back only while the scheduler is suspended, and
        nobody is overdue. */
    ghost predicate Sane() {
      && pended < modulus && held <= clock.awake
      && clock.awake !! clock.parked && clock.awake !! clock.sleepers.Keys && clock.parked !! clock.sleepers.Keys
      && (forall t :: t in clock.sleepers ==> clock.now <= clock.sleepers[t])
      && (suspensions == 0 ==> held == {} && pended == 0)
    }
  }

  /** StepTicks moves the tick count by `ahead` ticks and leaves `back` more of them pended. */
  datatype Step =
    | Delay(t: TaskId, ticks: nat, indefinitely: bool) | Release(t: TaskId) | ReleaseDirectly(t: TaskId)
    | SuspendTask(t: TaskId) | ResumeTask(t: TaskId)
    | TickInterrupt | SuspendAll | ResumeAll | StepTicks(ahead: nat, back: nat) | CatchUp(ticks: nat)

  predicate Blocked(c: Clock, t: TaskId) {
    t in c.sleepers || t in c.parked
  }

  /** What the source asserts or expects of its callers: a task that delays itself is running,
      and a jump of the tick count passes nobody's deadline. */
  ghost predicate Enabled(k: View, e: Step) {
    match e
    case Delay(t, ticks, indefinitely) => t in k.clock.awake
    case Release(t) => t !in k.held && (Blocked(k.clock, t) || (t in k.clock.awake && k.suspensions > 0))
    case ReleaseDirectly(t) => t !in k.held && Blocked(k.clock, t) && k.suspensions > 0
    case SuspendTask(t) => t in k.clock.awake || Blocked(k.clock, t)
    case ResumeTask(t) => t in k.clock.parked
    case TickInterrupt => true
    case SuspendAll => true
    case ResumeAll => k.suspensions > 0
    case StepTicks(ahead, back) =>
      && back <= 1 && (back == 1 ==> k.suspensions > 0)
      && (ahead == 0 || Punctual(k.clock.(now := k.clock.now + ahead)))
    case CatchUp(ticks) => k.suspensions == 0
  }

  /** The count of pended ticks wraps like the tick count itself. */
  function Pend(k: View, n: nat): View {
    k.(pended := if k.pended + n < k.modulus then k.pended + n else k.pended + n - k.modulus)
  }

  function After(k: View, e: Step): View {
    match e
    case Delay(t, ticks, indefinitely) =>
      if t in k.held then k
      else k.(clock := if indefinitely then Park(k.clock, t) else Block(k.clock, t, ticks))
    case Release(t) => k.(clock := Wake(k.clock, t), held := if k.suspensions > 0 then k.held + {t} else k.held)
    case ReleaseDirectly(t) => k.(clock := Wake(k.clock, t))
    case SuspendTask(t) => k.(clock := Stop(k.clock, t), held := k.held - {t})
    case ResumeTask(t) => k.(clock := Wake(k.clock, t))
    case TickInterrupt => if k.suspensions == 0 then k.(clock := Tick(k.clock)) else Pend(k, 1)
    case SuspendAll => k.(suspensions := k.suspensions + 1)
    case ResumeAll =>
      if k.suspensions > 1 then k.(suspensions := k.suspensions - 1)
      else k.(clock := Ticks(k.clock, k.pended), held := {}, suspensions := 0, pended := 0)
    case StepTicks(ahead, back) => Pend(k.(clock := Ticks(k.clock, ahead)), back)
    case CatchUp(ticks) => k.(clock := Ticks(k.clock, ticks))
  }

  // ----- every step keeps the view sane

  lemma {:induction false} TicksFacts(c: Clock, n: nat)
    ensures var r := Ticks(c, n);
            && r.now == c.now + n && r.parked == c.parked && c.awake <= r.awake
            && r.awake + r.sleepers.Keys == c.awake + c.sleepers.Keys
            && (forall t :: t in r.sleepers <==> t in c.sleepers && (n == 0 || c.now + n < c.sleepers[t]))
            && (forall t :: t in r.sleepers ==> r.sleepers[t] == c.sleepers[t])
            && (c.awake !! c.sleepers.Keys ==> r.awake !! r.sleepers.Keys)
    decreases n
  {
    if n > 0 { TicksFacts(Tick(c), n - 1); }
  }

  /** The ticks of the clock a step brings about. */
  function Replayed(k: View, e: Step): nat {
    match e
    case TickInterrupt => if k.suspensions == 0 then 1 else 0
    case ResumeAll => if k.suspensions > 1 then 0 else k.pended
    case StepTicks(ahead, back) => ahead
    case CatchUp(ticks) => ticks
    case _ => 0
  }

  lemma StepSane(k: View, e: Step)
    requires k.Sane() && Enabled(k, e)
    ensures After(k, e).Sane() && After(k, e).modulus == k.modulus
  {
    assert Ticks(k.clock, 1) == Ticks(Tick(k.clock), 0);
    TicksFacts(k.clock, Replayed(k, e));
  }

  // ----- whole runs

  function Outcome(k: View, run: seq<Step>): View {
    if run == [] then k else After(Outcome(k, run[..|run|-1]), run[|run|-1])
  }

  ghost predicate IsRun(k: View, run: seq<Step>) {
    run == [] || (IsRun(k, run[..|run|-1]) && Enabled(Outcome(k, run[..|run|-1]), run[|run|-1]))
  }

  lemma {:induction false} RunSane(k: View, run: seq<Step>)
    requires k.Sane() && IsRun(k, run)
    ensures Outcome(k, run).Sane() && Outcome(k, run).modulus == k.modulus
    decreases |run|
  {
    if run != [] {
      RunSane(k, run[..|run|-1]);
      StepSane(Outcome(k, run[..|run|-1]), run[|run|-1]);
    }
  }

  /** The ticks a step stands for, whether they are counted at once or pended. */
  function Lasts(e: Step): nat {
    match e
    case TickInterrupt => 1
    case StepTicks(ahead, back) => ahead + back
    case CatchUp(ticks) => ticks
    case _ => 0
  }

  function Elapsed(run: seq<Step>): nat {
    if run == [] then 0 else Elapsed(run[..|run|-1]) + Lasts(run[|run|-1])
  }

  /** Whether a step makes the count of pended ticks wrap. */
  predicate Wraps(k: View, e: Step) {
    match e
    case TickInterrupt => k.suspensions > 0 && k.pended + 1 >= k.modulus
    case StepTicks(ahead, back) => k.pended + back >= k.modulus
    case _ => false
  }

  /** How often the count of pended ticks has wrapped. */
  function Laps(k: View, run: seq<Step>): nat {
    if run == [] then 0 else
    var earlier := run[..|run|-1];
    Laps(k, earlier) + if Wraps(Outcome(k, earlier), run[|run|-1]) then 1 else 0
  }

  lemma StepTime(k: View, e: Step)
    requires k.Sane() && Enabled(k, e)
    ensures After(k, e).clock.now + After(k, e).pended + (if Wraps(k, e) then k.modulus else 0)
            == k.clock.now + k.pended + Lasts(e)
  {
    assert Ticks(k.clock, 1) == Ticks(Tick(k.clock), 0);
    TicksFacts(k.clock, Replayed(k, e));
  }

  /** No tick is lost or counted twice: the clock and the pended ticks together have moved by
      every tick there has been, less a whole tick range for each time the count of pended
      ticks wrapped. */
  lemma {:induction false} TimeIsConserved(k: View, run: seq<Step>)
    requires k.Sane() && IsRun(k, run)
    ensures var o := Outcome(k, run);
            o.clock.now + o.pended + EpochStart(Laps(k, run), k.modulus) == k.clock.now + k.pended + Elapsed(run)
    decreases |run|
  {
    if run != [] {
      var earlier := run[..|run|-1];
      RunSane(k, earlier);
      TimeIsConserved(k, earlier);
      StepTime(Outcome(k, earlier), run[|run|-1]);
    }
  }

  /** Read off the history: the time until which the last delay of t runs, unless t was
      released, suspended or resumed since, delayed itself indefinitely, or had been released
      before the delay took effect.  A delay of no ticks runs until the next tick. */
  function Deadline(k: View, run: seq<Step>, t: TaskId): int {
    if run == [] then -1 else
    var earlier := run[..|run|-1];
    var m := Outcome(k, earlier);
    match run[|run|-1]
    case Delay(u, ticks, indefinitely) =>
      if u != t || t in m.held then Deadline(k, earlier, t)
      else if indefinitely then -1
      else m.clock.now + if ticks == 0 then 1 else ticks
    case Release(u) => if u == t then -1 else Deadline(k, earlier, t)
    case ReleaseDirectly(u) => if u == t then -1 else Deadline(k, earlier, t)
    case SuspendTask(u) => if u == t then -1 else Deadline(k, earlier, t)
    case ResumeTask(u) => if u == t then -1 else Deadline(k, earlier, t)
    case _ => Deadline(k, earlier, t)
  }

  predicate Meets(c: Clock, t: TaskId, deadline: int) {
    if t in c.sleepers
    then c.sleepers[t] == deadline > c.now || (c.sleepers[t] == c.now && deadline == c.now + 1)
    else deadline <= c.now
  }

  lemma StepMeets(k: View, e: Step, t: TaskId, before: int, after: int)
    requires k.Sane() && Enabled(k, e) && Meets(k.clock, t, before)
    requires match e
             case Delay(u, ticks, indefinitely) =>
               after == (if u != t || t in k.held then before else if indefinitely then -1
                         else k.clock.now + if ticks == 0 then 1 else ticks)
             case Release(u) => after == if u == t then -1 else before
             case ReleaseDirectly(u) => after == if u == t then -1 else before
             case SuspendTask(u) => after == if u == t then -1 else before
             case ResumeTask(u) => after == if u == t then -1 else before
             case _ => after == before
    ensures Meets(After(k, e).clock, t, after)
  {
    assert Ticks(k.clock, 1) == Ticks(Tick(k.clock), 0);
    TicksFacts(k.clock, Replayed(k, e));
  }

  /** After any run of delays, releases, ticks, jumps of the tick count, and suspensions and
      resumptions of tasks and of the scheduler, a task sleeps exactly if its deadline is ahead of the clock. */
  lemma {:induction false} SleepersHaveDeadlinesAhead(k: View, run: seq<Step>, t: TaskId)
    requires k.Sane() && k.clock.sleepers == map[] && IsRun(k, run)
    ensures var o := Outcome(k, run);
            && Meets(o.clock, t, Deadline(k, run, t))
            && (t in o.clock.sleepers <==> Deadline(k, run, t) > o.clock.now)
    decreases |run|
  {
    if run != [] {
      var earlier := run[..|run|-1];
      RunSane(k, earlier);
      SleepersHaveDeadlinesAhead(k, earlier, t);
      StepMeets(Outcome(k, earlier), run[|run|-1], t, Deadline(k, earlier, t), Deadline(k, run, t));
    }
  }

  // ----- the story of one task

  datatype Status = Awake | Asleep(until: nat) | Parked

  /** What a history says of one task and of time, without the clock's own operations. */
  datatype Story = Story(now: nat, pended: nat, suspensions: nat, held: bool, status: Status)

  function Passed(y: Story, ticks: nat): Story {
    var now := y.now + ticks;
    y.(now := now, status := if ticks > 0 && y.status.Asleep? && y.status.until <= now then Awake else y.status)
  }

  function Held(y: Story, modulus: nat, ticks: nat): Story {
    y.(pended := if y.pended + ticks < modulus then y.pended + ticks else y.pended + ticks - modulus)
  }

  /** One more step, as far as t and time are concerned.  A delay takes effect unless an
      interrupt has already released the task; a release wakes it from whatever it is blocked
      in; a suspension parks it; and time stands still while the scheduler is suspended. */
  function Continued(y: Story, modulus: nat, e: Step, t: TaskId): Story {
    match e
    case Delay(u, ticks, indefinitely) =>
      if u == t && !y.held then y.(status := if indefinitely then Parked else Asleep(y.now + ticks)) else y
    case Release(u) => if u == t then y.(status := Awake, held := y.held || y.suspensions > 0) else y
    case ReleaseDirectly(u) => if u == t then y.(status := Awake) else y
    case SuspendTask(u) => if u == t then y.(status := Parked, held := false) else y
    case ResumeTask(u) => if u == t then y.(status := Awake) else y
    case TickInterrupt => if y.suspensions == 0 then Passed(y, 1) else Held(y, modulus, 1)
    case SuspendAll => y.(suspensions := y.suspensions + 1)
    case ResumeAll =>
      if y.suspensions > 1 then y.(suspensions := y.suspensions - 1)
      else Passed(y, y.pended).(suspensions := 0, pended := 0, held := false)
    case StepTicks(ahead, back) => Held(Passed(y, ahead), modulus, back)
    case CatchUp(ticks) => Passed(y, ticks)
  }

  function Told(y: Story, modulus: nat, run: seq<Step>, t: TaskId): Story {
    if run == [] then y else Continued(Told(y, modulus, run[..|run|-1], t), modulus, run[|run|-1], t)
  }

  /** The kernel shows of t just what the story says. */
  predicate Shows(k: View, t: TaskId, y: Story) {
    && k.clock.now == y.now && k.pended == y.pended && k.suspensions == y.suspensions && (t in k.held <==> y.held)
    && (t in k.clock.awake <==> y.status == Awake) && (t in k.clock.parked <==> y.status == Parked)
    && (t in k.clock.sleepers <==> y.status.Asleep?)
    && (t in k.clock.sleepers ==> k.clock.sleepers[t] == y.status.until)
  }

  lemma StepShows(k: View, e: Step, t: TaskId, y: Story)
    requires k.Sane() && Enabled(k, e) && Shows(k, t, y)
    ensures Shows(After(k, e), t, Continued(y, k.modulus, e, t))
  {
    assert Ticks(k.clock, 1) == Ticks(Tick(k.clock), 0);
    TicksFacts(k.clock, Replayed(k, e));
  }

  /** After any run every task is awake, asleep until the time, or parked, and the clock and
      the pended ticks stand, exactly as the history tells. */
  lemma {:induction false} EveryRunTellsItsStory(k: View, run: seq<Step>, t: TaskId, y: Story)
    requires k.Sane() && IsRun(k, run) && Shows(k, t, y)
    ensures Shows(Outcome(k, run), t, Told(y, k.modulus, run, t))
    decreases |run|
  {
    if run != [] {
      var earlier := run[..|run|-1];
      RunSane(k, earlier);
      EveryRunTellsItsStory(k, earlier, t, y);
      StepShows(Outcome(k, earlier), run[|run|-1], t, Told(y, k.modulus, earlier, t));
    }
  }

  /** Whether the last step that decided about t parked it: an indefinite delay that took
      effect, or a suspension. */
  predicate LastParked(y: Story, modulus: nat, run: seq<Step>, t: TaskId) {
    if run == [] then y.status == Parked else
    var earlier := run[..|run|-1];
    match run[|run|-1]
    case Delay(u, ticks, indefinitely) =>
      if u == t && !Told(y, modulus, earlier, t).held then indefinitely else LastParked(y, modulus, earlier, t)
    case Release(u) => u != t && LastParked(y, modulus, earlier, t)
    case ReleaseDirectly(u) => u != t && LastParked(y, modulus, earlier, t)
    case ResumeTask(u) => u != t && LastParked(y, modulus, earlier, t)
    case SuspendTask(u) => u == t || LastParked(y, modulus, earlier, t)
    case _ => LastParked(y, modulus, earlier, t)
  }

  lemma {:induction false} ParkedByTheLast(y: Story, modulus: nat, run: seq<Step>, t: TaskId)
    ensures Told(y, modulus, run, t).status == Parked <==> LastParked(y, modulus, run, t)
    decreases |run|
  {
    if run != [] { ParkedByTheLast(y, modulus, run[..|run|-1], t); }
  }

  /** A task is parked iff the last step that decided about it parked it; and one the kernel
      knew at the start is awake iff it is neither parked nor asleep: a release wakes it
      whatever it was blocked in. */
  lemma ParkedOrAwake(k: View, run: seq<Step>, t: TaskId, y: Story)
    requires k.Sane() && IsRun(k, run) && Shows(k, t, y)
    ensures var o := Outcome(k, run);
            && (t in o.clock.parked <==> LastParked(y, k.modulus, run, t))
            && (t in o.clock.awake <==> t !in o.clock.parked && t !in o.clock.sleepers)
  {
    EveryRunTellsItsStory(k, run, t, y);
    ParkedByTheLast(y, k.modulus, run, t);
  }
}
