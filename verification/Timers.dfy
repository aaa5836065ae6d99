/** Software timers (timers.c).  Commands carry a wrapped time stamp and are handled late; the
    specification is absolute time. */
module TimerPlans {
  import opened TickMath

  // ----- where a timer goes

  datatype Placement = ProcessNow | OnCurrentList | OnOverflowList

  /** The comparisons of prvInsertTimerInActiveList. */
  function Placed(modulus: nat, period: nat, nextExpiry: nat, timeNow: nat, commandTime: nat): Placement
    requires timeNow < modulus && commandTime < modulus
  {
    if nextExpiry <= timeNow then
      if WrapSub(timeNow, commandTime, modulus) >= period then ProcessNow else OnOverflowList
    else
      if timeNow < commandTime && nextExpiry >= commandTime then ProcessNow else OnCurrentList
  }

  /** For a command handled less than a full tick range after it was issued, the comparisons
      decide exactly what absolute time says. */
  lemma PlacementExact(modulus: nat, period: nat, command: Instant, now: Instant)
    requires command.Valid(modulus) && now.Valid(modulus) && 0 < period < modulus
    requires command.Absolute(modulus) <= now.Absolute(modulus) < command.Absolute(modulus) + modulus
    ensures var x := command.Later(modulus, period);
            match Placed(modulus, period, x.tick, now.tick, command.tick)
            case ProcessNow => x.Absolute(modulus) <= now.Absolute(modulus)
            case OnCurrentList => now.Absolute(modulus) < x.Absolute(modulus) && x.epoch == now.epoch
            case OnOverflowList => now.Absolute(modulus) < x.Absolute(modulus) && x.epoch == now.epoch + 1
  {
    var x := command.Later(modulus, period);
    InstantsOrdered(modulus, command, now);
    InstantsOrdered(modulus, now, command);
    InstantsOrdered(modulus, x, now);
    InstantsOrdered(modulus, now, x);
  }

  /** However late the command is, "process now" compares the wrapped delay with the period;
      so it is right exactly when the delay is short enough or its remainder is not below
      the period. */
  lemma LateCommandExactIff(modulus: nat, period: nat, command: Instant, now: Instant)
    requires command.Valid(modulus) && now.Valid(modulus) && 0 < period < modulus
    requires command.Absolute(modulus) <= now.Absolute(modulus)
    ensures var x := command.Later(modulus, period);
            var processed := Placed(modulus, period, x.tick, now.tick, command.tick).ProcessNow?;
            && (processed <==> WrapSub(now.tick, command.tick, modulus) >= period)
            && ((processed <==> x.Absolute(modulus) <= now.Absolute(modulus))
                <==> now.Absolute(modulus) < command.Absolute(modulus) + modulus
                     || WrapSub(now.tick, command.tick, modulus) >= period)
  {
    if now.Absolute(modulus) < command.Absolute(modulus) + modulus {
      PlacementExact(modulus, period, command, now);
      InstantsOrdered(modulus, command, now);
      InstantsOrdered(modulus, now, command);
    }
  }

  /** A command handled 18 ticks late, with a tick range of 16 and a period of 10: the timer
      has expired, but is linked to expire eight ticks from now. */
  lemma LateCommandMisplaced()
    ensures var command, now := Instant(0, 0), Instant(1, 2);
            var x := command.Later(16, 10);
            && x.Absolute(16) == 10 < now.Absolute(16) == 18
            && Placed(16, 10, x.tick, now.tick, command.tick) == OnCurrentList
  {
    EpochStartIsProduct(1, 16);
  }

  // ----- expiry times on a grid

  /** start + k * period. */
  function Nth(start: nat, period: nat, k: nat): nat {
    if k == 0 then start else Nth(start, period, k - 1) + period
  }

  lemma {:induction false} NthIsProduct(start: nat, period: nat, k: nat)
    ensures Nth(start, period, k) == start + k * period
  {
    if k > 0 { NthIsProduct(start, period, k - 1); }
  }

  /** How many whole periods fit in a delay. */
  function Backlog(delay: nat, period: nat): nat
    requires period > 0
  {
    if delay < period then 0 else 1 + Backlog(delay - period, period)
  }

  lemma {:induction false} BacklogIsQuotient(delay: nat, period: nat)
    requires period > 0
    ensures Backlog(delay, period) == delay / period
  {
    if delay >= period {
      BacklogIsQuotient(delay - period, period);
      DividePeeled(delay, period);
    }
  }

  lemma DividePeeled(delay: nat, period: nat)
    requires 0 < period <= delay
    ensures delay / period == (delay - period) / period + 1
  {
    var q, r := (delay - period) / period, (delay - period) % period;
    assert delay == (q + 1) * period + r by { assert (q + 1) * period == q * period + period; }
    QuotientUnique(delay / period, delay % period, q + 1, r, period);
  }

  lemma QuotientUnique(p: nat, s: nat, q: nat, r: nat, d: nat)
    requires s < d && r < d && p * d + s == q * d + r
    ensures p == q
  {
    StepApart(p, q, d);
    StepApart(q, p, d);
  }

  lemma {:induction false} StepApart(p: nat, q: nat, d: nat)
    ensures p > q ==> p * d >= q * d + d
  {
    if p > q {
      assert p * d == (p - 1) * d + d;
      StepApart(p - 1, q, d);
    }
  }

  lemma {:induction false} NthFrom(start: nat, period: nat, k: nat)
    ensures Nth(start, period, k) == start + Nth(0, period, k)
  {
    if k > 0 { NthFrom(start, period, k - 1); }
  }

  /** The grid point reached by a time tells how many periods have passed. */
  lemma {:induction false} BacklogOnGrid(start: nat, period: nat, k: nat, now: nat)
    requires period > 0 && Nth(start, period, k) <= now < Nth(start, period, k) + period
    ensures start <= now && Backlog(now - start, period) == k
    decreases k
  {
    NthFrom(start, period, k);
    if k > 0 {
      NthFrom(start, period, k - 1);
      BacklogOnGrid(start, period, k - 1, now - period);
    }
  }

  // ----- catching up

  /** Starting from an expiry at x, `calls` further expiries have been passed and the last of
      them, at `at`, is not after now. */
  ghost predicate Pursuing(modulus: nat, period: nat, x: Instant, at: Instant, now: Instant, calls: nat) {
    && x.Valid(modulus) && at.Valid(modulus) && now.Valid(modulus) && 0 < period < modulus
    && x.Absolute(modulus) <= at.Absolute(modulus) <= now.Absolute(modulus) < x.Absolute(modulus) + modulus
    && at.Absolute(modulus) == Nth(x.Absolute(modulus), period, calls)
  }

  function NextPlace(modulus: nat, period: nat, at: Instant, now: Instant): Placement
    requires at.Valid(modulus) && now.Valid(modulus) && period < modulus
  {
    Placed(modulus, period, at.Later(modulus, period).tick, now.tick, at.tick)
  }

  lemma LaterTick(modulus: nat, period: nat, at: Instant)
    requires at.Valid(modulus) && period < modulus
    ensures at.Later(modulus, period).tick == WrapAdd(at.tick, period, modulus)
  {
  }

  lemma PursuitGoesOn(modulus: nat, period: nat, x: Instant, at: Instant, now: Instant, calls: nat)
    requires Pursuing(modulus, period, x, at, now, calls)
    requires NextPlace(modulus, period, at, now) == ProcessNow
    ensures Pursuing(modulus, period, x, at.Later(modulus, period), now, calls + 1)
  {
    PlacementExact(modulus, period, at, now);
  }

  lemma PursuitEnds(modulus: nat, period: nat, x: Instant, at: Instant, now: Instant, calls: nat)
    requires Pursuing(modulus, period, x, at, now, calls)
    requires NextPlace(modulus, period, at, now) != ProcessNow
    ensures var next := at.Later(modulus, period);
            && now.Absolute(modulus) < next.Absolute(modulus) <= now.Absolute(modulus) + period
            && next.Absolute(modulus) == Nth(x.Absolute(modulus), period, calls + 1)
            && next.epoch == now.epoch + (if NextPlace(modulus, period, at, now) == OnCurrentList then 0 else 1)
            && (now.tick == modulus - 1 ==> NextPlace(modulus, period, at, now) == OnOverflowList)
  {
    PlacementExact(modulus, period, at, now);
    InstantsOrdered(modulus, at.Later(modulus, period), now);
  }
}

/** The state of the timer service and what each step keeps. */
module TimerStates {
  import opened TickMath
  import opened TimedLists
  import opened TimerPlans

  datatype Timer = Timer(period: nat, autoReload: bool, active: bool)

  /** Kept for the specification: the absolute time a timer was last started at, and its
      callbacks since. */
  datatype History = History(started: nat, fired: nat)

  datatype Service = Service(modulus: nat, epoch: nat, current: seq<Entry>, overflow: seq<Entry>,
                             timers: map<Id, Timer>, history: map<Id, History>)
  {
    function Linked(): set<Id> { Owners(current) + Owners(overflow) }

    /** The absolute expiry time of a timer on one of the lists. */
    function Due(t: Id): nat
      requires t in Linked()
    {
      if t in Owners(current) then Instant(epoch, WakeOf(current, t)).Absolute(modulus)
      else Instant(epoch + 1, WakeOf(overflow, t)).Absolute(modulus)
    }

    /** The last tick of the epoch of the current list. */
    function LastInstant(): Instant
      requires modulus > 0
    {
      Instant(epoch, modulus - 1)
    }

    ghost predicate Shape() {
      && modulus >= 2
      && Ordered(current) && Ordered(overflow) && Owners(current) !! Owners(overflow)
      && (forall e :: e in current + overflow ==> e.wake < modulus)
      && Linked() <= timers.Keys && timers.Keys == history.Keys
      && (forall t :: t in timers ==> 0 < timers[t].period < modulus)
    }

    /** A timer is flagged active iff it is linked; a linked timer is due at the first point
        of its grid it has not been called for, and no call came early. */
    predicate TimerSound(t: Id, now: nat)
      requires t in timers && t in history
    {
      var p, h := timers[t], history[t];
      && (p.active <==> t in Linked())
      && Nth(h.started, p.period, h.fired) <= now
      && (t in Linked() ==> Due(t) == Nth(h.started, p.period, h.fired + 1))
    }

    /** Every timer outside `loose` is sound. */
    ghost predicate Sound(loose: set<Id>, now: nat) {
      Shape() && forall t :: t in timers && t !in loose ==> TimerSound(t, now)
    }
  }

  /** u is just as it was. */
  predicate Same(s: Service, r: Service, u: Id) {
    && (u in s.timers <==> u in r.timers) && (u in s.timers ==> s.timers[u] == r.timers[u])
    && (u in s.history <==> u in r.history) && (u in s.history ==> s.history[u] == r.history[u])
    && (u in s.Linked() <==> u in r.Linked()) && (u in s.Linked() ==> s.Due(u) == r.Due(u))
  }

  /** The expiry of t, due at x, has been handled at time now: one call for each grid point
      x + k * period up to now, and an auto-reload timer waits for the first one after it. */
  predicate Handled(s: Service, r: Service, t: Id, now: nat)
    requires t in s.Linked() && t in s.timers && t in s.history && s.timers[t].period > 0
  {
    var p, x := s.timers[t], s.Due(t);
    && x <= now && t in r.timers && t in r.history && r.history[t].started == s.history[t].started
    && r.timers[t] == p.(active := p.autoReload)
    && (t in r.Linked() <==> p.autoReload)
    && (p.autoReload ==>
          now < r.Due(t) <= now + p.period && r.Due(t) == Nth(x, p.period, Backlog(now - x, p.period) + 1))
    && r.history[t].fired == s.history[t].fired + 1 + if p.autoReload then Backlog(now - x, p.period) else 0
  }

  lemma SoundLater(s: Service, loose: set<Id>, now: nat, later: nat)
    requires s.Sound(loose, now) && now <= later
    ensures s.Sound(loose, later)
  {
    assert forall t :: t in s.timers && t !in loose ==> s.TimerSound(t, now) && s.TimerSound(t, later);
  }

  /** Steps that touch t alone keep every other timer sound. */
  lemma OthersSound(s: Service, r: Service, t: Id, loose: set<Id>, now: nat)
    requires s.Sound(loose, now) && r.Shape() && forall u :: u != t ==> Same(s, r, u)
    ensures r.Sound(loose + {t}, now)
  {
    forall u | u in r.timers && u !in loose + {t} ensures r.TimerSound(u, now) {
      assert Same(s, r, u) && s.TimerSound(u, now);
    }
  }

  lemma SameTransitive(s: Service, m: Service, r: Service, t: Id)
    requires forall u :: u != t ==> Same(s, m, u)
    requires forall u :: u != t ==> Same(m, r, u)
    ensures forall u :: u != t ==> Same(s, r, u)
  {
    forall u | u != t ensures Same(s, r, u) { assert Same(s, m, u) && Same(m, r, u); }
  }

  function Unlinked(s: Service, t: Id): Service {
    s.(current := Without(s.current, t), overflow := Without(s.overflow, t))
  }

  lemma UnlinkFacts(s: Service, r: Service, t: Id)
    requires s.Shape() && r == Unlinked(s, t)
    ensures r.Shape() && r.Linked() == s.Linked() - {t} && Owners(r.current) == Owners(s.current) - {t}
    ensures forall u :: u != t ==> Same(s, r, u)
  {
    WithoutFacts(s.current, t);
    WithoutFacts(s.overflow, t);
    forall u | u != t ensures Same(s, r, u) {
      if u in Owners(s.current) { WithoutWakes(s.current, t, u); }
      if u in Owners(s.overflow) { WithoutWakes(s.overflow, t, u); }
    }
  }

  function LinkedIn(s: Service, t: Id, place: Placement, wake: nat): Service {
    match place
    case ProcessNow => s
    case OnCurrentList => s.(current := Insert(s.current, Entry(wake, t)))
    case OnOverflowList => s.(overflow := Insert(s.overflow, Entry(wake, t)))
  }

  lemma LinkFacts(s: Service, r: Service, t: Id, place: Placement, x: Instant)
    requires s.Shape() && t in s.timers && t !in s.Linked() && x.Valid(s.modulus)
    requires (place == OnCurrentList && x.epoch == s.epoch) || (place == OnOverflowList && x.epoch == s.epoch + 1)
    requires r == LinkedIn(s, t, place, x.tick)
    ensures r.Shape() && t in r.Linked() && r.Due(t) == x.Absolute(s.modulus)
    ensures forall u :: u != t ==> Same(s, r, u)
    ensures Owners(r.current) - {t} == Owners(s.current)
  {
    if place == OnCurrentList { LinkCurrent(s, r, t, x); } else { LinkOverflow(s, r, t, x); }
  }

  lemma LinkCurrent(s: Service, r: Service, t: Id, x: Instant)
    requires s.Shape() && t in s.timers && t !in s.Linked() && x.Valid(s.modulus) && x.epoch == s.epoch
    requires r == s.(current := Insert(s.current, Entry(x.tick, t)))
    ensures r.Shape() && t in r.Linked() && r.Due(t) == x.Absolute(s.modulus)
    ensures forall u :: u != t ==> Same(s, r, u)
    ensures Owners(r.current) - {t} == Owners(s.current)
  {
    var e := Entry(x.tick, t);
    InsertFacts(s.current, e);
    InsertWakes(s.current, e, t);
    forall u | u != t ensures Same(s, r, u) {
      if u in Owners(s.current) { InsertWakes(s.current, e, u); }
    }
  }

  lemma LinkOverflow(s: Service, r: Service, t: Id, x: Instant)
    requires s.Shape() && t in s.timers && t !in s.Linked() && x.Valid(s.modulus) && x.epoch == s.epoch + 1
    requires r == s.(overflow := Insert(s.overflow, Entry(x.tick, t)))
    ensures r.Shape() && t in r.Linked() && r.Due(t) == x.Absolute(s.modulus)
    ensures forall u :: u != t ==> Same(s, r, u)
    ensures Owners(r.current) - {t} == Owners(s.current)
  {
    var e := Entry(x.tick, t);
    InsertFacts(s.overflow, e);
    InsertWakes(s.overflow, e, t);
    forall u | u != t ensures Same(s, r, u) {
      if u in Owners(s.overflow) { InsertWakes(s.overflow, e, u); }
    }
  }

  /** t has been called k more times. */
  function Called(s: Service, t: Id, k: nat): Service
    requires t in s.history
  {
    s.(history := s.history[t := s.history[t].(fired := s.history[t].fired + k)])
  }

  lemma CalledNever(s: Service, t: Id)
    requires t in s.history
    ensures Called(s, t, 0) == s
  {
    assert Called(s, t, 0).history == s.history;
  }

  lemma CalledAgain(s: Service, t: Id, k: nat)
    requires t in s.history
    ensures Called(Called(s, t, k), t, 1) == Called(s, t, k + 1)
  {
    var a, b := Called(Called(s, t, k), t, 1).history, Called(s, t, k + 1).history;
    assert a.Keys == b.Keys && forall u :: u in a ==> a[u] == b[u];
    assert a == b;
  }

  lemma CallFacts(s: Service, r: Service, t: Id, k: nat)
    requires s.Shape() && t in s.history && r == Called(s, t, k)
    ensures r.Shape() && r.Linked() == s.Linked() && forall u :: u != t ==> Same(s, r, u)
  {
  }

  lemma CallAndLink(s: Service, r: Service, t: Id, k: nat, place: Placement, x: Instant)
    requires s.Shape() && t in s.timers && t !in s.Linked() && x.Valid(s.modulus)
    requires (place == OnCurrentList && x.epoch == s.epoch) || (place == OnOverflowList && x.epoch == s.epoch + 1)
    requires r == LinkedIn(Called(s, t, k), t, place, x.tick)
    ensures r.Shape() && t in r.Linked() && r.Due(t) == x.Absolute(s.modulus)
    ensures r.timers == s.timers && r.history == Called(s, t, k).history
    ensures forall u :: u != t ==> Same(s, r, u)
    ensures Owners(r.current) - {t} == Owners(s.current)
    ensures place == OnOverflowList ==> r.current == s.current
  {
    CallFacts(s, Called(s, t, k), t, k);
    LinkFacts(Called(s, t, k), r, t, place, x);
    SameTransitive(s, Called(s, t, k), r, t);
  }

  /** t has been called for `calls` grid points after x up to now, and waits for the next. */
  ghost predicate Rescheduled(timers: map<Id, Timer>, history: map<Id, History>, r: Service, t: Id,
                              x: nat, now: nat, calls: nat)
    requires t in timers && t in history
  {
    var p := timers[t].period;
    && r.Shape() && t in r.Linked() && r.timers == timers
    && r.history == history[t := history[t].(fired := history[t].fired + calls)]
    && now < r.Due(t) <= now + p && r.Due(t) == Nth(x, p, calls + 1)
  }

  /** The effect of reloading t, whose last handled expiry was x, at time now. */
  ghost predicate Reloaded(s: Service, r: Service, t: Id, x: nat, now: nat, calls: nat)
    requires t in s.timers && t in s.history
  {
    Rescheduled(s.timers, s.history, r, t, x, now, calls) && forall u :: u != t ==> Same(s, r, u)
  }

  /** The state in the reload loop: `calls` expiries after x have been called for, the last at
      `at`, and an attempt has been made to link the timer for the next. */
  ghost predicate Chasing(s: Service, r: Service, t: Id, x: Instant, at: Instant, now: Instant, calls: nat)
    requires t in s.timers && t in s.history
  {
    var p := s.timers[t].period;
    && Pursuing(s.modulus, p, x, at, now, calls)
    && r == LinkedIn(Called(s, t, calls), t, NextPlace(s.modulus, p, at, now), at.Later(s.modulus, p).tick)
  }

  lemma ChaseBegins(s: Service, r: Service, t: Id, x: Instant, now: Instant, place: Placement, next: nat)
    requires s.Shape() && t in s.timers && x.Valid(s.modulus) && now.Valid(s.modulus)
    requires x.Absolute(s.modulus) <= now.Absolute(s.modulus) < x.Absolute(s.modulus) + s.modulus
    requires next == WrapAdd(x.tick, s.timers[t].period, s.modulus)
    requires place == Placed(s.modulus, s.timers[t].period, next, now.tick, x.tick) && r == LinkedIn(s, t, place, next)
    ensures Chasing(s, r, t, x, x, now, 0) && place == NextPlace(s.modulus, s.timers[t].period, x, now)
  {
    CalledNever(s, t);
    LaterTick(s.modulus, s.timers[t].period, x);
  }

  lemma ChaseStep(s: Service, m: Service, r: Service, t: Id, x: Instant, at: Instant, now: Instant, calls: nat,
                  place: Placement, next: nat, later: nat)
    requires s.Shape() && t in s.timers && Chasing(s, m, t, x, at, now, calls)
    requires NextPlace(s.modulus, s.timers[t].period, at, now) == ProcessNow
    requires next == WrapAdd(at.tick, s.timers[t].period, s.modulus)
             && later == WrapAdd(next, s.timers[t].period, s.modulus)
    requires place == Placed(s.modulus, s.timers[t].period, later, now.tick, next)
    requires r == LinkedIn(Called(m, t, 1), t, place, later)
    ensures var p, after := s.timers[t].period, at.Later(s.modulus, s.timers[t].period);
            && after.tick == next && at.Absolute(s.modulus) < after.Absolute(s.modulus) <= now.Absolute(s.modulus)
            && Chasing(s, r, t, x, after, now, calls + 1) && place == NextPlace(s.modulus, p, after, now)
  {
    var p := s.timers[t].period;
    PursuitGoesOn(s.modulus, p, x, at, now, calls);
    LaterTick(s.modulus, p, at);
    LaterTick(s.modulus, p, at.Later(s.modulus, p));
    CalledAgain(s, t, calls);
  }

  lemma ReloadFacts(s: Service, r: Service, t: Id, x: Instant, at: Instant, now: Instant, calls: nat)
    requires s.Shape() && t in s.timers && t !in s.Linked() && now.epoch == s.epoch
    requires Chasing(s, r, t, x, at, now, calls)
    requires NextPlace(s.modulus, s.timers[t].period, at, now) != ProcessNow
    ensures Reloaded(s, r, t, x.Absolute(s.modulus), now.Absolute(s.modulus), calls)
    ensures Owners(r.current) - {t} == Owners(s.current)
    ensures now.tick == s.modulus - 1 ==> r.current == s.current
  {
    var p := s.timers[t].period;
    PursuitEnds(s.modulus, p, x, at, now, calls);
    CallAndLink(s, r, t, calls, NextPlace(s.modulus, p, at, now), at.Later(s.modulus, p));
  }

  function Deactivated(s: Service, t: Id): Service
    requires t in s.timers
  {
    s.(timers := s.timers[t := s.timers[t].(active := false)])
  }

  lemma {:induction false} NthAdds(start: nat, period: nat, i: nat, j: nat)
    ensures Nth(Nth(start, period, i), period, j) == Nth(start, period, i + j)
  {
    if j > 0 { NthAdds(start, period, i, j - 1); }
  }

  /** The expiry of t is handled and nothing else changes. */
  ghost predicate Processed(s: Service, r: Service, t: Id, now: nat)
    requires t in s.Linked() && t in s.timers && t in s.history && s.timers[t].period > 0
  {
    Handled(s, r, t, now) && forall u :: u != t ==> Same(s, r, u)
  }

  /** A step that touches t alone and leaves it sound keeps the whole service sound. */
  lemma SoundAgain(s: Service, r: Service, t: Id, loose: set<Id>, now: nat)
    requires s.Sound(loose, now) && r.Shape() && forall u :: u != t ==> Same(s, r, u)
    requires t in r.timers && r.TimerSound(t, now)
    ensures r.Sound(loose - {t}, now)
  {
    OthersSound(s, r, t, loose, now);
  }

  lemma HeadIsIn(list: seq<Entry>)
    ensures list != [] ==> list[0].owner in Owners(list) && list[0] in list
  {
  }

  lemma HeadFacts(s: Service, loose: set<Id>, now: nat)
    requires s.Sound(loose, now) && s.current != [] && s.current[0].owner !in loose
    ensures var t := s.current[0].owner;
            && t in s.Linked() && t in Owners(s.current) && s.TimerSound(t, now)
            && s.Due(t) == Instant(s.epoch, s.current[0].wake).Absolute(s.modulus)
  {
    assert s.current[0] in s.current;
    WakeOfMember(s.current, s.current[0]);
  }

  lemma ReloadedElsewhere(s: Service, a: Service, b: Service, r: Service, t: Id)
    requires s.Shape() && t in s.timers && a == Unlinked(s, t)
    requires b.Shape() && t in b.timers && (forall u :: u != t ==> Same(a, b, u)) && r == Called(b, t, 1)
    ensures r.Shape() && forall u :: u != t ==> Same(s, r, u)
  {
    UnlinkFacts(s, a, t);
    SameTransitive(s, a, b, t);
    CallFacts(b, r, t, 1);
    SameTransitive(s, b, r, t);
  }

  lemma OnTheGrid(started: nat, period: nat, fired: nat, calls: nat, total: nat, now: nat)
    requires total == fired + 1 + calls
    requires Nth(Nth(started, period, fired + 1), period, calls + 1) <= now + period
    ensures Nth(started, period, total) <= now
    ensures Nth(Nth(started, period, fired + 1), period, calls + 1) == Nth(started, period, total + 1)
  {
    NthAdds(started, period, fired + 1, calls + 1);
  }

  lemma CaughtUp(s: Service, b: Service, r: Service, t: Id, now: nat, calls: nat)
    requires s.Shape() && t in s.Linked() && s.timers[t].autoReload && s.TimerSound(t, now) && s.Due(t) <= now
    requires Rescheduled(s.timers, s.history, b, t, s.Due(t), now, calls) && r == Called(b, t, 1)
    ensures r.TimerSound(t, now) && Handled(s, r, t, now)
  {
    var p, h := s.timers[t].period, s.history[t];
    assert r.Due(t) == b.Due(t) && r.history[t].started == h.started;
    BacklogOnGrid(s.Due(t), p, calls, now);
    OnTheGrid(h.started, p, h.fired, calls, r.history[t].fired, now);
  }

  lemma OneShotExpires(s: Service, a: Service, r: Service, t: Id, now: nat)
    requires s.Shape() && t in s.Linked() && !s.timers[t].autoReload && s.TimerSound(t, now) && s.Due(t) <= now
    requires a == Unlinked(s, t) && r == Called(Deactivated(a, t), t, 1)
    ensures r.Shape() && r.TimerSound(t, now) && Processed(s, r, t, now)
  {
    UnlinkFacts(s, a, t);
    DeactivateFacts(a, t);
    CallFacts(Deactivated(a, t), r, t, 1);
    SameTransitive(s, a, Deactivated(a, t), t);
    SameTransitive(s, Deactivated(a, t), r, t);
  }

  lemma DeactivateFacts(s: Service, t: Id)
    requires s.Shape() && t in s.timers
    ensures Deactivated(s, t).Shape() && Deactivated(s, t).Linked() == s.Linked()
    ensures forall u :: u != t ==> Same(s, Deactivated(s, t), u)
  {
  }

  /** On the way from s to r the timers that left the current list were handled at time now,
      and no other timer changed. */
  ghost predicate Drained(s: Service, r: Service, now: nat)
    requires s.Shape()
  {
    && Owners(r.current) <= Owners(s.current)
    && (forall u :: u in Owners(s.current) - Owners(r.current) ==> Handled(s, r, u, now))
    && (forall u :: u in Owners(r.current) || u !in Owners(s.current) ==> Same(s, r, u))
  }

  lemma DrainStep(s: Service, m: Service, r: Service, t: Id, now: nat)
    requires s.Shape() && m.Shape() && Drained(s, m, now) && t in Owners(m.current)
    requires Processed(m, r, t, now) && Owners(r.current) == Owners(m.current) - {t}
    ensures Drained(s, r, now)
  {
    forall u | u in Owners(s.current) - Owners(r.current) ensures Handled(s, r, u, now) {
      if u == t { HandledAfterSame(s, m, r, u, now); } else { HandledBeforeSame(s, m, r, u, now); }
    }
    forall u | u in Owners(r.current) || u !in Owners(s.current) ensures Same(s, r, u) {
      assert Same(s, m, u) && Same(m, r, u);
    }
  }

  lemma HandledAfterSame(s: Service, m: Service, r: Service, u: Id, now: nat)
    requires s.Shape() && m.Shape() && u in m.Linked() && Same(s, m, u) && Handled(m, r, u, now)
    ensures Handled(s, r, u, now)
  {
  }

  lemma HandledBeforeSame(s: Service, m: Service, r: Service, u: Id, now: nat)
    requires s.Shape() && u in s.Linked() && Handled(s, m, u, now) && Same(m, r, u)
    ensures Handled(s, r, u, now)
  {
  }

  /** The whole effect of a switch. */
  ghost predicate SwitchedOver(s: Service, r: Service)
    requires s.Shape()
  {
    && r.epoch == s.epoch + 1 && r.overflow == []
    && forall u :: if u in Owners(s.current) then Handled(s, r, u, s.LastInstant().Absolute(s.modulus))
        else Same(s, r, u)
  }

  lemma SwitchAfterDraining(s: Service, m: Service, r: Service, loose: set<Id>)
    requires s.Shape() && m.Sound(loose, s.LastInstant().Absolute(s.modulus)) && m.current == []
    requires m.epoch == s.epoch && Drained(s, m, s.LastInstant().Absolute(s.modulus))
    requires r == m.(epoch := m.epoch + 1, current := m.overflow, overflow := [])
    ensures r.Sound(loose, s.LastInstant().Absolute(s.modulus)) && SwitchedOver(s, r)
  {
    var now := s.LastInstant().Absolute(s.modulus);
    SwitchFacts(m, r, loose, now);
    forall u ensures if u in Owners(s.current) then Handled(s, r, u, now) else Same(s, r, u) {
      assert Same(m, r, u);
      if u in Owners(s.current) { HandledBeforeSame(s, m, r, u, now); } else { assert Same(s, m, u); }
    }
  }

  /** What a sample at a time in the given epoch leaves: with timers linked the lists are
      switched or stay as they are; with none linked only the epoch is brought up to date,
      whether or not the lists are switched. */
  ghost predicate BroughtUpTo(s: Service, r: Service, switched: bool, epoch: nat)
    requires s.Shape()
  {
    && r.epoch == epoch
    && if switched && s.Linked() != {} then SwitchedOver(s, r)
       else r == s.(epoch := epoch) && (s.Linked() != {} ==> epoch == s.epoch)
  }

  /** While no timer is linked the epoch of the lists does not matter. */
  lemma IdleInAnyEpoch(s: Service, r: Service, loose: set<Id>, now: nat)
    requires s.Sound(loose, now) && s.Linked() == {} && r == s.(epoch := r.epoch)
    ensures r.Sound(loose, now) && r.Linked() == {} && forall u :: Same(s, r, u)
  {
    assert forall t :: t in s.timers && t !in loose ==> s.TimerSound(t, now) && r.TimerSound(t, now);
  }

  lemma NoneLinked(s: Service)
    ensures s.Linked() == {} <==> s.current == [] && s.overflow == []
  {
    assert Owners([]) == {};
    HeadIsIn(s.current);
    HeadIsIn(s.overflow);
  }

  // ----- starting a timer

  function Started(s: Service, t: Id, issued: nat): Service
    requires t in s.timers
  {
    s.(timers := s.timers[t := s.timers[t].(active := true)], history := s.history[t := History(issued, 0)])
  }

  /** What a start command stamped `issued` and handled at `now` must leave. */
  predicate StartOutcome(r: Service, t: Id, issued: nat, now: nat)
    requires t in r.timers && t in r.history && r.timers[t].period > 0 && issued <= now
  {
    var p, h := r.timers[t], r.history[t];
    && h.started == issued && (p.active <==> t in r.Linked())
    && (p.autoReload ==>
          && t in r.Linked() && h.fired == Backlog(now - issued, p.period)
          && now < r.Due(t) <= now + p.period && r.Due(t) == Nth(issued, p.period, h.fired + 1))
    && (!p.autoReload ==>
          if now < issued + p.period then t in r.Linked() && h.fired == 0 && r.Due(t) == issued + p.period
          else t !in r.Linked() && h.fired == 1)
  }

  lemma StartedFacts(s: Service, r: Service, t: Id, issued: nat)
    requires s.Shape() && t in s.timers && r == Started(s, t, issued)
    ensures r.Shape() && r.Linked() == s.Linked() && forall u :: u != t ==> Same(s, r, u)
  {
  }

  lemma StartInTime(s: Service, r: Service, t: Id, issued: nat, now: nat, place: Placement, x: Instant)
    requires s.Shape() && t in s.timers && t !in s.Linked() && x.Valid(s.modulus) && place != ProcessNow
    requires x.epoch == s.epoch + if place == OnCurrentList then 0 else 1
    requires r == LinkedIn(Started(s, t, issued), t, place, x.tick)
    requires issued <= now < x.Absolute(s.modulus) == issued + s.timers[t].period
    ensures r.Shape() && r.TimerSound(t, now) && StartOutcome(r, t, issued, now) && r.Due(t) == x.Absolute(s.modulus)
    ensures forall u :: u != t ==> Same(s, r, u)
  {
    var m := Started(s, t, issued);
    StartedFacts(s, m, t, issued);
    LinkFacts(m, r, t, place, x);
    SameTransitive(s, m, r, t);
    assert Nth(issued, s.timers[t].period, 1) == Nth(issued, s.timers[t].period, 0) + s.timers[t].period;
  }

  lemma StartLateOneShot(s: Service, r: Service, t: Id, issued: nat, now: nat)
    requires s.Shape() && t in s.timers && t !in s.Linked() && !s.timers[t].autoReload
    requires issued + s.timers[t].period <= now && r == Called(Deactivated(Started(s, t, issued), t), t, 1)
    ensures r.Shape() && r.TimerSound(t, now) && StartOutcome(r, t, issued, now)
    ensures forall u :: u != t ==> Same(s, r, u)
  {
    var m := Started(s, t, issued);
    StartedFacts(s, m, t, issued);
    DeactivateFacts(m, t);
    CallFacts(Deactivated(m, t), r, t, 1);
    assert Nth(issued, s.timers[t].period, 1) == Nth(issued, s.timers[t].period, 0) + s.timers[t].period;
  }

  lemma StartLateAutoReload(s: Service, m: Service, b: Service, r: Service, t: Id, issued: nat, x: nat, now: nat,
                            calls: nat)
    requires s.Shape() && t in s.timers && t !in s.Linked() && s.timers[t].autoReload
    requires m == Started(s, t, issued) && x == issued + s.timers[t].period && x <= now
    requires Reloaded(m, b, t, x, now, calls) && r == Called(b, t, 1)
    ensures r.Shape() && r.TimerSound(t, now) && StartOutcome(r, t, issued, now)
    ensures forall u :: u != t ==> Same(s, r, u)
  {
    StartedFacts(s, m, t, issued);
    CallFacts(b, r, t, 1);
    SameTransitive(s, m, b, t);
    SameTransitive(s, b, r, t);
    StartCaughtUp(m, b, r, t, issued, x, now, calls);
  }

  lemma StartCaughtUp(m: Service, b: Service, r: Service, t: Id, issued: nat, x: nat, now: nat, calls: nat)
    requires m.Shape() && t in m.timers && m.timers[t].autoReload && m.timers[t].active
             && m.history[t] == History(issued, 0)
    requires x == issued + m.timers[t].period && x <= now
    requires Rescheduled(m.timers, m.history, b, t, x, now, calls) && r == Called(b, t, 1)
    ensures r.TimerSound(t, now) && StartOutcome(r, t, issued, now)
  {
    var p := m.timers[t].period;
    assert r.Due(t) == b.Due(t) && r.history[t] == History(issued, calls + 1);
    assert Nth(issued, p, 1) == Nth(issued, p, 0) + p;
    OnTheGrid(issued, p, 0, calls, calls + 1, now);
    BacklogOnGrid(issued, p, calls + 1, now);
  }

  function Retimed(s: Service, t: Id, period: nat): Service
    requires t in s.timers
  {
    s.(timers := s.timers[t := s.timers[t].(period := period)])
  }

  /** A new period counts from now, so its first expiry is always ahead. */
  lemma RetimedFacts(s: Service, r: Service, t: Id, period: nat, now: nat, place: Placement, x: Instant)
    requires s.Shape() && t in s.timers && t !in s.Linked() && 0 < period < s.modulus && x.Valid(s.modulus)
    requires place != ProcessNow && x.epoch == s.epoch + if place == OnCurrentList then 0 else 1
    requires r == LinkedIn(Started(Retimed(s, t, period), t, now), t, place, x.tick)
    requires x.Absolute(s.modulus) == now + period
    ensures r.Shape() && r.TimerSound(t, now) && t in r.Linked() && r.Due(t) == now + period
    ensures forall u :: u != t ==> Same(s, r, u)
  {
    var m := Retimed(s, t, period);
    RetimedElsewhere(s, m, t, period);
    StartInTime(m, r, t, now, now, place, x);
    SameTransitive(s, m, r, t);
  }

  lemma RetimedElsewhere(s: Service, r: Service, t: Id, period: nat)
    requires s.Shape() && t in s.timers && 0 < period < s.modulus && r == Retimed(s, t, period)
    ensures r.Shape() && r.Linked() == s.Linked() && forall u :: u != t ==> Same(s, r, u)
  {
  }

  /** While a command for t is carried out, another timer changes only if the lists switch
      and its expiry was on the old current list. */
  ghost predicate Elsewhere(s: Service, r: Service, t: Id, switched: bool)
    requires s.Shape()
  {
    forall u :: u != t ==>
      if switched && u in Owners(s.current) then Handled(s, r, u, s.LastInstant().Absolute(s.modulus))
          else Same(s, r, u)
  }

  lemma ElsewhereAfterUnlinking(s: Service, a: Service, b: Service, t: Id, switched: bool)
    requires s.Shape() && a.Shape() && (forall u :: u != t ==> Same(s, a, u))
             && Owners(a.current) == Owners(s.current) - {t}
    requires a.epoch == s.epoch && a.modulus == s.modulus && BroughtUpTo(a, b, switched, b.epoch)
    ensures Elsewhere(s, b, t, switched)
  {
    var last := s.LastInstant().Absolute(s.modulus);
    forall u | u != t ensures if switched && u in Owners(s.current) then Handled(s, b, u, last) else Same(s, b, u) {
      OneElsewhere(s, a, b, t, switched, u);
    }
  }

  lemma OneElsewhere(s: Service, a: Service, b: Service, t: Id, switched: bool, u: Id)
    requires s.Shape() && a.Shape() && u != t && Same(s, a, u) && Owners(a.current) == Owners(s.current) - {t}
    requires a.epoch == s.epoch && a.modulus == s.modulus && BroughtUpTo(a, b, switched, b.epoch)
    ensures if switched && u in Owners(s.current)
            then Handled(s, b, u, s.LastInstant().Absolute(s.modulus)) else Same(s, b, u)
  {
    OneBroughtUp(a, b, switched, u);
    if switched && u in Owners(s.current) {
      HandledAfterSame(s, a, b, u, s.LastInstant().Absolute(s.modulus));
    } else {
      SameBoth(s, a, b, u);
    }
  }

  lemma OneBroughtUp(a: Service, b: Service, switched: bool, u: Id)
    requires a.Shape() && BroughtUpTo(a, b, switched, b.epoch)
    ensures if switched && u in Owners(a.current)
            then Handled(a, b, u, a.LastInstant().Absolute(a.modulus)) else Same(a, b, u)
  {
    if !switched && a.Linked() != {} { assert b == a; }
  }

  lemma SameBoth(s: Service, a: Service, b: Service, u: Id)
    requires Same(s, a, u) && Same(a, b, u)
    ensures Same(s, b, u)
  {
  }

  lemma ElsewhereStill(s: Service, b: Service, r: Service, t: Id, switched: bool)
    requires s.Shape() && Elsewhere(s, b, t, switched) && forall u :: u != t ==> Same(b, r, u)
    ensures Elsewhere(s, r, t, switched)
  {
    var last := s.LastInstant().Absolute(s.modulus);
    forall u | u != t ensures if switched && u in Owners(s.current) then Handled(s, r, u, last) else Same(s, r, u) {
      assert Same(b, r, u);
      if switched && u in Owners(s.current) { HandledBeforeSame(s, b, r, u, last); } else { assert Same(s, b, u); }
    }
  }

  // ----- commands

  /** Start also stands for reset; each has a variant used from interrupts. */
  datatype Command = Start | Stop | ChangePeriod | Delete

  /** What the source asks of a command: a start carries the tick count at which it was
      issued and is handled within a tick range of it, and a new period is not zero. */
  predicate Accepts(modulus: nat, command: Command, value: nat, issued: Instant, now: Instant) {
    && (command == Start ==>
          && issued.Valid(modulus) && issued.tick == value
          && issued.Absolute(modulus) <= now.Absolute(modulus) < issued.Absolute(modulus) + modulus)
    && (command == ChangePeriod ==> 0 < value < modulus)
  }

  /** The effect of a command on its own timer, which was `before` with history `past`. */
  predicate Outcome(before: Timer, past: History, r: Service, t: Id, command: Command, value: nat,
                    issued: Instant, now: Instant)
    requires t in r.timers && t in r.history && r.timers[t].period > 0
             && Accepts(r.modulus, command, value, issued, now)
  {
    match command
    case Start =>
      r.timers[t] == before.(active := r.timers[t].active)
      && StartOutcome(r, t, issued.Absolute(r.modulus), now.Absolute(r.modulus))
    case ChangePeriod =>
      r.timers[t] == before.(period := value, active := true) && t in r.Linked()
      && r.Due(t) == now.Absolute(r.modulus) + value && r.history[t] == History(now.Absolute(r.modulus), 0)
    case Stop => r.timers[t] == before.(active := false) && t !in r.Linked() && r.history[t] == past
    case Delete => r.timers[t] == before.(active := false) && t !in r.Linked() && r.history[t] == past
  }

  /** A sound timer that is not yet due has been called once for every whole period since it
      was started. */
  lemma CallsMatchElapsedPeriods(s: Service, t: Id, now: nat)
    requires s.Sound({}, now) && t in s.Linked() && now < s.Due(t)
    ensures var h := s.history[t];
            h.started <= now && h.fired == Backlog(now - h.started, s.timers[t].period)
  {
    assert s.TimerSound(t, now);
    BacklogOnGrid(s.history[t].started, s.timers[t].period, s.history[t].fired, now);
  }

  /** The daemon may sleep for `ticks`, or until a command comes: nothing is due yet, it
      will not sleep past an expiry or past the next wrap of the tick count, and while the
      current list holds a timer it will wake exactly when the first one is due. */
  predicate WaitIsRight(s: Service, now: Instant, ticks: nat, indefinitely: bool) {
    && (forall t :: t in s.Linked() ==> now.Absolute(s.modulus) < s.Due(t))
    && (indefinitely <==> s.Linked() == {})
    && (!indefinitely ==> forall t :: t in s.Linked() ==> now.Absolute(s.modulus) + ticks <= s.Due(t))
    && now.tick + ticks <= s.modulus
    && (s.current != [] ==>
          s.current[0].owner in s.Linked() && s.Due(s.current[0].owner) == now.Absolute(s.modulus) + ticks)
    && (ticks == 0 ==> now.tick == 0 && s.current == [])
  }

  lemma WaitFacts(s: Service, now: Instant, ticks: nat, indefinitely: bool)
    requires s.Shape() && now.epoch == s.epoch && now.Valid(s.modulus)
    requires s.current != [] ==> now.tick < s.current[0].wake
    requires ticks == WrapSub(if s.current == [] then 0 else s.current[0].wake, now.tick, s.modulus)
    requires indefinitely <==> s.current == [] && s.overflow == []
    ensures WaitIsRight(s, now, ticks, indefinitely)
  {
    assert Owners([]) == {};
    HeadIsIn(s.current);
    HeadIsIn(s.overflow);
    forall t | t in s.Linked()
      ensures now.Absolute(s.modulus) < s.Due(t) && now.Absolute(s.modulus) + ticks <= s.Due(t)
    {
      NotPast(s, now, ticks, t);
    }
    if s.current != [] { WakeOfMember(s.current, s.current[0]); }
  }

  lemma NotPast(s: Service, now: Instant, ticks: nat, t: Id)
    requires s.Shape() && now.epoch == s.epoch && now.Valid(s.modulus) && t in s.Linked()
    requires s.current != [] ==> now.tick < s.current[0].wake && ticks == s.current[0].wake - now.tick
    requires s.current == [] ==> ticks == WrapSub(0, now.tick, s.modulus)
    ensures now.Absolute(s.modulus) < s.Due(t) && now.Absolute(s.modulus) + ticks <= s.Due(t)
  {
    assert EpochStart(s.epoch + 1, s.modulus) == EpochStart(s.epoch, s.modulus) + s.modulus;
    if t in Owners(s.current) { assert s.current[0].wake <= s.current[Position(s.current, t)].wake; }
  }

  /** When the daemon goes to sleep, every active timer has been called exactly once for
      every whole period since it was started. */
  lemma SleepingDaemonOwesNoCalls(s: Service, now: Instant, ticks: nat, indefinitely: bool, t: Id)
    requires s.Sound({}, now.Absolute(s.modulus)) && WaitIsRight(s, now, ticks, indefinitely)
    requires t in s.timers && s.timers[t].active
    ensures var h := s.history[t];
            && h.started <= now.Absolute(s.modulus)
            && h.fired == Backlog(now.Absolute(s.modulus) - h.started, s.timers[t].period)
            && !indefinitely
  {
    assert s.TimerSound(t, now.Absolute(s.modulus));
    CallsMatchElapsedPeriods(s, t, now.Absolute(s.modulus));
  }

  /** The lists change places. */
  lemma SwitchFacts(s: Service, r: Service, loose: set<Id>, now: nat)
    requires s.Sound(loose, now) && s.current == []
    requires r == s.(epoch := s.epoch + 1, current := s.overflow, overflow := [])
    ensures r.Sound(loose, now) && forall u :: Same(s, r, u)
  {
    assert Owners([]) == {};
    assert forall u :: Same(s, r, u);
    assert forall t :: t in s.timers && t !in loose ==> s.TimerSound(t, now) && r.TimerSound(t, now);
  }
}

/** The timer service task. */
module Timers {
  import opened TickMath
  import opened TimedLists
  import opened TimerPlans
  import opened TimerStates
  import opened TimerRuns

  class TimerService {
    const modulus: nat
    ghost var epoch: nat
    var current: seq<Entry>
    var overflow: seq<Entry>
    var timers: map<Id, Timer>
    ghost var history: map<Id, History>
    var lastTime: nat

    ghost function Snapshot(): Service
      reads this
    {
      Service(modulus, epoch, current, overflow, timers, history)
    }

    /** The absolute time of the last sample. */
    ghost function Sampled(): nat
      reads this
    {
      Instant(epoch, lastTime).Absolute(modulus)
    }

    ghost function State(): Daemon
      reads this
    {
      Daemon(Snapshot(), Sampled())
    }

    /** Holds whenever the service is between commands and expiries. */
    ghost predicate Valid()
      reads this
    {
      lastTime < modulus && Snapshot().Sound({}, Sampled())
    }

    /** Timers are created stopped. */
    constructor (modulus: nat, timers: map<Id, Timer>)
      requires modulus >= 2 && forall t :: t in timers ==> 0 < timers[t].period < modulus && !timers[t].active
      ensures Valid() && this.modulus == modulus && this.timers == timers && Sampled() == 0
    {
      this.modulus, this.timers := modulus, timers;
      epoch, current, overflow, lastTime := 0, [], [], 0;
      history := map t | t in timers :: History(0, 0);
      new;
      assert Owners([]) == {};
    }

    /** prvInsertTimerInActiveList. */
    method InsertTimerInActiveList(t: Id, nextExpiryTime: nat, timeNow: nat, commandTime: nat)
        returns (processNow: bool)
      requires t in timers && timeNow < modulus && commandTime < modulus
      modifies `current, `overflow
      ensures var place := Placed(modulus, timers[t].period, nextExpiryTime, timeNow, commandTime);
              processNow == place.ProcessNow? && Snapshot() == LinkedIn(old(Snapshot()), t, place, nextExpiryTime)
    {
      processNow := false;
      if nextExpiryTime <= timeNow {
        if WrapSub(timeNow, commandTime, modulus) >= timers[t].period {
          processNow := true;
        } else {
          overflow := Insert(overflow, Entry(nextExpiryTime, t));
        }
      } else {
        if timeNow < commandTime && nextExpiryTime >= commandTime {
          processNow := true;
        } else {
          current := Insert(current, Entry(nextExpiryTime, t));
        }
      }
    }

    /** The timer callback; the specification only counts it. */
    ghost method Callback(t: Id)
      requires t in history
      modifies `history
      ensures Snapshot() == Called(old(Snapshot()), t, 1)
    {
      history := history[t := history[t].(fired := history[t].fired + 1)];
    }

    /** prvReloadTimer.  Each expiry already passed is called for; the timer is then linked
        for the first expiry after `now`. */
    method ReloadTimer(t: Id, expiredTime: nat, timeNow: nat, ghost x: Instant, ghost now: Instant)
        returns (ghost calls: nat)
      requires Snapshot().Shape() && t in timers && t !in Snapshot().Linked()
      requires x.Valid(modulus) && now.Valid(modulus) && x.tick == expiredTime && now.tick == timeNow
               && now.epoch == epoch
      requires x.Absolute(modulus) <= now.Absolute(modulus) < x.Absolute(modulus) + modulus
      modifies `current, `overflow, `history
      ensures Reloaded(old(Snapshot()), Snapshot(), t, x.Absolute(modulus), now.Absolute(modulus), calls)
      ensures Owners(current) - {t} == old(Owners(current))
      ensures timeNow == modulus - 1 ==> current == old(current)
    {
      ghost var s, at := Snapshot(), x;
      calls := 0;
      var expired := expiredTime;
      var next := WrapAdd(expired, timers[t].period, modulus);
      var processNow := InsertTimerInActiveList(t, next, timeNow, expired);
      ChaseBegins(s, Snapshot(), t, x, now, Placed(modulus, timers[t].period, next, timeNow, expired), next);
      while processNow
        invariant Chasing(s, Snapshot(), t, x, at, now, calls)
        invariant at.tick == expired && next == WrapAdd(expired, timers[t].period, modulus)
        invariant processNow == NextPlace(modulus, timers[t].period, at, now).ProcessNow?
        decreases now.Absolute(modulus) - at.Absolute(modulus)
      {
        ghost var m := Snapshot();
        expired := next;
        Callback(t);
        next := WrapAdd(expired, timers[t].period, modulus);
        processNow := InsertTimerInActiveList(t, next, timeNow, expired);
        ChaseStep(s, m, Snapshot(), t, x, at, now, calls, Placed(modulus, timers[t].period, next, timeNow, expired),
            expired, next);
        at, calls := at.Later(modulus, timers[t].period), calls + 1;
      }
      ReloadFacts(s, Snapshot(), t, x, at, now, calls);
    }

    /** prvProcessExpiredTimer. */
    method ProcessExpiredTimer(nextExpireTime: nat, timeNow: nat, ghost loose: set<Id>, ghost now: Instant)
      requires Snapshot().Sound(loose, now.Absolute(modulus)) && now == Instant(epoch, timeNow) && timeNow < modulus
      requires current != [] && current[0].owner !in loose && current[0].wake == nextExpireTime <= timeNow
      modifies `current, `overflow, `timers, `history
      ensures Snapshot().Sound(loose, now.Absolute(modulus))
      ensures old(current)[0].owner in old(Snapshot()).Linked()
      ensures Processed(old(Snapshot()), Snapshot(), old(current)[0].owner, now.Absolute(modulus))
      ensures timeNow == modulus - 1 ==>
                && |current| == |old(current)| - 1
                && Owners(current) == old(Owners(current)) - {old(current)[0].owner}
    {
      ghost var s := Snapshot();
      var t := current[0].owner;
      HeadFacts(s, loose, now.Absolute(modulus));
      current, overflow := Without(current, t), Without(overflow, t);
      ghost var a := Snapshot();
      UnlinkFacts(s, a, t);
      if timers[t].autoReload {
        ghost var calls := ReloadTimer(t, nextExpireTime, timeNow, Instant(epoch, nextExpireTime), now);
        ghost var b := Snapshot();
        Callback(t);
        ReloadedElsewhere(s, a, b, Snapshot(), t);
        CaughtUp(s, b, Snapshot(), t, now.Absolute(modulus), calls);
      } else {
        timers := timers[t := timers[t].(active := false)];
        Callback(t);
        OneShotExpires(s, a, Snapshot(), t, now.Absolute(modulus));
      }
      SoundAgain(s, Snapshot(), t, loose, now.Absolute(modulus));
    }

    /** prvSwitchTimerLists. */
    method SwitchTimerLists(ghost loose: set<Id>)
      requires Snapshot().Shape() && Snapshot().Sound(loose, Snapshot().LastInstant().Absolute(modulus))
               && Owners(current) !! loose
      modifies `epoch, `current, `overflow, `timers, `history
      ensures Snapshot().Sound(loose, old(Snapshot()).LastInstant().Absolute(modulus))
      ensures SwitchedOver(old(Snapshot()), Snapshot())
      ensures old(current) == [] ==>
              Snapshot() == old(Snapshot()).(epoch := epoch, current := old(overflow), overflow := [])
    {
      ghost var s, last := Snapshot(), Snapshot().LastInstant();
      assert forall u :: Same(s, s, u);
      while current != []
        invariant epoch == old(epoch) && Snapshot().Sound(loose, last.Absolute(modulus)) && Owners(current) !! loose
        invariant Drained(s, Snapshot(), last.Absolute(modulus)) && (s.current == [] ==> Snapshot() == s)
        decreases |current|
      {
        ghost var m := Snapshot();
        HeadIsIn(m.current);
        var nextExpireTime := current[0].wake;
        ProcessExpiredTimer(nextExpireTime, modulus - 1, loose, last);
        DrainStep(s, m, Snapshot(), m.current[0].owner, last.Absolute(modulus));
      }
      ghost var m := Snapshot();
      current, overflow := overflow, current;
      epoch := epoch + 1;
      SwitchAfterDraining(s, m, Snapshot(), loose);
    }

    /** prvSampleTimeNow.  The tick count is taken to be below its previous sample exactly
        when it has wrapped, which is right if less than a full tick range has passed; with
        no timer linked it does not matter how much time has passed. */
    method SampleTimeNow(tickCount: nat, ghost loose: set<Id>, ghost now: Instant)
        returns (timeNow: nat, switched: bool)
      requires lastTime < modulus && Snapshot().Sound(loose, Sampled()) && Owners(current) !! loose
      requires now.Valid(modulus) && now.tick == tickCount && Sampled() <= now.Absolute(modulus)
      requires Snapshot().Linked() == {} || now.Absolute(modulus) < Sampled() + modulus
      modifies this
      ensures timeNow == lastTime == tickCount && epoch == now.epoch && (switched <==> tickCount < old(lastTime))
      ensures switched ==> old(Snapshot()).LastInstant().Absolute(modulus) <= now.Absolute(modulus)
      ensures Snapshot().Sound(loose, now.Absolute(modulus))
      ensures BroughtUpTo(old(Snapshot()), Snapshot(), switched, now.epoch)
    {
      ghost var before, last := Instant(epoch, lastTime), Snapshot().LastInstant();
      InstantsOrdered(modulus, before, now);
      InstantsOrdered(modulus, now, before);
      NoneLinked(Snapshot());
      timeNow := tickCount;
      if timeNow < lastTime {
        InstantsOrdered(modulus, before, last);
        InstantsOrdered(modulus, last, now);
        SoundLater(Snapshot(), loose, Sampled(), last.Absolute(modulus));
        SwitchTimerLists(loose);
        SoundLater(Snapshot(), loose, last.Absolute(modulus), now.Absolute(modulus));
        switched := true;
      } else {
        SoundLater(Snapshot(), loose, Sampled(), now.Absolute(modulus));
        switched := false;
      }
      EnterEpoch(loose, now);
      lastTime := timeNow;
    }

    /** The specification keeps up with the epoch; with timers linked it already has. */
    ghost method EnterEpoch(loose: set<Id>, now: Instant)
      requires Snapshot().Sound(loose, now.Absolute(modulus)) && (Snapshot().Linked() == {} || epoch == now.epoch)
      modifies `epoch
      ensures Snapshot() == old(Snapshot()).(epoch := now.epoch) && Snapshot().Sound(loose, now.Absolute(modulus))
    {
      ghost var s := Snapshot();
      epoch := now.epoch;
      if s.Linked() == {} { IdleInAnyEpoch(s, Snapshot(), loose, now.Absolute(modulus)); }
    }

    /** The start and reset commands.  A timer whose expiry has already passed is called at
        once, for every period missed. */
    method StartTimer(t: Id, commandTime: nat, timeNow: nat, ghost issued: Instant, ghost now: Instant)
      requires Snapshot().Shape() && t in timers && t !in Snapshot().Linked()
      requires issued.Valid(modulus) && issued.tick == commandTime && now == Instant(epoch, timeNow)
               && timeNow < modulus
      requires issued.Absolute(modulus) <= now.Absolute(modulus) < issued.Absolute(modulus) + modulus
      modifies `current, `overflow, `timers, `history
      ensures Snapshot().Shape() && t in timers && timers[t] == old(timers)[t].(active := timers[t].active)
      ensures Snapshot().TimerSound(t, now.Absolute(modulus))
      ensures StartOutcome(Snapshot(), t, issued.Absolute(modulus), now.Absolute(modulus))
      ensures forall u :: u != t ==> Same(old(Snapshot()), Snapshot(), u)
    {
      ghost var s, x := Snapshot(), issued.Later(modulus, timers[t].period);
      PlacementExact(modulus, timers[t].period, issued, now);
      LaterTick(modulus, timers[t].period, issued);
      timers := timers[t := timers[t].(active := true)];
      history := history[t := History(issued.Absolute(modulus), 0)];
      ghost var m := Started(s, t, issued.Absolute(modulus));
      StartedFacts(s, m, t, issued.Absolute(modulus));
      assert Snapshot() == m;
      var expiry := WrapAdd(commandTime, timers[t].period, modulus);
      var processNow := InsertTimerInActiveList(t, expiry, timeNow, commandTime);
      if processNow {
        if timers[t].autoReload {
          ghost var calls := ReloadTimer(t, expiry, timeNow, x, now);
          ghost var b := Snapshot();
          Callback(t);
          StartLateAutoReload(s, m, b, Snapshot(), t, issued.Absolute(modulus), x.Absolute(modulus),
              now.Absolute(modulus), calls);
        } else {
          timers := timers[t := timers[t].(active := false)];
          Callback(t);
          StartLateOneShot(s, Snapshot(), t, issued.Absolute(modulus), now.Absolute(modulus));
        }
      } else {
        StartInTime(s, Snapshot(), t, issued.Absolute(modulus), now.Absolute(modulus),
                    Placed(modulus, timers[t].period, expiry, timeNow, commandTime), x);
      }
    }

    /** The change-period command. */
    method ChangeTimerPeriod(t: Id, period: nat, timeNow: nat, ghost now: Instant)
      requires Snapshot().Shape() && t in timers && t !in Snapshot().Linked()
      requires 0 < period < modulus && now == Instant(epoch, timeNow) && timeNow < modulus
      modifies `current, `overflow, `timers, `history
      ensures Snapshot().Shape() && t in timers && Snapshot().TimerSound(t, now.Absolute(modulus))
      ensures timers[t] == old(timers)[t].(period := period, active := true)
      ensures history[t] == History(now.Absolute(modulus), 0)
      ensures t in Snapshot().Linked() && Snapshot().Due(t) == now.Absolute(modulus) + period
      ensures forall u :: u != t ==> Same(old(Snapshot()), Snapshot(), u)
    {
      ghost var s, at := Snapshot(), now.Absolute(modulus);
      PlacementExact(modulus, period, now, now);
      LaterTick(modulus, period, now);
      timers := timers[t := timers[t].(active := true)];
      timers := timers[t := timers[t].(period := period)];
      history := history[t := History(at, 0)];
      assert Snapshot() == Started(Retimed(s, t, period), t, at);
      var expiry := WrapAdd(timeNow, timers[t].period, modulus);
      var processNow := InsertTimerInActiveList(t, expiry, timeNow, timeNow);
      RetimedFacts(s, Snapshot(), t, period, at, Placed(modulus, period, expiry, timeNow, timeNow),
          now.Later(modulus, period));
    }

    /** The stop command, and the delete command for a statically allocated timer. */
    method StopTimer(t: Id)
      requires Snapshot().Shape() && t in timers && t !in Snapshot().Linked()
      modifies `timers
      ensures Snapshot() == Deactivated(old(Snapshot()), t) && Snapshot().Shape()
      ensures Snapshot().Linked() == old(Snapshot()).Linked()
              && forall u :: u != t ==> Same(old(Snapshot()), Snapshot(), u)
    {
      timers := timers[t := timers[t].(active := false)];
      DeactivateFacts(old(Snapshot()), t);
    }

    /** How prvProcessReceivedCommands begins: the timer is taken off its list before the
        time is sampled, so a switch of the lists cannot expire it. */
    method UnlinkAndSample(t: Id, tickCount: nat, ghost now: Instant) returns (timeNow: nat, switched: bool)
      requires Valid() && t in timers && now.Valid(modulus) && now.tick == tickCount
               && Sampled() <= now.Absolute(modulus)
      requires Snapshot().Linked() <= {t} || now.Absolute(modulus) < Sampled() + modulus
      modifies this
      ensures timeNow == lastTime == tickCount && epoch == now.epoch && timeNow < modulus
      ensures Snapshot().Sound({t}, now.Absolute(modulus)) && t !in Snapshot().Linked()
      ensures t in timers && t in history && timers[t] == old(timers)[t] && history[t] == old(history)[t]
      ensures switched ==> old(Snapshot()).LastInstant().Absolute(modulus) <= now.Absolute(modulus)
      ensures Elsewhere(old(Snapshot()), Snapshot(), t, switched)
    {
      ghost var s := Snapshot();
      current, overflow := Without(current, t), Without(overflow, t);
      ghost var a := Snapshot();
      UnlinkFacts(s, a, t);
      OthersSound(s, a, t, {}, Sampled());
      timeNow, switched := SampleTimeNow(tickCount, {t}, now);
      assert Same(a, Snapshot(), t);
      ElsewhereAfterUnlinking(s, a, Snapshot(), t, switched);
    }

    /** The switch statement of prvProcessReceivedCommands. */
    method Execute(command: Command, t: Id, messageValue: nat, timeNow: nat, ghost issued: Instant, ghost now: Instant)
      requires Snapshot().Shape() && t in timers && t !in Snapshot().Linked()
      requires now == Instant(epoch, timeNow) && timeNow < modulus
               && Accepts(modulus, command, messageValue, issued, now)
      requires Nth(history[t].started, timers[t].period, history[t].fired) <= now.Absolute(modulus)
      modifies `current, `overflow, `timers, `history
      ensures Snapshot().Shape() && t in timers && t in history && Snapshot().TimerSound(t, now.Absolute(modulus))
      ensures Outcome(old(timers)[t], old(history)[t], Snapshot(), t, command, messageValue, issued, now)
      ensures forall u :: u != t ==> Same(old(Snapshot()), Snapshot(), u)
    {
      match command {
        case Start => StartTimer(t, messageValue, timeNow, issued, now);
        case ChangePeriod => ChangeTimerPeriod(t, messageValue, timeNow, now);
        case Stop => StopTimer(t);
        case Delete => StopTimer(t);
      }
    }

    /** One command of prvProcessReceivedCommands, for a timer that exists. */
    method ProcessCommand(command: Command, t: Id, messageValue: nat, tickCount: nat, ghost issued: Instant,
                          ghost now: Instant)
        returns (switched: bool)
      requires Valid() && now.tick == tickCount
      requires Enabled(State(), Handle(command, t, messageValue, issued, now, false))
      modifies this
      ensures Valid() && Enabled(old(State()), Handle(command, t, messageValue, issued, now, switched))
      ensures Follows(old(State()), Handle(command, t, messageValue, issued, now, switched), State())
    {
      ghost var s := Snapshot();
      assert s.TimerSound(t, Sampled());
      var timeNow;
      timeNow, switched := UnlinkAndSample(t, tickCount, now);
      ghost var b := Snapshot();
      Execute(command, t, messageValue, timeNow, issued, now);
      ElsewhereStill(s, b, Snapshot(), t, switched);
      SoundAgain(b, Snapshot(), t, {t}, now.Absolute(modulus));
    }

    /** prvGetNextExpireTime. */
    method GetNextExpireTime() returns (nextExpireTime: nat, listWasEmpty: bool)
      ensures listWasEmpty == (current == []) && nextExpireTime == if current == [] then 0 else current[0].wake
    {
      listWasEmpty := current == [];
      nextExpireTime := 0;
      if !listWasEmpty {
        nextExpireTime := current[0].wake;
      }
    }

    /** The choice in prvProcessTimerOrBlockTask when the lists were not switched. */
    method ExpireOrWait(nextExpireTime: nat, listWasEmpty: bool, timeNow: nat, ghost now: Instant)
        returns (decision: Decision)
      requires Snapshot().Sound({}, now.Absolute(modulus)) && now == Instant(epoch, timeNow) && timeNow < modulus
      requires listWasEmpty == (current == []) && nextExpireTime == if current == [] then 0 else current[0].wake
      modifies `current, `overflow, `timers, `history
      ensures Snapshot().Sound({}, now.Absolute(modulus)) && !decision.Switched?
      ensures decision.Expired? ==>
        && old(current) != [] && old(current)[0].owner in old(Snapshot()).Linked()
        && Processed(old(Snapshot()), Snapshot(), old(current)[0].owner, now.Absolute(modulus))
      ensures decision.Wait? ==>
        Snapshot() == old(Snapshot()) && WaitIsRight(Snapshot(), now, decision.ticks, decision.indefinitely)
    {
      HeadIsIn(current);
      if !listWasEmpty && nextExpireTime <= timeNow {
        ProcessExpiredTimer(nextExpireTime, timeNow, {}, now);
        decision := Expired;
      } else {
        var bothEmpty := listWasEmpty;
        if listWasEmpty {
          bothEmpty := overflow == [];
        }
        decision := Wait(WrapSub(nextExpireTime, timeNow, modulus), bothEmpty);
        WaitFacts(Snapshot(), now, decision.ticks, decision.indefinitely);
      }
    }

    /** prvProcessTimerOrBlockTask: one turn of the daemon loop before it drains commands. */
    method ProcessTimerOrBlock(tickCount: nat, ghost now: Instant) returns (decision: Decision)
      requires Valid() && now.tick == tickCount && InTime(State(), now, {})
      modifies this
      ensures Valid() && Enabled(old(State()), Turn(now, decision))
      ensures Follows(old(State()), Turn(now, decision), State()) && (decision.Switched? <==> tickCount < old(lastTime))
    {
      var nextExpireTime, listWasEmpty := GetNextExpireTime();
      var timeNow, switched := SampleTimeNow(tickCount, {}, now);
      if !switched {
        decision := ExpireOrWait(nextExpireTime, listWasEmpty, timeNow, now);
      } else {
        decision := Switched;
      }
    }
  }
}
