/** Whole runs of the timer service task: turns of its loop and commands, in any order. */
module TimerRuns {
  import opened TickMath
  import opened TimedLists
  import opened TimerPlans
  import opened TimerStates

  /** The service and the absolute time of its last sample. */
  datatype Daemon = Daemon(service: Service, sampled: nat)

  datatype Decision = Expired | Switched | Wait(ticks: nat, indefinitely: bool)

  /** A turn of the loop, or one command with the time it was issued at; `now` is when the
      daemon gets to it. */
  datatype Event =
    | Turn(now: Instant, decision: Decision)
    | Handle(command: Command, t: Id, value: nat, issued: Instant, now: Instant, switched: bool)

  /** Less than a tick range after the last sample, or with no timer linked but those in
      `except`. */
  predicate InTime(d: Daemon, now: Instant, except: set<Id>) {
    && now.Valid(d.service.modulus) && d.sampled <= now.Absolute(d.service.modulus)
    && (d.service.Linked() <= except || now.Absolute(d.service.modulus) < d.sampled + d.service.modulus)
  }

  ghost predicate Enabled(d: Daemon, e: Event) {
    && d.service.Shape()
    && match e
       case Turn(now, _) => InTime(d, now, {})
       case Handle(command, t, value, issued, now, _) =>
         t in d.service.timers && Accepts(d.service.modulus, command, value, issued, now) && InTime(d, now, {t})
  }

  /** What one turn or command does; nothing is said here of other timers being sound. */
  ghost predicate Follows(d: Daemon, e: Event, r: Daemon)
    requires Enabled(d, e)
  {
    var s, m := d.service, d.service.modulus;
    && r.service.Shape() && r.service.modulus == m && r.sampled == e.now.Absolute(m)
    && match e
       case Turn(now, Switched) =>
         BroughtUpTo(s, r.service, true, now.epoch) && s.LastInstant().Absolute(m) <= r.sampled
       case Turn(now, Expired) =>
         s.current != [] && HeadOf(s) in s.Linked() && Processed(s, r.service, HeadOf(s), r.sampled)
       case Turn(now, Wait(ticks, indefinitely)) =>
         BroughtUpTo(s, r.service, false, now.epoch) && WaitIsRight(r.service, now, ticks, indefinitely)
       case Handle(command, t, value, issued, now, switched) =>
         && (switched ==> s.LastInstant().Absolute(m) <= r.sampled)
         && Elsewhere(s, r.service, t, switched) && t in r.service.timers
         && Outcome(s.timers[t], s.history[t], r.service, t, command, value, issued, now)
  }

  function HeadOf(s: Service): Id
    requires s.current != []
  {
    s.current[0].owner
  }

  // ----- the effects keep each timer sound

  lemma {:induction false} BacklogReached(start: nat, period: nat, delay: nat)
    requires period > 0
    ensures Nth(start, period, Backlog(delay, period)) <= start + delay
    decreases delay
  {
    if delay >= period { BacklogReached(start, period, delay - period); }
  }

  /** A timer whose expiry has been handled is sound again. */
  lemma HandledIsSound(s: Service, r: Service, t: Id, at: nat, now: nat)
    requires s.Shape() && r.Shape() && t in s.Linked() && t in s.timers && s.TimerSound(t, now)
    requires Handled(s, r, t, at) && at <= now
    ensures r.TimerSound(t, now)
  {
    if s.timers[t].autoReload { HandledReload(s, r, t, at, now); } else { HandledOneShot(s, r, t, at, now); }
  }

  lemma HandledOneShot(s: Service, r: Service, t: Id, at: nat, now: nat)
    requires s.Shape() && r.Shape() && t in s.Linked() && t in s.timers && s.TimerSound(t, now)
    requires Handled(s, r, t, at) && at <= now && !s.timers[t].autoReload
    ensures r.TimerSound(t, now)
  {
  }

  lemma HandledReload(s: Service, r: Service, t: Id, at: nat, now: nat)
    requires s.Shape() && r.Shape() && t in s.Linked() && t in s.timers && s.TimerSound(t, now)
    requires Handled(s, r, t, at) && at <= now && s.timers[t].autoReload
    ensures r.TimerSound(t, now)
  {
    var period, started, total := s.timers[t].period, s.history[t].started, r.history[t].fired;
    NextOnGrid(started, period, s.history[t].fired, s.Due(t), at, total);
    assert r.timers[t].active && r.timers[t].period == period && r.history[t].started == started;
    assert r.Due(t) == Nth(started, period, total + 1) && Nth(started, period, total) <= now;
  }

  /** The grid point after the calls made up to `at`. */
  lemma NextOnGrid(started: nat, period: nat, fired: nat, x: nat, at: nat, total: nat)
    requires period > 0 && x == Nth(started, period, fired + 1) && x <= at
    requires total == fired + 1 + Backlog(at - x, period)
    ensures Nth(x, period, Backlog(at - x, period) + 1) == Nth(started, period, total + 1)
    ensures Nth(started, period, total) <= at
  {
    NthAdds(started, period, fired + 1, Backlog(at - x, period));
    NthAdds(started, period, fired + 1, Backlog(at - x, period) + 1);
    BacklogReached(x, period, at - x);
  }

  lemma SameIsSound(s: Service, r: Service, t: Id, before: nat, now: nat)
    requires s.Shape() && r.Shape() && t in s.timers && s.TimerSound(t, before) && Same(s, r, t) && before <= now
    ensures r.TimerSound(t, now)
  {
  }

  /** Every timer is handled at some time up to now, or unchanged, or the one commanded. */
  ghost predicate EachAccounted(s: Service, r: Service, at: nat, except: set<Id>)
    requires s.Shape()
  {
    forall u :: u !in except ==> Same(s, r, u) || (u in s.Linked() && Handled(s, r, u, at))
  }

  lemma AccountedIsSound(s: Service, r: Service, before: nat, at: nat, now: nat, except: set<Id>)
    requires s.Sound({}, before) && r.Shape() && EachAccounted(s, r, at, except) && before <= now && at <= now
    ensures r.Sound(except, now)
  {
    forall u | u in r.timers && u !in except ensures r.TimerSound(u, now) {
      assert Same(s, r, u) || (u in s.Linked() && Handled(s, r, u, at));
      if Same(s, r, u) {
        SameIsSound(s, r, u, before, now);
      } else {
        assert s.TimerSound(u, before);
        HandledIsSound(s, r, u, at, now);
      }
    }
  }

  lemma TurnSound(d: Daemon, e: Event, r: Daemon)
    requires Enabled(d, e) && Follows(d, e, r) && e.Turn? && d.service.Sound({}, d.sampled)
    ensures r.service.Sound({}, r.sampled)
  {
    var s := d.service;
    if e.decision.Expired? {
      AccountedIsSound(s, r.service, d.sampled, r.sampled, r.sampled, {});
    } else if s.Linked() == {} || e.decision.Wait? {
      SoundLater(s, {}, d.sampled, r.sampled);
      if s.Linked() == {} { IdleInAnyEpoch(s, r.service, {}, r.sampled); }
    } else {
      AccountedIsSound(s, r.service, d.sampled, s.LastInstant().Absolute(s.modulus), r.sampled, {});
    }
  }

  /** The commanded timer itself is left sound, whatever the command. */
  lemma OutcomeIsSound(s: Service, r: Service, t: Id, command: Command, value: nat, issued: Instant, now: Instant,
                       before: nat)
    requires s.Sound({}, before) && r.Shape() && r.modulus == s.modulus && t in s.timers && t in r.timers
    requires Accepts(r.modulus, command, value, issued, now) && before <= now.Absolute(r.modulus)
    requires Outcome(s.timers[t], s.history[t], r, t, command, value, issued, now)
    ensures r.TimerSound(t, now.Absolute(r.modulus))
  {
    assert s.TimerSound(t, before);
    var p, h := r.timers[t], r.history[t];
    match command
    case Start => StartedIsSound(r, t, issued.Absolute(r.modulus), now.Absolute(r.modulus));
    case ChangePeriod => NthFirst(h.started, p.period);
    case Stop =>
    case Delete =>
  }

  lemma NthFirst(start: nat, period: nat)
    ensures Nth(start, period, 0) == start && Nth(start, period, 1) == start + period
  {
    assert Nth(start, period, 1) == Nth(start, period, 0) + period;
  }

  lemma StartedIsSound(r: Service, t: Id, issued: nat, now: nat)
    requires r.Shape() && t in r.timers && issued <= now && StartOutcome(r, t, issued, now)
    requires r.timers[t].active <==> t in r.Linked()
    ensures r.TimerSound(t, now)
  {
    BacklogReached(issued, r.timers[t].period, now - issued);
    NthFirst(issued, r.timers[t].period);
  }

  lemma HandleSound(d: Daemon, e: Event, r: Daemon)
    requires Enabled(d, e) && Follows(d, e, r) && e.Handle? && d.service.Sound({}, d.sampled)
    ensures r.service.Sound({}, r.sampled)
  {
    var s := d.service;
    var at := if e.switched then s.LastInstant().Absolute(s.modulus) else r.sampled;
    AccountedIsSound(s, r.service, d.sampled, at, r.sampled, {e.t});
    OutcomeIsSound(s, r.service, e.t, e.command, e.value, e.issued, e.now, d.sampled);
  }

  // ----- whole runs

  /** `states` are the boundaries between the events. */
  ghost predicate IsRun(states: seq<Daemon>, events: seq<Event>) {
    && |states| == |events| + 1
    && forall i :: 0 <= i < |events| ==> Enabled(states[i], events[i]) && Follows(states[i], events[i], states[i + 1])
  }

  lemma {:induction false} RunSound(states: seq<Daemon>, events: seq<Event>, i: nat)
    requires IsRun(states, events) && i <= |events| && states[0].service.Sound({}, states[0].sampled)
    ensures states[i].service.Sound({}, states[i].sampled)
  {
    if i > 0 {
      RunSound(states, events, i - 1);
      if events[i - 1].Turn? {
        TurnSound(states[i - 1], events[i - 1], states[i]);
      } else {
        HandleSound(states[i - 1], events[i - 1], states[i]);
      }
    }
  }

  /** What is so at every boundary: a timer is flagged active iff it is linked. */
  predicate FlaggedRight(s: Service, t: Id) {
    t in s.timers ==> (s.timers[t].active <==> t in s.Linked())
  }

  /** What is so whenever the daemon goes to sleep: an active timer has been called once for
      every whole period since it was started, it is not due yet, and the daemon does not
      sleep for ever. */
  predicate CalledRight(d: Daemon, decision: Decision, t: Id) {
    var s := d.service;
    decision.Wait? && t in s.timers && s.timers[t].active ==>
      && t in s.history && s.timers[t].period > 0 && t in s.Linked() && !decision.indefinitely
      && s.history[t].started <= d.sampled < s.Due(t)
      && s.history[t].fired == Backlog(d.sampled - s.history[t].started, s.timers[t].period)
  }

  lemma SleepsRight(d: Daemon, e: Event, r: Daemon, t: Id)
    requires Enabled(d, e) && Follows(d, e, r) && e.Turn? && r.service.Sound({}, r.sampled)
    ensures CalledRight(r, e.decision, t)
  {
    if e.decision.Wait? && t in r.service.timers && r.service.timers[t].active {
      assert WaitIsRight(r.service, e.now, e.decision.ticks, e.decision.indefinitely);
      WaitingIsCalledRight(r, e.now, e.decision.ticks, e.decision.indefinitely, t);
    }
  }

  lemma WaitingIsCalledRight(r: Daemon, now: Instant, ticks: nat, indefinitely: bool, t: Id)
    requires r.service.Sound({}, r.sampled) && r.sampled == now.Absolute(r.service.modulus)
    requires WaitIsRight(r.service, now, ticks, indefinitely) && t in r.service.timers && r.service.timers[t].active
    ensures CalledRight(r, Wait(ticks, indefinitely), t)
  {
    assert r.service.TimerSound(t, r.sampled);
    SleepingDaemonOwesNoCalls(r.service, now, ticks, indefinitely, t);
  }

  /** In every run, at every boundary and every sleep. */
  lemma EveryRunOnTime(states: seq<Daemon>, events: seq<Event>, i: nat, t: Id)
    requires IsRun(states, events) && i <= |events| && states[0].service.Sound({}, states[0].sampled)
    ensures FlaggedRight(states[i].service, t)
    ensures i > 0 && events[i - 1].Turn? ==> CalledRight(states[i], events[i - 1].decision, t)
  {
    RunSound(states, events, i);
    assert t in states[i].service.timers ==> states[i].service.TimerSound(t, states[i].sampled);
    if i > 0 && events[i - 1].Turn? { SleepsRight(states[i - 1], events[i - 1], states[i], t); }
  }

  // ----- what the commands say of a timer

  /** A timer as its users command it: `wanted` from a start or a change of period until it is
      stopped or deleted. */
  datatype Told = Told(period: nat, autoReload: bool, started: nat, wanted: bool)

  /** One more event, as far as t is concerned: a start counts from when it was issued, a new
      period from when it is handled, and nothing but a command for t matters. */
  function Continued(y: Told, modulus: nat, e: Event, t: Id): Told {
    if e.Turn? || e.t != t then y else
    match e.command
    case Start => y.(started := e.issued.Absolute(modulus), wanted := true)
    case ChangePeriod => y.(period := e.value, started := e.now.Absolute(modulus), wanted := true)
    case Stop => y.(wanted := false)
    case Delete => y.(wanted := false)
  }

  function ToldBy(y: Told, modulus: nat, events: seq<Event>, t: Id): Told {
    if events == [] then y else Continued(ToldBy(y, modulus, events[..|events|-1], t), modulus, events[|events|-1], t)
  }

  /** The timer does as it is told: one that is not wanted is not active, one that is and
      reloads itself is, and one that does not is active until its one call. */
  predicate Obeys(s: Service, t: Id, y: Told) {
    && t in s.timers && t in s.history
    && s.timers[t].period == y.period && s.timers[t].autoReload == y.autoReload && s.history[t].started == y.started
    && (!y.wanted ==> !s.timers[t].active)
    && (y.wanted && y.autoReload ==> s.timers[t].active)
    && (y.wanted && !y.autoReload ==> s.history[t].fired == if s.timers[t].active then 0 else 1)
  }

  /** Expiries and list switches do not change what a timer is told, and make no calls of a
      timer that is not active. */
  lemma AccountedObeys(s: Service, r: Service, before: nat, at: nat, t: Id, y: Told)
    requires s.Sound({}, before) && r.Shape() && Obeys(s, t, y)
    requires Same(s, r, t) || (t in s.Linked() && Handled(s, r, t, at))
    ensures Obeys(r, t, y) && (!s.timers[t].active ==> r.history[t] == s.history[t])
  {
    assert s.TimerSound(t, before);
  }

  lemma OutcomeObeys(s: Service, r: Service, e: Event, y: Told)
    requires s.Shape() && r.Shape() && r.modulus == s.modulus && e.Handle? && Obeys(s, e.t, y) && e.t in r.timers
    requires Accepts(r.modulus, e.command, e.value, e.issued, e.now)
    requires Outcome(s.timers[e.t], s.history[e.t], r, e.t, e.command, e.value, e.issued, e.now)
    ensures Obeys(r, e.t, Continued(y, r.modulus, e, e.t))
  {
  }

  /** What one event does to a timer it is not a command for. */
  lemma OthersAccounted(d: Daemon, e: Event, r: Daemon, t: Id) returns (at: nat)
    requires Enabled(d, e) && Follows(d, e, r) && (e.Turn? || e.t != t)
    ensures Same(d.service, r.service, t) || (t in d.service.Linked() && t in d.service.timers && t in d.service.history
                                              && d.service.timers[t].period > 0 && Handled(d.service, r.service, t, at))
  {
    var s := d.service;
    at := if e.Turn? && e.decision.Expired? then r.sampled else s.LastInstant().Absolute(s.modulus);
    if e.Turn? && !e.decision.Expired? && (s.Linked() == {} || e.decision.Wait?) {
      assert r.service == s.(epoch := r.service.epoch);
    }
  }

  lemma StepObeys(d: Daemon, e: Event, r: Daemon, t: Id, y: Told)
    requires Enabled(d, e) && Follows(d, e, r) && d.service.Sound({}, d.sampled) && Obeys(d.service, t, y)
    ensures Obeys(r.service, t, Continued(y, d.service.modulus, e, t))
    ensures (e.Turn? || e.t != t) && !d.service.timers[t].active ==> r.service.history[t] == d.service.history[t]
  {
    if e.Turn? || e.t != t {
      var at := OthersAccounted(d, e, r, t);
      AccountedObeys(d.service, r.service, d.sampled, at, t, y);
    } else {
      OutcomeObeys(d.service, r.service, e, y);
    }
  }

  /** In every run each timer is what its commands say: a stopped timer stays inactive, and
      makes no calls, until it is started again; a started one runs from the time its last
      start was issued, with the last period set. */
  lemma {:induction false} CommandsDecide(states: seq<Daemon>, events: seq<Event>, i: nat, t: Id, y: Told)
    requires IsRun(states, events) && i <= |events| && states[0].service.Sound({}, states[0].sampled)
    requires Obeys(states[0].service, t, y)
    ensures states[i].service.modulus == states[0].service.modulus
    ensures Obeys(states[i].service, t, ToldBy(y, states[0].service.modulus, events[..i], t))
    ensures i < |events| && (events[i].Turn? || events[i].t != t) && !states[i].service.timers[t].active ==>
              t in states[i + 1].service.history
              && states[i + 1].service.history[t] == states[i].service.history[t]
  {
    if i > 0 {
      CommandsDecide(states, events, i - 1, t, y);
      RunSound(states, events, i - 1);
      assert events[..i][..i - 1] == events[..i - 1];
      StepObeys(states[i - 1], events[i - 1], states[i], t,
                ToldBy(y, states[0].service.modulus, events[..i - 1], t));
    }
    if i < |events| {
      RunSound(states, events, i);
      StepObeys(states[i], events[i], states[i + 1], t, ToldBy(y, states[0].service.modulus, events[..i], t));
    }
  }
}
