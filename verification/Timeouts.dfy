/** Timeouts measured with a wrapping tick count (tasks.c): vTaskSetTimeOutState,
    xTaskCheckForTimeOut and xTaskDelayUntil, compared with absolute time. */
module Timeouts {
  import opened TickMath

  /** What the kernel can read off the clock: the tick count and the overflow counter, which
      itself wraps after `counters` epochs. */
  datatype Config = Config(modulus: nat, counters: nat) {
    predicate Valid() { modulus >= 2 && counters >= 2 }
  }

  /** The value of a wrapping counter after n increments. */
  function Counted(n: nat, counters: nat): (r: nat)
    requires counters >= 2
    ensures r < counters
  {
    if n == 0 then 0 else
    var k := Counted(n - 1, counters);
    if k + 1 < counters then k + 1 else 0
  }

  /** The overflow counter as the kernel holds it at an instant. */
  function Overflows(c: Config, i: Instant): nat
    requires c.Valid()
  {
    Counted(i.epoch, c.counters)
  }

  class TimeOut {
    var overflowCount: nat
    var timeOnEntering: nat

    constructor () { overflowCount, timeOnEntering := 0, 0; }

    /** vTaskSetTimeOutState and vTaskInternalSetTimeOutState. */
    method Set(numOfOverflows: nat, tickCount: nat)
      modifies this
      ensures overflowCount == numOfOverflows && timeOnEntering == tickCount
    {
      overflowCount := numOfOverflows;
      timeOnEntering := tickCount;
    }

    /** This records the instant at which a wait started. */
    ghost predicate Records(c: Config, start: Instant)
      requires c.Valid()
      reads this
    {
      start.Valid(c.modulus) && overflowCount == Overflows(c, start) && timeOnEntering == start.tick
    }

    /** xTaskCheckForTimeOut.  For a finite wait the answer is right in absolute time, and the
        wait goes on from now with what is left, exactly outside the blind spot; inside it a
        whole number of laps is overlooked. */
    method Check(c: Config, numOfOverflows: nat, tickCount: nat, delayAborted: bool, ticksToWait: nat,
                 ghost start: Instant, ghost now: Instant)
      returns (timedOut: bool, remaining: nat, abortedAfter: bool)
      requires c.Valid() && ticksToWait < c.modulus && Records(c, start)
      requires now.Valid(c.modulus) && numOfOverflows == Overflows(c, now) && tickCount == now.tick
      requires start.Absolute(c.modulus) <= now.Absolute(c.modulus)
      modifies this
      ensures Records(c, if timedOut || ticksToWait == c.modulus - 1 then start else now)
      ensures delayAborted ==> timedOut && remaining == ticksToWait
      ensures !delayAborted && ticksToWait == c.modulus - 1 ==> !timedOut && remaining == ticksToWait
      ensures !delayAborted && ticksToWait != c.modulus - 1 ==>
        var elapsed := now.Absolute(c.modulus) - start.Absolute(c.modulus);
        if Aliased(c, start, now, ticksToWait)
        then elapsed >= ticksToWait && !timedOut && remaining == ticksToWait - WrapSub(now.tick, start.tick, c.modulus)
        else (timedOut <==> elapsed >= ticksToWait) && remaining == if timedOut then 0 else ticksToWait - elapsed
      ensures CheckResult(timedOut, remaining, overflowCount, timeOnEntering)
           == CheckSpec(c, old(overflowCount), old(timeOnEntering), numOfOverflows, tickCount, delayAborted,
               ticksToWait)
      ensures !abortedAfter
    {
      InstantsOrdered(c.modulus, start, now);
      InstantsOrdered(c.modulus, now, start);
      var elapsedTime := WrapSub(tickCount, timeOnEntering, c.modulus);
      remaining := ticksToWait;
      abortedAfter := false;
      if delayAborted {
        timedOut := true;
      } else if ticksToWait == c.modulus - 1 {
        timedOut := false;
      } else if numOfOverflows != overflowCount && tickCount >= timeOnEntering {
        timedOut := true;
        remaining := 0;
      } else if elapsedTime < ticksToWait {
        remaining := ticksToWait - elapsedTime;
        Set(numOfOverflows, tickCount);
        timedOut := false;
      } else {
        remaining := 0;
        timedOut := true;
      }
    }
  }

  datatype CheckResult = CheckResult(timedOut: bool, remaining: nat, overflowCount: nat, timeOnEntering: nat)

  function CheckSpec(c: Config, overflowCount: nat, timeOnEntering: nat,
                     numOfOverflows: nat, tickCount: nat, delayAborted: bool, ticksToWait: nat): (r: CheckResult)
    requires c.Valid() && tickCount < c.modulus && timeOnEntering < c.modulus && ticksToWait < c.modulus
  {
    var elapsedTime := WrapSub(tickCount, timeOnEntering, c.modulus);
    if delayAborted then CheckResult(true, ticksToWait, overflowCount, timeOnEntering)
    else if ticksToWait == c.modulus - 1 then CheckResult(false, ticksToWait, overflowCount, timeOnEntering)
    else if numOfOverflows != overflowCount && tickCount >= timeOnEntering then
      CheckResult(true, 0, overflowCount, timeOnEntering)
    else if elapsedTime < ticksToWait then CheckResult(false, ticksToWait - elapsedTime, numOfOverflows, tickCount)
    else CheckResult(true, 0, overflowCount, timeOnEntering)
  }

  /** A check at `now` of a wait of `ticks` that started at `start`. */
  function CheckAt(c: Config, start: Instant, now: Instant, ticks: nat): CheckResult
    requires c.Valid() && start.Valid(c.modulus) && now.Valid(c.modulus) && ticks < c.modulus
  {
    CheckSpec(c, Overflows(c, start), start.tick, Overflows(c, now), now.tick, false, ticks)
  }

  /** What a check should answer for a finite wait. */
  function Expected(c: Config, start: Instant, now: Instant, ticks: nat): CheckResult
    requires c.Valid() && start.Absolute(c.modulus) <= now.Absolute(c.modulus)
  {
    var elapsed := now.Absolute(c.modulus) - start.Absolute(c.modulus);
    if elapsed < ticks then CheckResult(false, ticks - elapsed, Overflows(c, now), now.tick)
    else CheckResult(true, 0, Overflows(c, start), start.tick)
  }

  /** The blind spot: more than a whole lap has passed, and either the overflow counter has
      come round to its old value or the tick count is again below where it started. */
  predicate Aliased(c: Config, start: Instant, now: Instant, ticks: nat)
    requires c.Valid() && start.Valid(c.modulus) && now.Valid(c.modulus)
  {
    && now.epoch - start.epoch >= (if now.tick < start.tick then 2 else 1)
    && (Overflows(c, now) == Overflows(c, start) || now.tick < start.tick)
    && WrapSub(now.tick, start.tick, c.modulus) < ticks
  }

  /** A check agrees with absolute time exactly outside the blind spot. */
  lemma CheckExactIffNotAliased(c: Config, start: Instant, now: Instant, ticks: nat)
    requires c.Valid() && start.Valid(c.modulus) && now.Valid(c.modulus) && ticks < c.modulus - 1
    requires start.Absolute(c.modulus) <= now.Absolute(c.modulus)
    ensures CheckAt(c, start, now, ticks) == Expected(c, start, now, ticks) <==> !Aliased(c, start, now, ticks)
  {
    InstantsOrdered(c.modulus, start, now);
    InstantsOrdered(c.modulus, now, start);
  }

  /** Two waits that ought to have timed out: after exactly four laps and a tick, with an
      overflow counter of four values; and after two overflows, with the tick count again
      below where the wait started. */
  lemma LongWaitsAreMissed()
    ensures var c, start, now := Config(16, 4), Instant(0, 5), Instant(4, 6);
            && CheckAt(c, start, now, 10) == CheckResult(false, 9, 0, 6) && Expected(c, start, now, 10).timedOut
    ensures var c, start, now := Config(16, 4), Instant(0, 9), Instant(2, 3);
            && CheckAt(c, start, now, 12) == CheckResult(false, 2, 2, 3) && Expected(c, start, now, 12).timedOut
  {
    assert Counted(1, 4) == 1 && Counted(2, 4) == 2 && Counted(3, 4) == 3;
    EpochStartIsProduct(4, 16);
    EpochStartIsProduct(2, 16);
  }

  /** Repeated checks of one wait, as the blocking calls make them: each check that does not
      time out restarts the wait with what is left. */
  function Checks(c: Config, start: Instant, times: seq<Instant>, ticks: nat): CheckResult
    requires c.Valid() && start.Valid(c.modulus) && ticks < c.modulus && times != []
    requires forall i :: 0 <= i < |times| ==> times[i].Valid(c.modulus)
    decreases |times|
  {
    var r := CheckAt(c, start, times[0], ticks);
    if r.timedOut || |times| == 1 then r else Checks(c, times[0], times[1..], r.remaining)
  }

  /** Time moves on, and at most one overflow happens between two checks. */
  predicate Steady(c: Config, start: Instant, times: seq<Instant>)
    requires c.Valid()
    decreases |times|
  {
    times != [] ==>
      && times[0].Valid(c.modulus)
      && start.Absolute(c.modulus) <= times[0].Absolute(c.modulus) && times[0].epoch <= start.epoch + 1
      && Steady(c, times[0], times[1..])
  }

  lemma {:induction false} SteadyTimes(c: Config, start: Instant, times: seq<Instant>)
    requires c.Valid() && Steady(c, start, times)
    ensures forall i :: 0 <= i < |times| ==>
              times[i].Valid(c.modulus) && start.Absolute(c.modulus) <= times[i].Absolute(c.modulus)
    decreases |times|
  {
    if times != [] {
      SteadyTimes(c, times[0], times[1..]);
      forall i | 0 <= i < |times|
        ensures times[i].Valid(c.modulus) && start.Absolute(c.modulus) <= times[i].Absolute(c.modulus)
      {
        if i > 0 { assert times[i] == times[1..][i-1]; }
      }
    }
  }

  /** Over any number of checks the wait times out iff its whole length has passed, and
      otherwise exactly what is left of it remains. */
  lemma {:induction false} RepeatedChecksExact(c: Config, start: Instant, times: seq<Instant>, ticks: nat)
    requires c.Valid() && start.Valid(c.modulus) && 0 < ticks < c.modulus - 1 && times != [] && Steady(c, start, times)
    requires forall i :: 0 <= i < |times| ==> times[i].Valid(c.modulus)
    ensures var r, last := Checks(c, start, times, ticks), times[|times|-1];
            var elapsed := last.Absolute(c.modulus) - start.Absolute(c.modulus);
            && (r.timedOut <==> elapsed >= ticks)
            && (!r.timedOut ==> r.remaining == ticks - elapsed)
    decreases |times|
  {
    NotAliasedWithinOneOverflow(c, start, times[0], ticks);
    CheckExactIffNotAliased(c, start, times[0], ticks);
    var r := CheckAt(c, start, times[0], ticks);
    SteadyTimes(c, times[0], times[1..]);
    if |times| > 1 {
      assert times[1..][|times|-2] == times[|times|-1];
      if !r.timedOut {
        RepeatedChecksExact(c, times[0], times[1..], r.remaining);
      }
    }
  }

  lemma NotAliasedWithinOneOverflow(c: Config, start: Instant, now: Instant, ticks: nat)
    requires c.Valid() && start.Valid(c.modulus) && now.Valid(c.modulus) && now.epoch <= start.epoch + 1
    ensures !Aliased(c, start, now, ticks)
  {
  }

  // ----- xTaskDelayUntil

  datatype Delay = Delay(previousWake: nat, shouldDelay: bool, ticks: nat)

  function DelayUntilSpec(modulus: nat, previousWake: nat, increment: nat, tickCount: nat): (r: Delay)
    requires previousWake < modulus && increment < modulus && tickCount < modulus
    ensures r.previousWake < modulus
  {
    var timeToWake := WrapAdd(previousWake, increment, modulus);
    var shouldDelay := if tickCount < previousWake then timeToWake < previousWake && timeToWake > tickCount
                       else timeToWake < previousWake || timeToWake > tickCount;
    Delay(timeToWake, shouldDelay, if shouldDelay then WrapSub(timeToWake, tickCount, modulus) else 0)
  }

  /** xTaskDelayUntil, up to the call that puts the task on a delayed list.  Called within one
      lap of the previous wake time, it delays until one increment after that time exactly if
      that time has come. */
  method DelayUntil(c: Config, previousWake: nat, increment: nat, tickCount: nat,
                    ghost previous: Instant, ghost now: Instant) returns (r: Delay)
    requires c.Valid() && previous.Valid(c.modulus) && now.Valid(c.modulus) && 0 < increment < c.modulus
    requires previousWake == previous.tick && tickCount == now.tick
    ensures r == DelayUntilSpec(c.modulus, previousWake, increment, tickCount)
    ensures r.previousWake == previous.Later(c.modulus, increment).tick
    ensures now.Absolute(c.modulus) < previous.Absolute(c.modulus) + c.modulus
            && previous.Absolute(c.modulus) < now.Absolute(c.modulus) + c.modulus ==>
              (DelaysUntil(c, previous, increment, now, r) <==> previous.Absolute(c.modulus) <= now.Absolute(c.modulus))
  {
    var modulus := c.modulus;
    var shouldDelay := false;
    var timeToWake := WrapAdd(previousWake, increment, modulus);
    if tickCount < previousWake {
      if timeToWake < previousWake && timeToWake > tickCount {
        shouldDelay := true;
      }
    } else {
      if timeToWake < previousWake || timeToWake > tickCount {
        shouldDelay := true;
      }
    }
    var ticks := 0;
    if shouldDelay {
      ticks := WrapSub(timeToWake, tickCount, modulus);
    }
    r := Delay(timeToWake, shouldDelay, ticks);
    if now.Absolute(modulus) < previous.Absolute(modulus) + modulus
        && previous.Absolute(modulus) < now.Absolute(modulus) + modulus {
      DelayUntilExactIffPreviousPassed(c, previous, increment, now);
    }
  }

  /** The delay the caller wants: until one increment after the previous wake time. */
  predicate DelaysUntil(c: Config, previous: Instant, increment: nat, now: Instant, r: Delay) {
    var target := previous.Absolute(c.modulus) + increment;
    && (r.shouldDelay <==> target > now.Absolute(c.modulus))
    && (r.shouldDelay ==> r.ticks == target - now.Absolute(c.modulus))
  }

  /** Called within one lap of the previous wake time, the delay is right exactly when that
      wake time is not in the future. */
  lemma DelayUntilExactIffPreviousPassed(c: Config, previous: Instant, increment: nat, now: Instant)
    requires c.Valid() && previous.Valid(c.modulus) && now.Valid(c.modulus) && 0 < increment < c.modulus
    requires now.Absolute(c.modulus) < previous.Absolute(c.modulus) + c.modulus
             && previous.Absolute(c.modulus) < now.Absolute(c.modulus) + c.modulus
    ensures DelaysUntil(c, previous, increment, now, DelayUntilSpec(c.modulus, previous.tick, increment, now.tick))
            <==> previous.Absolute(c.modulus) <= now.Absolute(c.modulus)
  {
    InstantsOrdered(c.modulus, previous, now);
    InstantsOrdered(c.modulus, now, previous);
  }

  /** With a previous wake time two ticks ahead, a task that should delay for six ticks does
      not delay at all. */
  lemma FutureWakeIsNotWaitedFor()
    ensures var c, previous, now := Config(16, 4), Instant(0, 10), Instant(0, 8);
            var r := DelayUntilSpec(c.modulus, previous.tick, 4, now.tick);
            && previous.Absolute(c.modulus) + 4 == now.Absolute(c.modulus) + 6
            && !r.shouldDelay && !DelaysUntil(c, previous, 4, now, r)
  {
  }

  /** The reference time of the i-th of a series of calls. */
  function Reference(c: Config, previous: Instant, increment: nat, i: nat): (r: Instant)
    requires previous.Valid(c.modulus) && increment < c.modulus
    ensures r.Valid(c.modulus)
  {
    if i == 0 then previous else Reference(c, previous, increment, i - 1).Later(c.modulus, increment)
  }

  /** The outcomes of a series of calls made at the given times. */
  function Calls(c: Config, previousWake: nat, increment: nat, times: seq<Instant>): (r: seq<Delay>)
    requires previousWake < c.modulus && increment < c.modulus
    requires forall i :: 0 <= i < |times| ==> times[i].Valid(c.modulus)
    ensures |r| == |times|
    decreases |times|
  {
    if times == [] then [] else
    assert times[0].Valid(c.modulus);
    var d := DelayUntilSpec(c.modulus, previousWake, increment, times[0].tick);
    [d] + Calls(c, d.previousWake, increment, times[1..])
  }

  lemma {:induction false} ReferenceAdvances(c: Config, previous: Instant, increment: nat, i: nat)
    requires previous.Valid(c.modulus) && increment < c.modulus
    ensures Reference(c, previous, increment, i).Absolute(c.modulus) == previous.Absolute(c.modulus) + i * increment
  {
    if i > 0 {
      ReferenceAdvances(c, previous, increment, i - 1);
      assert i * increment == (i - 1) * increment + increment;
    }
  }

  lemma {:induction false} ReferenceShift(c: Config, previous: Instant, increment: nat, i: nat)
    requires previous.Valid(c.modulus) && increment < c.modulus
    ensures Reference(c, previous.Later(c.modulus, increment), increment, i) == Reference(c, previous, increment, i + 1)
  {
    if i > 0 { ReferenceShift(c, previous, increment, i - 1); }
  }

  /** Each call is made within one lap after its own reference time. */
  predicate Prompt(c: Config, previous: Instant, increment: nat, times: seq<Instant>)
    requires previous.Valid(c.modulus) && increment < c.modulus
  {
    forall j :: 0 <= j < |times| ==>
      && times[j].Valid(c.modulus)
      && Reference(c, previous, increment, j).Absolute(c.modulus) <= times[j].Absolute(c.modulus)
      && times[j].Absolute(c.modulus) < Reference(c, previous, increment, j).Absolute(c.modulus) + c.modulus
  }

  lemma PromptRest(c: Config, previous: Instant, increment: nat, times: seq<Instant>)
    requires previous.Valid(c.modulus) && increment < c.modulus && times != [] && Prompt(c, previous, increment, times)
    ensures Prompt(c, previous.Later(c.modulus, increment), increment, times[1..])
  {
    var rest := times[1..];
    forall j | 0 <= j < |rest|
      ensures rest[j] == times[j + 1]
      ensures Reference(c, previous.Later(c.modulus, increment), increment, j)
              == Reference(c, previous, increment, j + 1)
    {
      ReferenceShift(c, previous, increment, j);
    }
  }

  lemma CallsRest(c: Config, previous: Instant, increment: nat, times: seq<Instant>, i: nat)
    requires previous.Valid(c.modulus) && increment < c.modulus && 0 < i < |times|
    requires forall j :: 0 <= j < |times| ==> times[j].Valid(c.modulus)
    ensures Calls(c, previous.tick, increment, times)[i]
         == Calls(c, previous.Later(c.modulus, increment).tick, increment, times[1..])[i - 1]
  {
  }

  lemma {:induction false} EachCallAimsAtNextReference(c: Config, previous: Instant, increment: nat,
                                                       times: seq<Instant>, i: nat)
    requires c.Valid() && previous.Valid(c.modulus) && 0 < increment < c.modulus && i < |times|
    requires Prompt(c, previous, increment, times)
    ensures var target := Reference(c, previous, increment, i + 1).Absolute(c.modulus);
            var r := Calls(c, previous.tick, increment, times)[i];
            && (r.shouldDelay <==> target > times[i].Absolute(c.modulus))
            && (r.shouldDelay ==> r.ticks == target - times[i].Absolute(c.modulus))
    decreases |times|
  {
    if i == 0 {
      assert Reference(c, previous, increment, 0) == previous;
      DelayUntilExactIffPreviousPassed(c, previous, increment, times[0]);
    } else {
      var next, rest := previous.Later(c.modulus, increment), times[1..];
      PromptRest(c, previous, increment, times);
      CallsRest(c, previous, increment, times, i);
      ReferenceShift(c, previous, increment, i);
      EachCallAimsAtNextReference(c, next, increment, rest, i - 1);
    }
  }

  /** No drift: whatever delays or late calls came before, the i-th of a series of prompt
      calls delays until exactly previous + (i + 1) * increment. */
  lemma NoDrift(c: Config, previous: Instant, increment: nat, times: seq<Instant>, i: nat)
    requires c.Valid() && previous.Valid(c.modulus) && 0 < increment < c.modulus && i < |times|
    requires Prompt(c, previous, increment, times)
    ensures var target := previous.Absolute(c.modulus) + (i + 1) * increment;
            var r := Calls(c, previous.tick, increment, times)[i];
            && (r.shouldDelay <==> target > times[i].Absolute(c.modulus))
            && (r.shouldDelay ==> r.ticks == target - times[i].Absolute(c.modulus))
  {
    EachCallAimsAtNextReference(c, previous, increment, times, i);
    ReferenceAdvances(c, previous, increment, i + 1);
  }
}
