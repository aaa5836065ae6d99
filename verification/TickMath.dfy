/** Unsigned tick arithmetic: values below `modulus`, sums and differences wrapped. */
module TickMath {

  function WrapAdd(a: nat, b: nat, modulus: nat): (r: nat)
    requires a < modulus && b < modulus
    ensures r < modulus
  {
    if a + b < modulus then a + b else a + b - modulus
  }

  function WrapSub(a: nat, b: nat, modulus: nat): (r: nat)
    requires a < modulus && b < modulus
    ensures r < modulus
  {
    if b <= a then a - b else a + modulus - b
  }

  lemma Reduce(x: nat, modulus: nat)
    requires x < modulus
    ensures x % modulus == x && (x + modulus) % modulus == x
  {
  }

  /** The two operations are addition and subtraction modulo `modulus`. */
  lemma WrapIsModular(a: nat, b: nat, modulus: nat)
    requires a < modulus && b < modulus
    ensures WrapAdd(a, b, modulus) == (a + b) % modulus
    ensures WrapSub(a, b, modulus) == (a + modulus - b) % modulus
    ensures WrapAdd(WrapSub(a, b, modulus), b, modulus) == a
  {
    Reduce(WrapAdd(a, b, modulus), modulus);
    Reduce(WrapSub(a, b, modulus), modulus);
  }

  /** The absolute time at which epoch n begins. */
  function EpochStart(n: nat, modulus: nat): (r: nat) {
    if n == 0 then 0 else EpochStart(n - 1, modulus) + modulus
  }

  lemma {:induction false} EpochStartIsProduct(n: nat, modulus: nat)
    ensures EpochStart(n, modulus) == n * modulus
  {
    if n > 0 { EpochStartIsProduct(n - 1, modulus); }
  }

  lemma EpochsApart(m: nat, i: nat, j: nat)
    requires i <= j
    ensures EpochStart(j, m) == EpochStart(i, m) + EpochStart(j - i, m)
    decreases j
  {
    if i < j { EpochsApart(m, i, j - 1); }
  }

  lemma EpochsOrdered(m: nat, i: nat, j: nat)
    ensures i < j ==> EpochStart(i, m) + m <= EpochStart(j, m)
  {
    if i < j { EpochsApart(m, i + 1, j); }
  }

  /** An absolute time, as the epoch and the tick count within it. */
  datatype Instant = Instant(epoch: nat, tick: nat) {
    predicate Valid(modulus: nat) { tick < modulus }

    function Absolute(modulus: nat): nat { EpochStart(epoch, modulus) + tick }

    /** The instant k ticks later. */
    function Later(modulus: nat, k: nat): (r: Instant)
      requires Valid(modulus) && k < modulus
      ensures r.Valid(modulus) && r.Absolute(modulus) == Absolute(modulus) + k
    {
      if tick + k < modulus then Instant(epoch, tick + k) else Instant(epoch + 1, tick + k - modulus)
    }
  }

  /** How two absolute times compare, in terms of their parts. */
  lemma InstantsOrdered(modulus: nat, a: Instant, b: Instant)
    requires a.Valid(modulus) && b.Valid(modulus)
    ensures a.Absolute(modulus) <= b.Absolute(modulus) <==>
            a.epoch < b.epoch || (a.epoch == b.epoch && a.tick <= b.tick)
    ensures a.epoch + 1 < b.epoch ==> a.Absolute(modulus) + modulus < b.Absolute(modulus)
    ensures a.epoch + 1 == b.epoch ==> b.Absolute(modulus) - a.Absolute(modulus) == modulus + b.tick - a.tick
  {
    EpochsOrdered(modulus, a.epoch, b.epoch);
    EpochsOrdered(modulus, b.epoch, a.epoch);
    EpochsOrdered(modulus, a.epoch + 1, b.epoch);
    assert EpochStart(a.epoch + 1, modulus) == EpochStart(a.epoch, modulus) + modulus;
  }
}
