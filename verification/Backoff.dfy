/** Exponential retry delays, with the overflow handling of the runner's 64-bit durations. */
module Backoff {
  import opened Common

  function Pow2(k: nat): (p: nat)
    ensures p >= 1
  {
    if k == 0 then 1 else 2 * Pow2(k - 1)
  }

  /** attempt - 1, saturating at zero and at 31. */
  function Exponent(attempt: nat): nat {
    Min(if attempt == 0 then 0 else attempt - 1, 31)
  }

  function CheckedMul(duration: nat, factor: nat): Option<nat> {
    if duration * factor <= MAX_DURATION then Some(duration * factor) else None
  }

  function Delay(base: nat, cap: nat, attempt: nat): nat {
    match CheckedMul(base, Pow2(Exponent(attempt)))
    case Some(product) => Min(product, cap)
    case None => Min(cap, cap)
  }

  /** The overflow fallback is invisible: the delay is the capped exponential over unbounded integers. */
  lemma DelayIsCappedExponential(base: nat, cap: nat, attempt: nat)
    requires cap <= MAX_DURATION
    ensures Delay(base, cap, attempt) == Min(base * Pow2(Exponent(attempt)), cap)
  {
  }

  lemma {:induction false} Pow2Monotone(a: nat, b: nat)
    requires a <= b
    ensures Pow2(a) <= Pow2(b)
  {
    if a < b {
      Pow2Monotone(a, b - 1);
    }
  }

  lemma ProductMonotone(base: nat, a: nat, b: nat)
    requires a <= b
    ensures base * a <= base * b
  {
  }

  /** Later attempts never wait less, and every wait lies between the base delay and the cap. */
  lemma DelayGrowsWithinBounds(base: nat, cap: nat, attempt: nat, later: nat)
    requires base <= cap <= MAX_DURATION && attempt <= later
    ensures base <= Delay(base, cap, attempt) <= Delay(base, cap, later) <= cap
  {
    Pow2Monotone(Exponent(attempt), Exponent(later));
    ProductMonotone(base, 1, Pow2(Exponent(attempt)));
    ProductMonotone(base, Pow2(Exponent(attempt)), Pow2(Exponent(later)));
    DelayIsCappedExponential(base, cap, attempt);
    DelayIsCappedExponential(base, cap, later);
  }

  /**
   The first attempt waits the base delay, each further one twice as long up to the cap, and from the 32nd on the wait
   stays the same.
   */
  lemma DelayDoubles(base: nat, cap: nat, attempt: nat)
    requires base <= cap <= MAX_DURATION
    ensures Delay(base, cap, 0) == Delay(base, cap, 1) == base
    ensures 1 <= attempt < 32 ==>
      var delay := Delay(base, cap, attempt);
      Delay(base, cap, attempt + 1) == if 2 * delay <= cap then 2 * delay else cap
    ensures attempt >= 32 ==> Delay(base, cap, attempt) == Delay(base, cap, 32)
  {
    if 1 <= attempt < 32 {
      Doubling(base, attempt);
    }
  }

  lemma Doubling(base: nat, attempt: nat)
    requires 1 <= attempt < 32
    ensures base * Pow2(Exponent(attempt + 1)) == 2 * (base * Pow2(Exponent(attempt)))
  {
    assert Pow2(Exponent(attempt + 1)) == 2 * Pow2(Exponent(attempt));
  }
}
