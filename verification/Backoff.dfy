/** The delay before a retry (`execution/engine.rs`), in 64-bit saturating arithmetic. */
module Backoff {
  const MAX_U64: nat := 0xFFFF_FFFF_FFFF_FFFF

  type u64 = n: nat | n <= MAX_U64

  datatype BackoffPolicy = NoBackoff | Fixed(delayMs: u64) | Exponential(baseMs: u64, maxMs: u64)

  function Pow2(n: nat): (p: nat)
    ensures p > 0
  {
    if n == 0 then 1 else 2 * Pow2(n - 1)
  }

  function SaturatingMul(a: u64, b: u64): u64 {
    if a * b > MAX_U64 then MAX_U64 else a * b
  }

  function Min(a: nat, b: nat): nat { if a < b then a else b }

  lemma {:induction false} Pow2Monotone(a: nat, b: nat)
    requires a <= b
    ensures Pow2(a) <= Pow2(b)
  {
    if a < b {
      Pow2Monotone(a, b - 1);
    }
  }

  lemma ShiftFits(n: nat)
    requires n <= 20
    ensures Pow2(n) <= MAX_U64
  {
    Pow2Monotone(n, 20);
    assert Pow2(5) == 32 && Pow2(10) == 1024 && Pow2(15) == 0x8000 && Pow2(20) == 0x10_0000;
  }

  /** `retry_backoff_delay_ms`: the shift stops at 20 and the product saturates. */
  function DelayMs(policy: BackoffPolicy, nextAttempt: nat): u64 {
    match policy
    case NoBackoff => 0
    case Fixed(delayMs) => delayMs
    case Exponential(baseMs, maxMs) =>
      if nextAttempt == 0 then 0
      else
        var shift := Min(nextAttempt - 1, 20);
        ShiftFits(shift);
        Min(SaturatingMul(baseMs, Pow2(shift)), maxMs)
  }

  /**
   * Saturation is always invisible behind the cap. The stop of the shift at 20 is not: the delay
   * is the capped doubling exactly for the first 21 attempts, for a base of zero, and for caps
   * that are reached by then.
   */
  lemma DelayDoublesUpToCap(baseMs: u64, maxMs: u64, nextAttempt: nat)
    requires nextAttempt > 0
    ensures DelayMs(Exponential(baseMs, maxMs), nextAttempt) == Min(baseMs * Pow2(nextAttempt - 1), maxMs)
            <==> nextAttempt <= 21 || baseMs == 0 || maxMs <= baseMs * Pow2(20)
  {
    var shift := Min(nextAttempt - 1, 20);
    ShiftFits(shift);
    if nextAttempt > 21 {
      Pow2Doubles(nextAttempt - 1);
      ScaledTwice(baseMs, Pow2(20), Pow2(nextAttempt - 1));
    }
    hide Pow2;
  }

  lemma Pow2Doubles(n: nat)
    requires n > 20
    ensures Pow2(n) >= 2 * Pow2(20)
  {
    Pow2Monotone(20, n - 1);
  }

  lemma ScaledTwice(c: nat, x: nat, y: nat)
    requires y >= 2 * x > 0
    ensures c * y >= c * x && (c > 0 ==> c * y > c * x)
  {
    assert c * y == c * x + c * (y - x);
  }

  /** Without a policy there is no delay, a fixed one is the same for every attempt, and the first try never waits. */
  lemma PlainDelays(delayMs: u64, baseMs: u64, maxMs: u64, nextAttempt: nat)
    ensures DelayMs(NoBackoff, nextAttempt) == 0 && DelayMs(Fixed(delayMs), nextAttempt) == delayMs
    ensures DelayMs(Exponential(baseMs, maxMs), 0) == 0
    ensures DelayMs(Exponential(baseMs, maxMs), 1) == if baseMs < maxMs then baseMs else maxMs
  {
    assert Pow2(0) == 1;
  }

  lemma DelayNeverShrinks(policy: BackoffPolicy, earlier: nat, later: nat)
    requires earlier <= later
    ensures DelayMs(policy, earlier) <= DelayMs(policy, later)
    ensures policy.Exponential? ==> DelayMs(policy, later) <= policy.maxMs
  {
    if policy.Exponential? && earlier > 0 {
      var a, b := Min(earlier - 1, 20), Min(later - 1, 20);
      ShiftFits(a);
      ShiftFits(b);
      Pow2Monotone(a, b);
      hide Pow2;
      ScaledMonotone(policy.baseMs, Pow2(a), Pow2(b));
    }
  }

  lemma ScaledMonotone(c: nat, x: nat, y: nat)
    requires x <= y
    ensures c * x <= c * y
  {}
}
