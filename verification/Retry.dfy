/** Exponential backoff with equal jitter, in nanoseconds with the machine's integer widths. */
module Retry {
  import opened Jobs

  const U64_MAX: nat := 0xFFFF_FFFF_FFFF_FFFF
  const U128_MAX: nat := 0xFFFF_FFFF_FFFF_FFFF_FFFF_FFFF_FFFF_FFFF
  /** 64-bit seconds plus 999 999 999 nanoseconds. */
  const DURATION_MAX: nat := U64_MAX * 1_000_000_000 + 999_999_999

  type Duration = n: nat | n <= DURATION_MAX

  datatype Policy = Policy(maxAttempts: u32, baseDelay: Duration, maxDelay: Duration, jitter: bool)

  function Pow2(n: nat): (p: nat)
    ensures 1 <= p
  {
    if n == 0 then 1 else 2 * Pow2(n - 1)
  }

  function SaturatingPred(n: u32): u32 {
    if n == 0 then 0 else n - 1
  }

  function CheckedMulU128(a: nat, b: nat): Option<nat> {
    if a * b <= U128_MAX then Some(a * b) else None
  }

  function SaturatingMulPow2(base: Duration, exp: u32): Duration {
    if exp == 0 || base == 0 then base
    else if exp >= 128 then DURATION_MAX
    else match CheckedMulU128(base, Pow2(exp))
      case Some(n) => if n <= U64_MAX then n else DURATION_MAX
      case None => DURATION_MAX
  }

  function DurationAsNanosU64(d: Duration): nat {
    Min(d, U64_MAX)
  }

  /** The delay before jitter. */
  function Raw(p: Policy, attempt: u32): Duration {
    Min(SaturatingMulPow2(p.baseDelay, SaturatingPred(attempt)), p.maxDelay)
  }

  /** The documented formula, over unbounded integers. */
  function Documented(p: Policy, attempt: u32): nat {
    Min(p.maxDelay, p.baseDelay * Pow2(SaturatingPred(attempt)))
  }

  /** The delays one call may return. */
  predicate Permitted(p: Policy, attempt: u32, d: nat) {
    var raw := Raw(p, attempt);
    if p.jitter then raw / 2 <= d <= raw / 2 + DurationAsNanosU64(raw / 2) || (raw == 0 && d == 0)
    else d == raw
  }

  /** The random draw is any value of its range; that the result is a Duration shows that the sum cannot overflow. */
  method DelayForAttempt(p: Policy, attempt: u32) returns (d: Duration)
    ensures Permitted(p, attempt, d)
    ensures d <= Raw(p, attempt) <= p.maxDelay
    ensures p.jitter ==> Raw(p, attempt) / 2 <= d <= 2 * (Raw(p, attempt) / 2)
    ensures !p.jitter ==> d == Raw(p, attempt)
  {
    var raw := Raw(p, attempt);
    if !p.jitter || raw == 0 {
      return raw;
    }
    var half: Duration := raw / 2;
    var halfNanos := DurationAsNanosU64(half);
    var extra := 0;
    if halfNanos != 0 {
      extra :| 0 <= extra <= halfNanos;
    }
    d := half + extra;
  }

  /** Every permitted delay lies in the documented band and never exceeds the cap. */
  lemma PermittedBand(p: Policy, attempt: u32, d: nat)
    requires Permitted(p, attempt, d)
    ensures Raw(p, attempt) / 2 <= d <= Raw(p, attempt) <= p.maxDelay
    ensures p.jitter ==> d <= 2 * (Raw(p, attempt) / 2)
  {
    var raw := Raw(p, attempt);
    assert 2 * (raw / 2) <= raw;
  }

  lemma {:induction false} Pow2Monotone(a: nat, b: nat)
    requires a <= b
    ensures Pow2(a) <= Pow2(b)
    decreases b - a
  {
    if a < b {
      Pow2Monotone(a, b - 1);
    }
  }

  lemma {:induction false} Pow2Sum(a: nat, b: nat)
    ensures Pow2(a + b) == Pow2(a) * Pow2(b)
  {
    if b > 0 {
      Pow2Sum(a, b - 1);
    }
  }

  lemma Pow2Double(n: nat, p: nat)
    requires Pow2(n) == p
    ensures Pow2(n + n) == p * p
  {
    Pow2Sum(n, n);
  }

  // The exponent is a variable so that the verifier does not unfold 128 literal doublings.
  lemma Pow2At128(n: nat)
    requires n == 128
    ensures Pow2(n) == U128_MAX + 1
  {
    var e := n / 32;
    assert e == 4 && Pow2(4) == 16;
    Pow2Double(e, 16);
    Pow2Double(e + e, 0x100);
    Pow2Double(n / 8, 0x1_0000);
    Pow2Double(n / 4, 0x1_0000_0000);
    Pow2Double(n / 2, 0x1_0000_0000_0000_0000);
  }

  lemma MulMonotone(a: nat, b: nat, c: nat, d: nat)
    requires a <= b && c <= d
    ensures a * c <= b * d
  {
    calc {
      a * c;
    <= { assert a * (d - c) >= 0; }
      a * d;
    <= { assert (b - a) * d >= 0; }
      b * d;
    }
  }

  /** What the saturating product is, without the intermediate 128-bit arithmetic. */
  lemma SaturatingMulPow2Value(base: Duration, exp: u32)
    ensures SaturatingMulPow2(base, exp) ==
            if exp == 0 || base * Pow2(exp) <= U64_MAX then base * Pow2(exp) else DURATION_MAX
  {
    if base != 0 && exp >= 128 {
      var limit: nat :| limit == 128;
      Pow2At128(limit);
      Pow2Monotone(limit, exp);
      MulMonotone(1, base, Pow2(limit), Pow2(exp));
    }
  }

  lemma RawMonotone(p: Policy, a: u32, b: u32)
    requires a <= b
    ensures Raw(p, a) <= Raw(p, b)
  {
    var m, n := SaturatingPred(a), SaturatingPred(b);
    SaturatingMulPow2Value(p.baseDelay, m);
    SaturatingMulPow2Value(p.baseDelay, n);
    Pow2Monotone(m, n);
    MulMonotone(p.baseDelay, p.baseDelay, Pow2(m), Pow2(n));
  }

  /** Exactly when the code computes the documented formula: the product is a u64 number of
      nanoseconds, or reaches the cap, or no doubling happens. */
  lemma RawIsDocumentedIff(p: Policy, attempt: u32)
    ensures var product := p.baseDelay * Pow2(SaturatingPred(attempt));
            Raw(p, attempt) == Documented(p, attempt)
            <==> attempt <= 1 || product <= U64_MAX || p.maxDelay <= product
  {
    SaturatingMulPow2Value(p.baseDelay, SaturatingPred(attempt));
  }

  /** A policy whose cap fits in u64 nanoseconds (584 years) always follows the formula. */
  lemma RawIsDocumentedForSmallCap(p: Policy, attempt: u32)
    requires p.maxDelay <= U64_MAX
    ensures Raw(p, attempt) == Documented(p, attempt)
  {
    RawIsDocumentedIff(p, attempt);
  }

  /** A product between the u64 limit and a larger cap jumps to the cap. */
  lemma RawCanMissTheFormula()
    ensures Raw(Policy(3, U64_MAX, 4 * U64_MAX, false), 2) == 4 * U64_MAX
    ensures Documented(Policy(3, U64_MAX, 4 * U64_MAX, false), 2) == 2 * U64_MAX
  {
    var p := Policy(3, U64_MAX, 4 * U64_MAX, false);
    assert Pow2(1) == 2;
    SaturatingMulPow2Value(p.baseDelay, 1);
  }

  /** The most that failures with claim numbers 1 .. limit - 1 may ask for. */
  function BackoffBudget(p: Policy, limit: u32): nat {
    if limit <= 1 then 0 else BackoffBudget(p, limit - 1) + Raw(p, limit - 1)
  }

  /** The same sum by the documented formula. */
  function DocumentedBudget(p: Policy, limit: u32): nat {
    if limit <= 1 then 0 else DocumentedBudget(p, limit - 1) + Documented(p, limit - 1)
  }

  lemma {:induction false} BudgetIsDocumented(p: Policy, limit: u32)
    requires p.maxDelay <= U64_MAX
    ensures BackoffBudget(p, limit) == DocumentedBudget(p, limit)
  {
    if limit > 1 {
      BudgetIsDocumented(p, limit - 1);
      RawIsDocumentedForSmallCap(p, limit - 1);
    }
  }
}
