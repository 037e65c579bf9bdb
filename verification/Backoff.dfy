/** The delay before a retry: exponential, saturating, clamped and jittered. */
module Backoff {
  import opened Numbers
  import opened Options

  const U64_MAX: nat := 0xFFFF_FFFF_FFFF_FFFF
  const U32_MAX: nat := 0xFFFF_FFFF
  type U32 = n: nat | n <= U32_MAX

  /** A duration in nanoseconds. */
  type Duration = nat
  const MILLI := 1_000_000

  datatype RetryConfig = RetryConfig(
    maxRetries: U32, minBackoff: Duration, maxBackoff: Duration, enabled: bool, retryServerErrors: bool)

  function Pow2(k: nat): nat { if k == 0 then 1 else 2 * Pow2(k - 1) }

  /** `as_millis() as u64`: the cast keeps the low 64 bits. */
  function Millis(d: Duration): nat {
    d / MILLI % (U64_MAX + 1)
  }

  /** `1u64.checked_shl(attempt).unwrap_or(u64::MAX)` */
  function Factor(attempt: nat): nat {
    if attempt < 64 then Pow2(attempt) else U64_MAX
  }

  /** `u64::saturating_mul` */
  function SaturatingMul(a: nat, b: nat): nat {
    Min(a * b, U64_MAX)
  }

  function ClampedMillis(c: RetryConfig, attempt: nat): nat {
    Min(SaturatingMul(Millis(c.minBackoff), Factor(attempt)), Millis(c.maxBackoff))
  }

  /** `nanos` is the sub-second part of the system clock. */
  function Jitter(clamped: nat, nanos: nat): nat {
    var range := clamped - clamped / 2;
    if range > 0 then nanos % range else 0
  }

  function ComputeBackoff(c: RetryConfig, attempt: nat, retryAfter: Option<Duration>, nanos: nat): Duration {
    match retryAfter
    case Some(wait) => Min(wait, c.maxBackoff)
    case None =>
      var clamped := ClampedMillis(c, attempt);
      (clamped / 2 + Jitter(clamped, nanos)) * MILLI
  }

  // -------------------------------------------------------------------------
  // Against exact arithmetic
  // -------------------------------------------------------------------------

  /** Durations whose milliseconds the cast does not truncate. */
  predicate Fits(d: Duration) {
    d / MILLI <= U64_MAX
  }

  lemma {:induction false} Pow2Grows(j: nat, k: nat)
    requires j <= k
    ensures 0 < Pow2(j) <= Pow2(k)
    decreases k
  {
    if j < k {
      Pow2Grows(j, k - 1);
    } else if k > 0 {
      Pow2Grows(j - 1, k - 1);
    }
  }

  lemma Pow2At64()
    ensures Pow2(64) == U64_MAX + 1
  {
    assert Pow2(8) == 256;
    assert Pow2(16) == 65536 by { Pow2Adds(8, 8); }
    assert Pow2(32) == 0x1_0000_0000 by { Pow2Adds(16, 16); }
    Pow2Adds(32, 32);
  }

  lemma {:induction false} Pow2Adds(j: nat, k: nat)
    ensures Pow2(j + k) == Pow2(j) * Pow2(k)
  {
    if j > 0 {
      Pow2Adds(j - 1, k);
      assert Pow2(j + k) == 2 * (Pow2(j - 1) * Pow2(k));
    }
  }

  lemma TimesAtLeast(a: nat, b: nat, c: nat)
    requires a > 0 && b >= c
    ensures a * b >= c
  {
    assert (a - 1) * b >= 0;
  }

  /** `min(min_backoff * 2^attempt, max_backoff)` in exact arithmetic, in milliseconds. */
  function ExactMillis(c: RetryConfig, attempt: nat): nat {
    Min(c.minBackoff / MILLI * Pow2(attempt), c.maxBackoff / MILLI)
  }

  /** The 64-bit computation loses nothing: the clamped delay is exact, for every attempt. */
  lemma ClampIsExact(c: RetryConfig, attempt: nat)
    requires Fits(c.minBackoff) && Fits(c.maxBackoff)
    ensures ClampedMillis(c, attempt) == ExactMillis(c, attempt)
  {
    var base, most := c.minBackoff / MILLI, c.maxBackoff / MILLI;
    assert Millis(c.minBackoff) == base && Millis(c.maxBackoff) == most;
    if attempt >= 64 {
      Pow2At64();
      Pow2Grows(64, attempt);
      if base == 0 {
        assert base * Pow2(attempt) == 0 && base * U64_MAX == 0;
      } else {
        TimesAtLeast(base, Pow2(attempt), U64_MAX);
        TimesAtLeast(base, U64_MAX, U64_MAX);
      }
    }
  }

  /** What the casts leave of the two durations still gives the exact delay. */
  predicate CastsHarmless(c: RetryConfig, attempt: nat) {
    if Fits(c.maxBackoff)
    then Fits(c.minBackoff) || Millis(c.minBackoff) * Factor(attempt) >= c.maxBackoff / MILLI
    else c.minBackoff / MILLI * Pow2(attempt) <= Millis(c.maxBackoff)
  }

  lemma PowerAtLeast(base: nat, attempt: nat)
    ensures base * Pow2(attempt) >= base
    ensures base > 0 ==> base * Pow2(attempt) >= Pow2(attempt)
  {
    Pow2Grows(0, attempt);
    TimesMonotone(base, 1, Pow2(attempt));
    if base > 0 {
      TimesAtLeast(base, Pow2(attempt), Pow2(attempt));
    }
  }

  /** A maximum that the cast truncates is harmless only if the exponential stays below what
      is left of it, and then nothing else was cut. */
  lemma BelowTruncatedMaximum(c: RetryConfig, attempt: nat)
    requires !Fits(c.maxBackoff) && c.minBackoff / MILLI * Pow2(attempt) <= Millis(c.maxBackoff)
    ensures ClampedMillis(c, attempt) == c.minBackoff / MILLI * Pow2(attempt)
  {
    var base := c.minBackoff / MILLI;
    PowerAtLeast(base, attempt);
    assert Millis(c.minBackoff) == base;
    if attempt >= 64 {
      Pow2At64();
      Pow2Grows(64, attempt);
      assert base == 0;
      assert base * Factor(attempt) == 0;
    }
  }

  /** For all durations: the clamped delay is exact if and only if the casts are harmless. */
  lemma ClampIsExactExactly(c: RetryConfig, attempt: nat)
    ensures ClampedMillis(c, attempt) == ExactMillis(c, attempt) <==> CastsHarmless(c, attempt)
  {
    if Fits(c.minBackoff) && Fits(c.maxBackoff) {
      ClampIsExact(c, attempt);
    } else if Fits(c.maxBackoff) {
      PowerAtLeast(c.minBackoff / MILLI, attempt);
      assert Millis(c.maxBackoff) == c.maxBackoff / MILLI;
    } else if CastsHarmless(c, attempt) {
      BelowTruncatedMaximum(c, attempt);
    }
  }

  /** Harm that is done: a minimum of 2^64 ms becomes 0 ms. */
  lemma HugeDurationTruncates()
    ensures var c := RetryConfig(3, (U64_MAX + 1) * MILLI, MILLI, true, true);
            !Fits(c.minBackoff) && ClampedMillis(c, 0) == 0 && ExactMillis(c, 0) == 1
  {
    assert (U64_MAX + 1) * MILLI / MILLI == U64_MAX + 1;
    assert (U64_MAX + 1) * Pow2(0) == U64_MAX + 1;
  }

  /** Without `Retry-After` the delay lies between half the clamped delay and the clamped delay,
      which it reaches only when that is 0. */
  lemma DelayRange(c: RetryConfig, attempt: nat, nanos: nat)
    ensures var clamped := ClampedMillis(c, attempt);
            var delay := ComputeBackoff(c, attempt, None, nanos);
            clamped / 2 * MILLI <= delay <= clamped * MILLI && (delay == clamped * MILLI <==> clamped == 0)
  {
    var clamped := ClampedMillis(c, attempt);
    var range := clamped - clamped / 2;
    if range > 0 {
      assert 0 <= nanos % range < range;
    }
  }

  /** With `Retry-After` the delay is the server's, up to the configured maximum. */
  lemma ServerDelayExactly(c: RetryConfig, attempt: nat, wait: Duration, nanos: nat)
    ensures wait <= c.maxBackoff ==> ComputeBackoff(c, attempt, Some(wait), nanos) == wait
    ensures wait > c.maxBackoff ==> ComputeBackoff(c, attempt, Some(wait), nanos) == c.maxBackoff
  {
  }

  const NANOS_PER_SECOND := 1_000_000_000

  /** The milliseconds that a reading of the clock gives. */
  function MillisAt(clamped: nat, nanos: nat): nat {
    if clamped == 0 then 0 else clamped / 2 + nanos % (clamped - clamped / 2)
  }

  predicate InRange(clamped: nat, ms: nat) {
    clamped / 2 <= ms < clamped / 2 + NANOS_PER_SECOND && (ms < clamped || ms == clamped == 0)
  }

  lemma MillisInRange(clamped: nat, nanos: nat)
    requires nanos < NANOS_PER_SECOND
    ensures InRange(clamped, MillisAt(clamped, nanos))
  {
    if clamped > 0 {
      ModAtMost(nanos, clamped - clamped / 2);
    }
  }

  lemma RangeIsReached(clamped: nat, ms: nat)
    requires InRange(clamped, ms)
    ensures ms - clamped / 2 < NANOS_PER_SECOND && MillisAt(clamped, ms - clamped / 2) == ms
  {
    if clamped > 0 {
      SmallMod(ms - clamped / 2, clamped - clamped / 2);
    }
  }

  lemma SmallMod(n: nat, d: nat)
    requires n < d
    ensures n % d == n
  {
  }

  /** A delay that some reading of the clock gives. */
  ghost predicate Possible(c: RetryConfig, attempt: nat, delay: Duration) {
    exists nanos: nat :: nanos < NANOS_PER_SECOND && ComputeBackoff(c, attempt, None, nanos) == delay
  }

  /** Without `Retry-After`, the possible delays are exactly the whole milliseconds from half
      the clamped delay up to below it, as far as the nanoseconds of a second reach. */
  lemma JitterExactly(c: RetryConfig, attempt: nat, ms: nat)
    ensures Possible(c, attempt, ms * 1_000_000) <==> InRange(ClampedMillis(c, attempt), ms)
  {
    var clamped := ClampedMillis(c, attempt);
    if Possible(c, attempt, ms * 1_000_000) {
      var nanos: nat :| nanos < NANOS_PER_SECOND && ComputeBackoff(c, attempt, None, nanos) == ms * 1_000_000;
      JitterOfReading(c, attempt, nanos);
      MillisInRange(clamped, nanos);
      assert MillisAt(clamped, nanos) == ms;
    }
    if InRange(clamped, ms) {
      RangeIsReached(clamped, ms);
      JitterOfReading(c, attempt, ms - clamped / 2);
    }
  }

  lemma ModAtMost(n: nat, d: nat)
    requires d > 0
    ensures n % d < d && n % d <= n
  {
    assert n == n / d * d + n % d;
    assert n / d * d >= 0;
  }

  /** Which delay a reading gives: each nanosecond adds one millisecond to half the clamped
      delay, and they wrap around at the clamped delay. */
  lemma JitterOfReading(c: RetryConfig, attempt: nat, nanos: nat)
    ensures ComputeBackoff(c, attempt, None, nanos) == MillisAt(ClampedMillis(c, attempt), nanos) * 1_000_000
  {
  }

  /** Every delay respects the configured maximum. */
  lemma DelayIsBounded(c: RetryConfig, attempt: nat, retryAfter: Option<Duration>, nanos: nat)
    ensures ComputeBackoff(c, attempt, retryAfter, nanos) <= c.maxBackoff
  {
    if retryAfter == None {
      DelayRange(c, attempt, nanos);
      assert Millis(c.maxBackoff) <= c.maxBackoff / MILLI;
    }
  }

  /** The clamped delay never shrinks from one attempt to a later one. */
  lemma ClampGrows(c: RetryConfig, j: nat, k: nat)
    requires j <= k
    ensures ClampedMillis(c, j) <= ClampedMillis(c, k)
  {
    Pow2At64();
    Pow2Grows(j, k);
    if k >= 64 && j < 64 {
      Pow2Grows(j + 1, 64);
    }
    assert Factor(j) <= Factor(k);
    var base := Millis(c.minBackoff);
    assert base * Factor(j) <= base * Factor(k) by { TimesMonotone(base, Factor(j), Factor(k)); }
  }

  lemma TimesMonotone(a: nat, b: nat, c: nat)
    requires b <= c
    ensures a * b <= a * c
  {
    assert a * (c - b) >= 0;
  }
}
