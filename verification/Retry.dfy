/** The retry loop around one HTTP request. */
module Retry {
  import opened Options
  import opened Backoff

  /** What an attempt can end with: the request could not be built, the server answered, or
      something else failed. */
  datatype Reply =
    | BuildError
    | Success
    | ServerError(status: nat, retryAfter: Option<Duration>)
    | OtherError

  datatype Result = Returned(reply: Reply) | Unreachable

  /** `max_retries + 1` in u32 arithmetic. */
  function MaxAttempts(c: RetryConfig): U32 {
    if c.enabled then (c.maxRetries + 1) % (U32_MAX + 1) else 1
  }

  predicate Retryable(c: RetryConfig, r: Reply) {
    r.ServerError? && (r.status == 429
      || (c.retryServerErrors && (r.status == 502 || r.status == 503 || r.status == 504)))
  }

  /** Which replies are retried, by status: 429 always, 502 to 504 on request, nothing else. */
  lemma RetryableMeans(c: RetryConfig, r: Reply)
    ensures Retryable(c, r) <==>
            r.ServerError? && (r.status == 429 || (c.retryServerErrors && 502 <= r.status <= 504))
  {
  }

  /** One attempt, and `maxRetries` more when retries are enabled; in 32 bits the sum wraps. */
  lemma AllowedAttempts(c: RetryConfig)
    ensures !c.enabled ==> MaxAttempts(c) == 1
    ensures c.enabled && c.maxRetries < 0xFFFF_FFFF ==> MaxAttempts(c) == c.maxRetries + 1
    ensures c.enabled && c.maxRetries == 0xFFFF_FFFF ==> MaxAttempts(c) == 0
  {
  }

  predicate RetryableUpTo(c: RetryConfig, replies: nat -> Reply, n: nat) {
    forall k: nat :: k < n ==> Retryable(c, replies(k))
  }

  function WaitOf(r: Reply): Option<Duration>
    requires r.ServerError?
  {
    if r.status == 429 then r.retryAfter else None
  }

  /** Attempt number `m`, counted from 1, is the first that is not to be retried or the last
      that is allowed. */
  predicate StopsAt(c: RetryConfig, replies: nat -> Reply, m: nat) {
    && 0 < m <= MaxAttempts(c)
    && (forall k: nat :: k < m - 1 ==> Retryable(c, replies(k)))
    && (Retryable(c, replies(m - 1)) ==> m == MaxAttempts(c))
  }

  /** Where the loop stops, in plain terms.  It goes on as long as replies are retryable, up to
      `maxRetries` times, and never when retries are disabled. */
  lemma StopsExactly(c: RetryConfig, replies: nat -> Reply, m: nat)
    requires c.enabled ==> c.maxRetries < 0xFFFF_FFFF
    ensures StopsAt(c, replies, m) <==>
            && m > 0 && RetryableUpTo(c, replies, m - 1)
            && (c.enabled ==> m <= c.maxRetries + 1) && (!c.enabled ==> m == 1)
            && (Retryable(c, replies(m - 1)) && c.enabled ==> m == c.maxRetries + 1)
    ensures StopsAt(c, replies, m) && c.enabled ==>
              forall n: nat :: n <= c.maxRetries && RetryableUpTo(c, replies, n) ==> m > n
  {
    AllowedAttempts(c);
  }

  /** The sleeps after attempts `0..n`. */
  function Slept(c: RetryConfig, replies: nat -> Reply, clock: nat -> nat, n: nat): nat
    requires forall k: nat :: k < n ==> Retryable(c, replies(k))
  {
    if n == 0 then 0
    else
      assert Retryable(c, replies(n - 1));
      Slept(c, replies, clock, n - 1) + ComputeBackoff(c, n - 1, WaitOf(replies(n - 1)), clock(n - 1))
  }

  lemma OnceMore(n: nat, d: nat)
    ensures (n + 1) * d == n * d + d
  {
  }

  /** The sleep after retried attempt `n`: what the server asks for with a 429, up to the
      maximum; otherwise the delay of attempt `n` itself. */
  lemma SleepAfter(c: RetryConfig, replies: nat -> Reply, clock: nat -> nat, n: nat)
    requires forall k: nat :: k <= n ==> Retryable(c, replies(k))
    ensures Retryable(c, replies(n))
    ensures var slept := Slept(c, replies, clock, n + 1) - Slept(c, replies, clock, n);
            if replies(n).status == 429 && replies(n).retryAfter.Some? then
              slept == if replies(n).retryAfter.value <= c.maxBackoff then replies(n).retryAfter.value else c.maxBackoff
            else
              slept == ComputeBackoff(c, n, None, clock(n))
  {
    assert Retryable(c, replies(n));
    if WaitOf(replies(n)).Some? {
      ServerDelayExactly(c, n, WaitOf(replies(n)).value, clock(n));
    }
  }

  lemma {:induction false} SleptIsBounded(c: RetryConfig, replies: nat -> Reply, clock: nat -> nat, n: nat)
    requires forall k: nat :: k < n ==> Retryable(c, replies(k))
    ensures Slept(c, replies, clock, n) <= n * c.maxBackoff
  {
    if n > 0 {
      SleptIsBounded(c, replies, clock, n - 1);
      DelayIsBounded(c, n - 1, WaitOf(replies(n - 1)), clock(n - 1));
      OnceMore(n - 1, c.maxBackoff);
    }
  }

  /** Whatever number of attempts is allowed, the sleeps before the last one stay in bounds. */
  lemma SleptWithin(c: RetryConfig, replies: nat -> Reply, clock: nat -> nat, n: nat)
    requires n <= c.maxRetries && forall k: nat :: k < n ==> Retryable(c, replies(k))
    ensures Slept(c, replies, clock, n) <= c.maxRetries * c.maxBackoff
  {
    SleptIsBounded(c, replies, clock, n);
    TimesMonotone(c.maxBackoff, n, c.maxRetries);
  }

  /** The loop stops at the first reply that is not retryable, or at the last allowed attempt,
      and returns that reply.  `replies(k)` is what attempt `k` would end with, `clock(k)` the
      sub-second nanoseconds read after it. */
  method Request(c: RetryConfig, replies: nat -> Reply, clock: nat -> nat)
    returns (result: Result, attempts: nat, sent: nat, slept: nat)
    ensures result == Unreachable <==> c.enabled && c.maxRetries == U32_MAX
    ensures result.Returned? ==>
              && StopsAt(c, replies, attempts)
              && result.reply == replies(attempts - 1)
              && slept == Slept(c, replies, clock, attempts - 1)
              && sent == (if result.reply.BuildError? then attempts - 1 else attempts)
    ensures sent <= c.maxRetries + 1
    ensures slept <= c.maxRetries * c.maxBackoff
  {
    AllowedAttempts(c);
    var maxAttempts := MaxAttempts(c);
    sent, slept := 0, 0;
    for attempt := 0 to maxAttempts
      invariant forall k: nat :: k < attempt ==> Retryable(c, replies(k))
      invariant attempt > 0 ==> attempt < maxAttempts
      invariant sent == attempt
      invariant slept == Slept(c, replies, clock, attempt)
    {
      SleptWithin(c, replies, clock, attempt);
      var reply := replies(attempt);
      attempts := attempt + 1;
      if reply.BuildError? {
        return Returned(reply), attempts, sent, slept;
      }
      sent := sent + 1;
      if reply.Success? {
        return Returned(reply), attempts, sent, slept;
      }
      if attempt + 1 >= maxAttempts {
        return Returned(reply), attempts, sent, slept;
      }
      var retryAfter := None;
      if reply.ServerError? && reply.status == 429 {
        retryAfter := reply.retryAfter;
      } else if reply.ServerError? && c.retryServerErrors
                && (reply.status == 502 || reply.status == 503 || reply.status == 504) {
        retryAfter := None;
      } else {
        return Returned(reply), attempts, sent, slept;
      }
      slept := slept + ComputeBackoff(c, attempt, retryAfter, clock(attempt));
    }
    return Unreachable, 0, 0, 0;
  }
}
