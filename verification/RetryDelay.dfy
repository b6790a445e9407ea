/** The delay before a failed webhook is retried: exponential backoff with a stable jitter. */
module RetryDelay {
  import opened Arithmetic
  import opened Int64

  const SECOND: int := 1_000_000_000

  datatype RetryConfig = RetryConfig(baseDelay: int, maxDelay: int)

  /** The ranges that configuration loading enforces. */
  predicate Configured(c: RetryConfig) {
    SECOND <= c.baseDelay <= 3600 * SECOND && c.baseDelay <= c.maxDelay <= 24 * 3600 * SECOND
  }

  function Pow2(n: nat): nat {
    if n == 0 then 1 else 2 * Pow2(n - 1)
  }

  function Shift(attempt: int): nat {
    if attempt < 1 then 0 else if attempt - 1 > 20 then 20 else attempt - 1
  }

  /** `digestByte` is the first byte of the hash of the event id and the attempt. */
  function Delay(c: RetryConfig, attempt: int, digestByte: nat): int {
    var shifted := Wrap(c.baseDelay * Pow2(Shift(attempt)));
    var delay := if shifted <= 0 || shifted > c.maxDelay then c.maxDelay else shifted;
    if delay <= 0 then SECOND
    else
      var jitter := Quot(Wrap(delay * (digestByte % 21)), 100);
      if Wrap(delay + jitter) > c.maxDelay && c.maxDelay > 0 then c.maxDelay else Wrap(delay + jitter)
  }

  /** The capped exponential backoff in exact arithmetic. */
  function Backoff(c: RetryConfig, attempt: int): int {
    var exact := c.baseDelay * Pow2(if attempt < 1 then 0 else attempt - 1);
    if exact > c.maxDelay then c.maxDelay else exact
  }

  lemma {:induction false} Pow2Grows(m: nat, n: nat)
    requires m <= n
    ensures 1 <= Pow2(m) <= Pow2(n)
    ensures m < n ==> 2 * Pow2(m) <= Pow2(n)
  {
    if m < n {
      Pow2Grows(m, n - 1);
    } else if m > 0 {
      Pow2Grows(m - 1, n - 1);
    }
  }

  lemma Pow2Of20()
    ensures Pow2(20) == 1048576
  {
    assert Pow2(4) == 16;
    assert Pow2(8) == 256;
    assert Pow2(12) == 4096;
    assert Pow2(16) == 65536;
  }

  /** Every intermediate value of the computation is the exact one. */
  lemma {:induction false} NothingOverflows(c: RetryConfig, attempt: int, digestByte: nat)
    requires Configured(c)
    ensures Fits(c.baseDelay * Pow2(Shift(attempt)))
    ensures forall delay | 0 <= delay <= c.maxDelay :: Fits(delay * (digestByte % 21)) && Fits(delay + delay * (digestByte % 21) / 100)
  {
    Pow2Grows(Shift(attempt), 20);
    Pow2Of20();
    ScalesUp(c.baseDelay, Pow2(Shift(attempt)), 1048576);
    ScalesUp(c.baseDelay, 0, Pow2(Shift(attempt)));
    forall delay | 0 <= delay <= c.maxDelay
      ensures Fits(delay * (digestByte % 21)) && Fits(delay + delay * (digestByte % 21) / 100)
    {
      ScalesUp(delay, digestByte % 21, 20);
      ScalesUp(delay, 0, digestByte % 21);
    }
  }

  /** Cutting the shift at 20 never matters: by then the delay has reached its maximum. */
  lemma ShiftCutIsHarmless(c: RetryConfig, attempt: int)
    requires Configured(c)
    ensures var shifted := c.baseDelay * Pow2(Shift(attempt));
            shifted >= c.baseDelay && Backoff(c, attempt) == if shifted > c.maxDelay then c.maxDelay else shifted
  {
    Pow2Grows(0, Shift(attempt));
    ScalesUp(c.baseDelay, 1, Pow2(Shift(attempt)));
    if attempt > 21 {
      CappedAfter20(c, 20);
      CappedAfter20(c, attempt - 1);
    }
  }

  lemma CappedAfter20(c: RetryConfig, shift: nat)
    requires Configured(c) && shift >= 20
    ensures c.baseDelay * Pow2(shift) > c.maxDelay
  {
    Pow2Of20();
    Pow2Grows(20, shift);
    ScalesUp(c.baseDelay, 1048576, Pow2(shift));
  }

  /** The delay is the exact backoff plus as many hundredths of it as the digest says, at most a fifth,
      and never above the maximum. */
  lemma {:induction false} DelayIsJitteredBackoff(c: RetryConfig, attempt: int, digestByte: nat)
    requires Configured(c)
    ensures var (delay, exact) := (Delay(c, attempt, digestByte), Backoff(c, attempt));
            && SECOND <= exact <= delay <= c.maxDelay
            && 5 * (delay - exact) <= exact
            && delay == (if exact + exact * (digestByte % 21) / 100 > c.maxDelay then c.maxDelay
                         else exact + exact * (digestByte % 21) / 100)
  {
    NothingOverflows(c, attempt, digestByte);
    ShiftCutIsHarmless(c, attempt);
    var exact := Backoff(c, attempt);
    ScalesUp(exact, digestByte % 21, 20);
    ScalesUp(exact, 0, digestByte % 21);
  }

  /** Whatever the jitter, a later attempt never waits less than an earlier one. */
  lemma {:induction false} DelayIsMonotone(c: RetryConfig, attempt: int, attempt': int, digestByte: nat, digestByte': nat)
    requires Configured(c) && 1 <= attempt < attempt'
    ensures Delay(c, attempt, digestByte) <= Delay(c, attempt', digestByte')
  {
    DelayIsJitteredBackoff(c, attempt, digestByte);
    DelayIsJitteredBackoff(c, attempt', digestByte');
    BackoffDoubles(c, attempt, attempt');
  }

  lemma BackoffDoubles(c: RetryConfig, attempt: int, attempt': int)
    requires Configured(c) && 1 <= attempt < attempt'
    ensures Backoff(c, attempt') == c.maxDelay || 2 * Backoff(c, attempt) <= Backoff(c, attempt')
  {
    Pow2Grows(attempt - 1, attempt' - 1);
    var p, q := Pow2(attempt - 1), Pow2(attempt' - 1);
    ScalesUp(c.baseDelay, 2 * p, q);
    assert c.baseDelay * (2 * p) == 2 * (c.baseDelay * p);
  }
}
