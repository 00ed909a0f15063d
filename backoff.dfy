/** The capped exponential backoff that every client call of the processors and
    of the indexer repeats inline: the first retry waits 5 s, each further wait
    doubles, no wait exceeds 600 s, and at most 5000 retries are made. Delays are
    whole seconds; nothing here waits. */
module Backoff {
  import opened Common

  const INITIAL_DELAY: nat := 5
  const MAX_DELAY: nat := 600
  const MAX_RETRIES: nat := 5000

  /** `delay *= 2; if delay > max_delay { delay = max_delay }`. */
  function NextDelay(d: nat): nat {
    if d * 2 > MAX_DELAY then MAX_DELAY else d * 2
  }

  /** The wait before retry `k + 1`. */
  function Delay(k: nat): nat {
    if k == 0 then INITIAL_DELAY else NextDelay(Delay(k - 1))
  }

  /** The waits of the first `n` retries. */
  function Schedule(n: nat): (s: seq<nat>)
    ensures |s| == n
    ensures forall k | 0 <= k < n :: s[k] == Delay(k)
  {
    if n == 0 then [] else Schedule(n - 1) + [Delay(n - 1)]
  }

  function Pow2(k: nat): nat {
    if k == 0 then 1 else 2 * Pow2(k - 1)
  }

  /** The total wait of the first `n` retries. */
  function TotalDelay(n: nat): nat {
    if n == 0 then 0 else TotalDelay(n - 1) + Delay(n - 1)
  }

  /** Every wait lies between the initial delay and the cap. */
  lemma {:induction false} DelayBounds(k: nat)
    ensures INITIAL_DELAY <= Delay(k) <= MAX_DELAY
  {
    if k > 0 {
      DelayBounds(k - 1);
    }
  }

  /** The `k`-th wait is `5 * 2^k` seconds, capped at 600. */
  lemma {:induction false} DelayClosedForm(k: nat)
    ensures Delay(k) == Min(INITIAL_DELAY * Pow2(k), MAX_DELAY)
  {
    if k > 0 {
      DelayClosedForm(k - 1);
    }
  }

  /** Waits never shrink. */
  lemma {:induction false} DelayMonotone(j: nat, k: nat)
    requires j <= k
    ensures Delay(j) <= Delay(k)
    decreases k - j
  {
    if j < k {
      DelayMonotone(j, k - 1);
      DelayBounds(k - 1);
    }
  }

  /** From the eighth retry on, every wait is the cap. */
  lemma {:induction false} DelaySaturates(k: nat)
    requires k >= 7
    ensures Delay(k) == MAX_DELAY
  {
    if k == 7 {
      assert Delay(6) == 320;
    } else {
      DelaySaturates(k - 1);
    }
  }

  /** The total wait of `n >= 7` retries: 635 s for the doubling phase, then
      600 s each. */
  lemma {:induction false} TotalWait(n: nat)
    requires n >= 7
    ensures TotalDelay(n) == 635 + (n - 7) * MAX_DELAY
  {
    if n == 7 {
      assert Delay(1) == 10 && Delay(2) == 20 && Delay(3) == 40;
      assert Delay(4) == 80 && Delay(5) == 160 && Delay(6) == 320;
      assert TotalDelay(7) == 5 + 10 + 20 + 40 + 80 + 160 + 320;
    } else {
      TotalWait(n - 1);
      DelaySaturates(n - 1);
    }
  }

  lemma {:induction false} TotalDelayMonotone(m: nat, n: nat)
    requires m <= n
    ensures TotalDelay(m) <= TotalDelay(n)
    decreases n - m
  {
    if m < n {
      TotalDelayMonotone(m, n - 1);
    }
  }

  /** However a retry loop ends, it has waited at most 2,996,435 s. */
  lemma MaxTotalWait(n: nat)
    requires n <= MAX_RETRIES
    ensures TotalDelay(n) <= 2996435
  {
    TotalDelayMonotone(n, MAX_RETRIES);
    TotalWait(MAX_RETRIES);
  }

  /** `n` retries were made on results `call(0..n)`: every one of them asked
      for a retry, and either the next result does not or the bound is reached. */
  ghost predicate RetriesMade<R>(call: nat -> R, retryable: R -> bool, maxRetries: nat, n: nat) {
    n <= maxRetries
    && (forall k | 0 <= k < n :: retryable(call(k)))
    && (retryable(call(n)) ==> n == maxRetries)
  }

  /** The number of retries is determined by the results of the calls. */
  lemma RetriesMadeUnique<R>(call: nat -> R, retryable: R -> bool, maxRetries: nat, m: nat, n: nat)
    requires RetriesMade(call, retryable, maxRetries, m)
    requires RetriesMade(call, retryable, maxRetries, n)
    ensures m == n
  {
  }

  /** The number of retries a loop makes, counting from attempt `k`. */
  function RetryCount<R>(call: nat -> R, retryable: R -> bool, maxRetries: nat, k: nat): nat
    requires k <= maxRetries
    decreases maxRetries - k
  {
    if !retryable(call(k)) || k == maxRetries then k else RetryCount(call, retryable, maxRetries, k + 1)
  }

  lemma {:induction false} RetryCountMade<R>(call: nat -> R, retryable: R -> bool, maxRetries: nat, k: nat)
    requires k <= maxRetries
    requires forall j | 0 <= j < k :: retryable(call(j))
    ensures RetriesMade(call, retryable, maxRetries, RetryCount(call, retryable, maxRetries, k))
    decreases maxRetries - k
  {
    if retryable(call(k)) && k < maxRetries {
      RetryCountMade(call, retryable, maxRetries, k + 1);
    }
  }

  /** A loop that ends on a retryable answer has seen only retryable answers,
      `maxRetries + 1` of them; one that ends on another answer ends on the
      first such answer. */
  lemma RetryCountOutcome<R>(call: nat -> R, retryable: R -> bool, maxRetries: nat)
    ensures var n := RetryCount(call, retryable, maxRetries, 0);
            n <= maxRetries
            && (retryable(call(n)) ==> forall k | 0 <= k <= maxRetries :: retryable(call(k)))
            && (!retryable(call(n)) ==> forall k | 0 <= k < n :: retryable(call(k)))
  {
    RetryCountMade(call, retryable, maxRetries, 0);
  }

  /** Every wait of a schedule lies between the initial delay and the cap. */
  lemma ScheduleBounds(n: nat)
    ensures forall k | 0 <= k < n :: INITIAL_DELAY <= Schedule(n)[k] <= MAX_DELAY
  {
    forall k | 0 <= k < n
      ensures INITIAL_DELAY <= Schedule(n)[k] <= MAX_DELAY
    {
      DelayBounds(k);
    }
  }

  /** The retry loop: `call(k)` is the result of attempt `k`; `retryable`
      says which results are retried (an `Err`, or for the validator lookup an
      `Ok(None)`). The last result is returned with the waits slept. */
  method Retry<R>(call: nat -> R, retryable: R -> bool, maxRetries: nat) returns (r: R, sleeps: seq<nat>)
    ensures RetriesMade(call, retryable, maxRetries, |sleeps|)
    ensures |sleeps| == RetryCount(call, retryable, maxRetries, 0)
    ensures r == call(|sleeps|)
    ensures sleeps == Schedule(|sleeps|)
  {
    var retries := 0;
    var delay := INITIAL_DELAY;
    sleeps := [];
    r := call(0);
    while retryable(r) && retries < maxRetries
      invariant retries == |sleeps| <= maxRetries
      invariant delay == Delay(retries)
      invariant sleeps == Schedule(retries)
      invariant forall k | 0 <= k < retries :: retryable(call(k))
      invariant r == call(retries)
      decreases maxRetries - retries
    {
      retries := retries + 1;
      sleeps := sleeps + [delay];
      delay := delay * 2;
      if delay > MAX_DELAY {
        delay := MAX_DELAY;
      }
      r := call(retries);
    }
    RetryCountMade(call, retryable, maxRetries, 0);
    RetriesMadeUnique(call, retryable, maxRetries, |sleeps|, RetryCount(call, retryable, maxRetries, 0));
  }

  predicate IsErr<T, E>(r: Result<T, E>) {
    r.Err?
  }

  predicate IsOkNone<T, E>(r: Result<Option<T>, E>) {
    r.Ok? && r.value.None?
  }

  /** The loop around a fallible call: an `Ok` ends it, an `Err` is retried
      until 5000 retries have been made, and the last `Err` is then returned. */
  method RetryOnError<T, E>(call: nat -> Result<T, E>) returns (r: Result<T, E>, sleeps: seq<nat>)
    ensures |sleeps| <= MAX_RETRIES
    ensures forall k | 0 <= k < |sleeps| :: call(k).Err?
    ensures r == call(|sleeps|)
    ensures r.Err? ==> |sleeps| == MAX_RETRIES
    ensures |sleeps| == RetryCount(call, IsErr, MAX_RETRIES, 0)
    ensures sleeps == Schedule(|sleeps|)
  {
    r, sleeps := Retry(call, IsErr, MAX_RETRIES);
  }

  /** The validator loop: an `Err` propagates at once, `Some` ends it, and
      `None` is retried until 5000 retries have been made. */
  method RetryOnNone<T, E>(call: nat -> Result<Option<T>, E>) returns (r: Result<Option<T>, E>, sleeps: seq<nat>)
    ensures |sleeps| <= MAX_RETRIES
    ensures forall k | 0 <= k < |sleeps| :: call(k) == Ok(None)
    ensures r == call(|sleeps|)
    ensures r == Ok(None) ==> |sleeps| == MAX_RETRIES
    ensures |sleeps| == RetryCount(call, IsOkNone, MAX_RETRIES, 0)
    ensures sleeps == Schedule(|sleeps|)
  {
    r, sleeps := Retry(call, IsOkNone, MAX_RETRIES);
  }
}
