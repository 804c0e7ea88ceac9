/** Establishment retry, shared word for word by the ClaudeCode and Codex
    providers: an attempt that fails with HTTP 429 is retried after a wait that
    starts at one second and doubles, at most five times; any other outcome,
    and a 429 once the retries are spent, is surfaced at once. */
module Retry {
  import opened Common

  const MaxRetries: nat := 5

  /** The first wait, in seconds. */
  const InitialWait: nat := 1

  /** The only failure that is retried: `ApiError` with status 429. */
  predicate IsRateLimited<T>(r: Result<T>) {
    r.Err? && r.error.ApiError? && r.error.statusCode == Some(TooManyRequests)
  }

  function Pow2(k: nat): nat {
    if k == 0 then 1 else 2 * Pow2(k - 1)
  }

  /** The waits before retries number 1 .. n: 1, 2, 4, ... seconds. */
  function Backoff(n: nat): (w: seq<nat>)
    ensures |w| == n
  {
    if n == 0 then [] else Backoff(n - 1) + [InitialWait * Pow2(n - 1)]
  }

  function Sum(s: seq<nat>): nat {
    if s == [] then 0 else Sum(s[..|s| - 1]) + s[|s| - 1]
  }

  /** The number of retries the policy makes when attempt number k (from 0)
      has outcome attempt(k): the count of leading rate-limited attempts,
      capped at MaxRetries. */
  function Retries<T>(attempt: nat -> Result<T>): (n: nat)
    ensures n <= MaxRetries
    ensures forall k :: 0 <= k < n ==> IsRateLimited(attempt(k))
    ensures n < MaxRetries ==> !IsRateLimited(attempt(n))
  {
    RetriesFrom(attempt, 0)
  }

  function RetriesFrom<T>(attempt: nat -> Result<T>, k: nat): (n: nat)
    requires k <= MaxRetries
    requires forall j :: 0 <= j < k ==> IsRateLimited(attempt(j))
    ensures k <= n <= MaxRetries
    ensures forall j :: 0 <= j < n ==> IsRateLimited(attempt(j))
    ensures n < MaxRetries ==> !IsRateLimited(attempt(n))
    decreases MaxRetries - k
  {
    if k < MaxRetries && IsRateLimited(attempt(k)) then RetriesFrom(attempt, k + 1) else k
  }

  /** The retry loop around stream establishment. attempt(k) is the outcome of
      the k-th call of `send_and_stream`; `waits` records the sleeps. */
  method Establish<T>(attempt: nat -> Result<T>) returns (r: Result<T>, waits: seq<nat>)
    ensures |waits| == Retries(attempt)
    ensures waits == Backoff(|waits|)
    ensures r == attempt(|waits|)
  {
    var retryCount: nat := 0;
    var waitTime: nat := InitialWait;
    waits := [];
    while true
      invariant retryCount == |waits| <= MaxRetries
      invariant waits == Backoff(retryCount) && waitTime == InitialWait * Pow2(retryCount)
      invariant forall k :: 0 <= k < retryCount ==> IsRateLimited(attempt(k))
      decreases MaxRetries - retryCount
    {
      var outcome := attempt(retryCount);
      if IsRateLimited(outcome) && retryCount < MaxRetries {
        retryCount := retryCount + 1;
        waits := waits + [waitTime];
        waitTime := waitTime * 2;
      } else {
        assert retryCount == RetriesFrom(attempt, retryCount) == Retries(attempt) by {
          RetriesFromIsFirstStop(attempt, 0, retryCount);
        }
        return outcome, waits;
      }
    }
  }

  /** Retries is the first index that stops the loop, whatever the index the
      count starts from. */
  lemma {:induction false} RetriesFromIsFirstStop<T>(attempt: nat -> Result<T>, k: nat, stop: nat)
    requires k <= stop <= MaxRetries
    requires forall j :: 0 <= j < stop ==> IsRateLimited(attempt(j))
    requires stop == MaxRetries || !IsRateLimited(attempt(stop))
    ensures RetriesFrom(attempt, k) == stop
    decreases stop - k
  {
    if k < stop {
      RetriesFromIsFirstStop(attempt, k + 1, stop);
    }
  }

  /** The waits are 1, 2, 4, 8, 16 seconds. */
  lemma BackoffSchedule()
    ensures Backoff(MaxRetries) == [1, 2, 4, 8, 16]
  {
  }

  /** Retrying n times waits 2^n - 1 seconds in all, so at most 31 seconds. */
  lemma {:induction false} TotalWait(n: nat)
    ensures Sum(Backoff(n)) == Pow2(n) - 1
    ensures n <= MaxRetries ==> Sum(Backoff(n)) <= 31
  {
    if n > 0 {
      TotalWait(n - 1);
      assert Backoff(n)[..n - 1] == Backoff(n - 1);
    }
    if n <= MaxRetries {
      Pow2Monotone(n, MaxRetries);
    }
  }

  lemma {:induction false} Pow2Monotone(a: nat, b: nat)
    requires a <= b
    ensures Pow2(a) <= Pow2(b)
    decreases b - a
  {
    if a < b { Pow2Monotone(a, b - 1); }
  }

  /** Four rate-limited attempts followed by another outcome: four retries, and
      the fifth attempt's outcome is the one surfaced. */
  lemma FourRateLimitsThenOther<T>(attempt: nat -> Result<T>)
    requires forall k :: 0 <= k < 4 ==> IsRateLimited(attempt(k))
    requires !IsRateLimited(attempt(4))
    ensures Retries(attempt) == 4
    ensures Backoff(Retries(attempt)) == [1, 2, 4, 8]
  {
  }

  /** When every attempt is rate limited, five retries are made and the sixth
      attempt's 429 is surfaced; there is no seventh attempt. */
  lemma AlwaysRateLimited<T>(attempt: nat -> Result<T>)
    requires forall k :: 0 <= k <= MaxRetries ==> IsRateLimited(attempt(k))
    ensures Retries(attempt) == MaxRetries
    ensures IsRateLimited(attempt(Retries(attempt)))
  {
  }

  /** An error other than 429 on the first attempt is surfaced without retry. */
  lemma OtherErrorNotRetried<T>(attempt: nat -> Result<T>)
    requires attempt(0).Err? && !IsRateLimited(attempt(0))
    ensures Retries(attempt) == 0
  {
  }
}
