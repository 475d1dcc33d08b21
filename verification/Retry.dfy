/** Retrying a step body: packages/engine/src/core/retry.ts. */
module Retry {
  import opened Base

  datatype Policy = Policy(maxAttempts: int, baseDelayMs: int)

  /** One call of the body: a value, or a thrown error that may be permanent. */
  datatype Attempt<+T> = Returned(value: T) | Threw(error: Message, permanent: bool)

  datatype Tried<+T> = Succeeded(attempts: nat, value: T) | GaveUp(attempts: nat, error: Message)

  function Limit(policy: Policy): (m: nat)
    ensures m >= 1
  {
    Max(1, policy.maxAttempts)
  }

  /** What the retry loop comes to when it is about to make attempt `k`. */
  function Outcome<T>(body: nat -> Attempt<T>, limit: nat, k: nat): Tried<T>
    decreases limit - k
  {
    match body(k)
    case Returned(v) => Succeeded(k, v)
    case Threw(e, permanent) =>
      if k < limit && !permanent then Outcome(body, limit, k + 1) else GaveUp(k, e)
  }

  lemma {:induction false} OutcomeCounts<T>(body: nat -> Attempt<T>, limit: nat, k: nat)
    ensures k <= Outcome(body, limit, k).attempts
    decreases limit - k
  {
    if body(k).Threw? && k < limit && !body(k).permanent {
      OutcomeCounts(body, limit, k + 1);
    }
  }

  /** Bodies that do the same at every attempt come to the same. */
  lemma {:induction false} SameOutcome<T>(a: nat -> Attempt<T>, b: nat -> Attempt<T>, limit: nat, k: nat)
    requires forall i :: a(i) == b(i)
    ensures Outcome(a, limit, k) == Outcome(b, limit, k)
    decreases limit - k
  {
    if a(k).Threw? && k < limit && !a(k).permanent {
      SameOutcome(a, b, limit, k + 1);
    }
  }

  // ---------------------------------------------------------------- policy and backoff

  /** `resolvePolicy`, on integer settings. */
  function ResolvePolicy(maxAttempts: Option<int>, baseDelayMs: Option<int>, defaults: Policy): Policy {
    Policy(Max(1, maxAttempts.UnwrapOr(defaults.maxAttempts)), Max(0, baseDelayMs.UnwrapOr(defaults.baseDelayMs)))
  }

  const CEILING_MS: int := 30_000

  function PowerOfTwo(n: nat): (p: nat)
    ensures p >= 1
  {
    if n == 0 then 1 else 2 * PowerOfTwo(n - 1)
  }

  function Scaled(random: real, ceiling: int): real { random * ceiling as real }

  /** Full jitter: a random part of `base * 2^(attempt-1)`, at most thirty seconds. */
  function BackoffDelay(attempt: int, baseDelayMs: int, random: real): int {
    Min(Scaled(random, baseDelayMs * PowerOfTwo(Max(0, attempt - 1))).Floor, CEILING_MS)
  }

  predicate Jitter(random: real) { 0.0 <= random < 1.0 }

  lemma {:induction false} ProductIsPositive(a: real, b: real)
    requires a >= 0.0 && b >= 0.0
    ensures a * b >= 0.0
  {
  }

  lemma {:induction false} ScaledBounds(random: real, ceiling: nat)
    requires Jitter(random)
    ensures 0 <= Scaled(random, ceiling).Floor <= ceiling
  {
    var whole, rest := ceiling as real, 1.0 - random;
    ProductIsPositive(rest, whole);
    ProductIsPositive(random, whole);
    assert (random + rest) * whole == random * whole + rest * whole;
    assert 0.0 <= Scaled(random, ceiling) <= whole;
  }

  lemma {:induction false} DelayBounds(attempt: nat, baseDelayMs: nat, random: real)
    requires Jitter(random) && attempt >= 1
    ensures 0 <= BackoffDelay(attempt, baseDelayMs, random) <= CEILING_MS
    ensures BackoffDelay(attempt, baseDelayMs, random) <= baseDelayMs * PowerOfTwo(attempt - 1)
  {
    ScaledBounds(random, baseDelayMs * PowerOfTwo(attempt - 1));
  }

  /** The delay is the largest number of milliseconds, thirty seconds at most, within the part of the window that was drawn. */
  lemma {:induction false} DelayIsLargest(attempt: nat, baseDelayMs: nat, random: real, e: int)
    requires Jitter(random) && attempt >= 1
    ensures var drawn := random * (baseDelayMs * PowerOfTwo(attempt - 1)) as real;
      e <= BackoffDelay(attempt, baseDelayMs, random) <==> e <= 30_000 && e as real <= drawn
  {
    assert Scaled(random, baseDelayMs * PowerOfTwo(attempt - 1)) == random * (baseDelayMs * PowerOfTwo(attempt - 1)) as real;
  }

  lemma {:induction false} PartOfWhole(d: real, whole: real)
    requires 0.0 <= d < whole
    ensures 0.0 <= d / whole < 1.0 && (d / whole) * whole == d
  {
  }

  /** Full jitter: every delay below the window and up to thirty seconds is one that can be drawn. */
  lemma {:induction false} FullJitter(attempt: nat, baseDelayMs: nat, d: nat) returns (random: real)
    requires attempt >= 1 && d <= 30_000 && d < baseDelayMs * PowerOfTwo(attempt - 1)
    ensures Jitter(random) && BackoffDelay(attempt, baseDelayMs, random) == d
  {
    var ceiling := baseDelayMs * PowerOfTwo(attempt - 1);
    random := d as real / ceiling as real;
    PartOfWhole(d as real, ceiling as real);
    assert Scaled(random, ceiling) == d as real;
  }

  // ---------------------------------------------------------------- the loop

  /** What `onAttempt` is told. */
  datatype Report = Report(attempt: nat, error: Option<Message>, willRetry: bool, delayMs: int)

  /** Attempt `k` is the last one: it succeeded, failed for good, or used up the policy. */
  predicate Last<T>(body: nat -> Attempt<T>, limit: nat, k: nat) {
    body(k).Returned? || body(k).permanent || k >= limit
  }

  predicate Reported<T>(body: nat -> Attempt<T>, policy: Policy, rng: nat -> real, k: nat, report: Report) {
    && report.attempt == k
    && report.error == (if body(k).Returned? then None else Some(body(k).error))
    && report.willRetry == !Last(body, Limit(policy), k)
    && report.delayMs == (if report.willRetry then BackoffDelay(k, policy.baseDelayMs, rng(k)) else 0)
  }

  /**
    `withRetry`. One report per call of the body, in order; `result` is the value, or the error, of
    the last call. `rng(k)` is the number drawn after attempt `k`.
   */
  method WithRetry<T>(body: nat -> Attempt<T>, policy: Policy, rng: nat -> real)
    returns (result: Tried<T>, reports: seq<Report>, sleptMs: int)
    ensures result == Outcome(body, Limit(policy), 1)
    ensures 1 <= |reports| == result.attempts <= Limit(policy)
    ensures forall i :: 0 <= i < |reports| ==> Reported(body, policy, rng, i + 1, reports[i])
    ensures sleptMs == Slept(reports)
  {
    var limit := Limit(policy);
    reports, sleptMs := [], 0;
    for attempt := 1 to limit + 1
      invariant |reports| == attempt - 1 && sleptMs == Slept(reports)
      invariant forall i :: 0 <= i < |reports| ==> Reported(body, policy, rng, i + 1, reports[i])
      invariant attempt <= limit && Outcome(body, limit, 1) == Outcome(body, limit, attempt)
    {
      match body(attempt)
      case Returned(value) =>
        SleptAppend(reports, Report(attempt, None, false, 0));
        reports := reports + [Report(attempt, None, false, 0)];
        return Succeeded(attempt, value), reports, sleptMs;
      case Threw(error, permanent) =>
        var canRetry := attempt < limit && !permanent;
        var delayMs := if canRetry then BackoffDelay(attempt, policy.baseDelayMs, rng(attempt)) else 0;
        SleptAppend(reports, Report(attempt, Some(error), canRetry, delayMs));
        reports := reports + [Report(attempt, Some(error), canRetry, delayMs)];
        if !canRetry {
          return GaveUp(attempt, error), reports, sleptMs;
        }
        sleptMs := sleptMs + delayMs;
    }
  }

  function Slept(reports: seq<Report>): int {
    if reports == [] then 0 else reports[0].delayMs + Slept(reports[1..])
  }

  lemma {:induction false} SleptAppend(reports: seq<Report>, report: Report)
    ensures Slept(reports + [report]) == Slept(reports) + report.delayMs
  {
    if reports == [] {
      assert Slept([report]) == report.delayMs + Slept([]);
    } else {
      assert (reports + [report])[1..] == reports[1..] + [report];
      SleptAppend(reports[1..], report);
    }
  }

  // ---------------------------------------------------------------- what the loop guarantees

  /**
    The body runs exactly up to its first last attempt, and no further: the first success, the first
    permanent error, or `max(1, maxAttempts)`; what is returned or thrown is that attempt's.
   */
  lemma {:induction false} StopsAtFirstLast<T>(body: nat -> Attempt<T>, limit: nat, k: nat)
    requires k <= limit
    ensures var tried := Outcome(body, limit, k);
      && k <= tried.attempts <= limit
      && Last(body, limit, tried.attempts)
      && (forall j :: k <= j < tried.attempts ==> !Last(body, limit, j))
      && tried == (match body(tried.attempts)
                   case Returned(v) => Succeeded(tried.attempts, v)
                   case Threw(e, _) => GaveUp(tried.attempts, e))
    decreases limit - k
  {
    if !Last(body, limit, k) {
      StopsAtFirstLast(body, limit, k + 1);
    }
  }

  /**
    By the policy as it was given: attempt `k` is the last one exactly when it returned, failed for
    good or reached `maxAttempts`, and every one before it failed with another attempt allowed.
   */
  lemma {:induction false} AttemptsExactly<T>(body: nat -> Attempt<T>, policy: Policy, k: nat)
    requires k >= 1
    ensures Outcome(body, Limit(policy), 1).attempts == k <==>
      && (body(k).Returned? || body(k).permanent || k >= policy.maxAttempts)
      && forall j :: 1 <= j < k ==> body(j).Threw? && !body(j).permanent && j < policy.maxAttempts
  {
    var n := Outcome(body, Limit(policy), 1).attempts;
    StopsAtFirstLast(body, Limit(policy), 1);
    assert forall j :: j >= 1 ==> (Last(body, Limit(policy), j) <==>
        body(j).Returned? || body(j).permanent || j >= policy.maxAttempts);
    if n < k {
      assert Last(body, Limit(policy), n);
    } else if k < n {
      assert !Last(body, Limit(policy), k);
    }
  }

  /** Reports are for attempts 1 to the last, and only the last one says that no retry follows. */
  lemma {:induction false} OnlyLastIsFinal<T>(body: nat -> Attempt<T>, policy: Policy, rng: nat -> real, reports: seq<Report>)
    requires |reports| == Outcome(body, Limit(policy), 1).attempts
    requires forall i :: 0 <= i < |reports| ==> Reported(body, policy, rng, i + 1, reports[i])
    ensures forall i :: 0 <= i < |reports| ==> reports[i].attempt == i + 1
    ensures forall i :: 0 <= i < |reports| ==> (reports[i].willRetry <==> i + 1 < |reports|)
  {
    StopsAtFirstLast(body, Limit(policy), 1);
  }

  /** `k` attempts sleep for no negative time, and in total no longer than either bound. */
  lemma {:induction false} SleepBounds<T>(body: nat -> Attempt<T>, policy: Policy, rng: nat -> real, reports: seq<Report>)
    requires policy.baseDelayMs >= 0 && forall k :: Jitter(rng(k))
    requires 1 <= |reports| == Outcome(body, Limit(policy), 1).attempts
    requires forall i :: 0 <= i < |reports| ==> Reported(body, policy, rng, i + 1, reports[i])
    ensures forall i :: 0 <= i < |reports| ==> reports[i].delayMs >= 0
    ensures 0 <= Slept(reports) <= CEILING_MS * (|reports| - 1)
    ensures Slept(reports) <= policy.baseDelayMs * (PowerOfTwo(|reports| - 1) - 1)
  {
    var n := |reports| - 1;
    OnlyLastIsFinal(body, policy, rng, reports);
    SleptPrefix(policy, rng, reports, n);
    assert reports == reports[..n] + [reports[n]];
    SleptAppend(reports[..n], reports[n]);
  }

  lemma {:induction false} SleptPrefix(policy: Policy, rng: nat -> real, reports: seq<Report>, n: nat)
    requires policy.baseDelayMs >= 0 && forall k :: Jitter(rng(k))
    requires n <= |reports|
    requires forall i :: 0 <= i < n ==> reports[i].delayMs == BackoffDelay(i + 1, policy.baseDelayMs, rng(i + 1))
    ensures forall i :: 0 <= i < n ==> reports[i].delayMs >= 0
    ensures 0 <= Slept(reports[..n]) <= CEILING_MS * n
    ensures Slept(reports[..n]) <= policy.baseDelayMs * (PowerOfTwo(n) - 1)
  {
    if n > 0 {
      SleptPrefix(policy, rng, reports, n - 1);
      assert reports[..n] == reports[..n - 1] + [reports[n - 1]];
      SleptAppend(reports[..n - 1], reports[n - 1]);
      DelayBounds(n, policy.baseDelayMs, rng(n));
      Doubled(policy.baseDelayMs, PowerOfTwo(n - 1), Slept(reports[..n - 1]), reports[n - 1].delayMs);
    }
  }

  lemma {:induction false} Doubled(base: nat, power: nat, slept: int, delayMs: int)
    requires slept <= base * (power - 1) && delayMs <= base * power
    ensures slept + delayMs <= base * (2 * power - 1)
  {
    assert base * (2 * power - 1) == base * (power - 1) + base * power;
  }

  /** Unless thirty seconds are reached, the least part `least` of the first `n` windows, but for the rounding of each delay. */
  predicate SleepsEnough(slept: int, baseDelayMs: int, n: nat, least: real) {
    slept >= 30_000 || slept as real >= least * (baseDelayMs * (PowerOfTwo(n) - 1)) as real - n as real
  }

  /** Retries wait: `k` attempts sleep for at least that part of the `k - 1` windows of which at least that part was drawn. */
  lemma {:induction false} SleepAtLeast<T>(body: nat -> Attempt<T>, policy: Policy, rng: nat -> real, least: real, reports: seq<Report>)
    requires policy.baseDelayMs >= 0 && 0.0 <= least && forall k :: Jitter(rng(k)) && least <= rng(k)
    requires 1 <= |reports| == Outcome(body, Limit(policy), 1).attempts
    requires forall i :: 0 <= i < |reports| ==> Reported(body, policy, rng, i + 1, reports[i])
    ensures SleepsEnough(Slept(reports), policy.baseDelayMs, |reports| - 1, least)
  {
    var n := |reports| - 1;
    OnlyLastIsFinal(body, policy, rng, reports);
    SleptAtLeast(policy, rng, least, reports, n);
    assert reports == reports[..n] + [reports[n]];
    SleptAppend(reports[..n], reports[n]);
  }

  lemma {:induction false} SleptAtLeast(policy: Policy, rng: nat -> real, least: real, reports: seq<Report>, n: nat)
    requires policy.baseDelayMs >= 0 && 0.0 <= least && forall k :: Jitter(rng(k)) && least <= rng(k)
    requires n <= |reports|
    requires forall i :: 0 <= i < n ==> reports[i].delayMs == BackoffDelay(i + 1, policy.baseDelayMs, rng(i + 1))
    ensures Slept(reports[..n]) >= 0 && SleepsEnough(Slept(reports[..n]), policy.baseDelayMs, n, least)
  {
    if n == 0 {
      NothingYet(policy.baseDelayMs, least);
    } else {
      SleptAtLeast(policy, rng, least, reports, n - 1);
      assert reports[..n] == reports[..n - 1] + [reports[n - 1]];
      SleptAppend(reports[..n - 1], reports[n - 1]);
      OneMoreDelay(Slept(reports[..n - 1]), policy.baseDelayMs, rng(n), n, least);
    }
  }

  lemma {:induction false} NothingYet(baseDelayMs: nat, least: real)
    ensures SleepsEnough(0, baseDelayMs, 0, least)
  {
    assert baseDelayMs * (PowerOfTwo(0) - 1) == 0;
  }

  lemma {:induction false} OneMoreDelay(slept: int, baseDelayMs: nat, random: real, n: nat, least: real)
    requires n >= 1 && slept >= 0 && Jitter(random) && 0.0 <= least <= random && SleepsEnough(slept, baseDelayMs, n - 1, least)
    ensures var d := BackoffDelay(n, baseDelayMs, random); d >= 0 && SleepsEnough(slept + d, baseDelayMs, n, least)
  {
    DelayBounds(n, baseDelayMs, random);
    DelayAtLeast(n, baseDelayMs, random, least);
    Windows(baseDelayMs, PowerOfTwo(n - 1), least);
  }

  lemma {:induction false} DelayAtLeast(attempt: nat, baseDelayMs: nat, random: real, least: real)
    requires Jitter(random) && 0.0 <= least <= random && attempt >= 1
    ensures var d := BackoffDelay(attempt, baseDelayMs, random);
      d >= 30_000 || d as real >= least * (baseDelayMs * PowerOfTwo(attempt - 1)) as real - 1.0
  {
    var window := (baseDelayMs * PowerOfTwo(attempt - 1)) as real;
    ProductIsPositive(random - least, window);
    assert random * window == least * window + (random - least) * window;
    DelayIsLargest(attempt, baseDelayMs, random, BackoffDelay(attempt, baseDelayMs, random) + 1);
  }

  /** The windows up to one attempt and the next add up to those of both. */
  lemma {:induction false} Windows(base: nat, power: nat, least: real)
    ensures least * (base * (power - 1)) as real + least * (base * power) as real == least * (base * (2 * power - 1)) as real
  {
    assert base * (2 * power - 1) == base * (power - 1) + base * power;
  }
}
