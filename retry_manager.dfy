/**
 * The retry manager: whether an attempt is followed by another, and how long
 * to wait before it (exponential, linear or fixed backoff, capped, with
 * optional jitter).  The random draw behind jitter is replaced by a value
 * the caller supplies.
 */
module Retry {
  import opened Common
  import opened RetryModel

  /** The manager holds its options; the random generator is not modelled. */
  datatype RetryManager = RetryManager(options: RetryOptions)

  /** A manager over the given options, or over the defaults when none are given. */
  function NewRetryManager(options: Option<RetryOptions>): (rm: RetryManager)
    ensures options.None? ==> rm.options == NewRetryOptions()
    ensures options.Some? ==> rm.options == options.value
  {
    match options
    case None => RetryManager(NewRetryOptions())
    case Some(o) => RetryManager(o)
  }

  /** Whether attempt number `attempt` (0 for the first request) is followed
      by another.  `transportError` stands for a non-nil error. */
  function ShouldRetry(rm: RetryManager, attempt: int, statusCode: int, transportError: bool): (retry: bool)
    ensures attempt >= rm.options.maxRetries ==> !retry
    ensures attempt < rm.options.maxRetries ==>
              (retry <==> transportError || ShouldRetryStatus(rm.options, statusCode))
  {
    if attempt >= rm.options.maxRetries then false
    else if transportError then true
    else ShouldRetryStatus(rm.options, statusCode)
  }

  /** 2 to the power n. */
  function Pow2(n: nat): (p: nat)
    ensures p >= 1
  {
    if n == 0 then 1 else 2 * Pow2(n - 1)
  }

  lemma {:induction false} Pow2Monotone(m: nat, n: nat)
    requires m <= n
    ensures Pow2(m) <= Pow2(n)
  {
    if m < n {
      Pow2Monotone(m, n - 1);
    }
  }

  /** initialDelay * 2^attempt, exactly: the first retry waits the initial
      delay, and no later one waits less. */
  function ExponentialBackoff(rm: RetryManager, attempt: nat): (b: Duration)
    ensures attempt == 0 ==> b == rm.options.initialDelay
    ensures rm.options.initialDelay >= 0 ==> b >= rm.options.initialDelay
  {
    var d := rm.options.initialDelay;
    assert d >= 0 ==> d * Pow2(attempt) >= d by {
      if d >= 0 {
        assert d * (Pow2(attempt) - 1) >= 0;
      }
    }
    d * Pow2(attempt)
  }

  /** initialDelay * (attempt + 1): the first retry waits the initial delay,
      and no later one waits less. */
  function LinearBackoff(rm: RetryManager, attempt: nat): (b: Duration)
    ensures attempt == 0 ==> b == rm.options.initialDelay
    ensures rm.options.initialDelay >= 0 ==> b >= rm.options.initialDelay
  {
    var d := rm.options.initialDelay;
    assert d >= 0 ==> d * (attempt + 1) >= d by {
      if d >= 0 {
        assert d * attempt >= 0;
      }
    }
    d * (attempt + 1)
  }

  /** Each exponential step doubles the previous delay. */
  lemma ExponentialDoubles(rm: RetryManager, attempt: nat)
    ensures ExponentialBackoff(rm, attempt + 1) == 2 * ExponentialBackoff(rm, attempt)
  {
  }

  /** Each linear step adds the initial delay. */
  lemma LinearSteps(rm: RetryManager, attempt: nat)
    ensures LinearBackoff(rm, attempt + 1) == LinearBackoff(rm, attempt) + rm.options.initialDelay
  {
  }

  /** The delay the configured strategy asks for, before the cap; a strategy
      name that is not recognised is treated as exponential.  Under every
      strategy the first retry waits the initial delay. */
  function StrategyDelay(rm: RetryManager, attempt: nat): (d: Duration)
    ensures attempt == 0 ==> d == rm.options.initialDelay
    ensures rm.options.initialDelay >= 0 ==> d >= rm.options.initialDelay
  {
    if rm.options.backoff == BackoffExponential then ExponentialBackoff(rm, attempt)
    else if rm.options.backoff == BackoffLinear then LinearBackoff(rm, attempt)
    else if rm.options.backoff == BackoffFixed then rm.options.initialDelay
    else ExponentialBackoff(rm, attempt)
  }

  /** The jitter fraction actually used: non-positive fractions fall back to
      0.3, fractions above 1 are clamped to 1. */
  function EffectiveJitterFraction(fraction: real): (f: real)
    ensures 0.0 < f <= 1.0
    ensures 0.0 < fraction <= 1.0 ==> f == fraction
  {
    if fraction <= 0.0 then 0.3
    else if fraction > 1.0 then 1.0
    else fraction
  }

  /** A draw of the generator's Float64: uniform over [0, 1). */
  predicate UnitDraw(u: real)
  {
    0.0 <= u < 1.0
  }

  /** The half-width of the jitter interval: delay * fraction.  It is
      positive exactly for a positive delay. */
  function JitterRange(rm: RetryManager, delay: Duration): (range: real)
    ensures delay >= 0 ==> range >= 0.0
    ensures delay > 0 ==> range > 0.0
    ensures delay == 0 ==> range == 0.0
  {
    var f := EffectiveJitterFraction(rm.options.jitterFraction);
    assert delay >= 0 ==> (delay as real) * f >= 0.0 by {
      if delay >= 0 { NonNegativeProduct(delay as real, f); }
    }
    assert delay > 0 ==> (delay as real) * f > 0.0 by {
      if delay > 0 { PositiveProduct(delay as real, f); }
    }
    (delay as real) * f
  }

  /** The jitter for the unit draw `u` and the half-width `range`: the draw
      scaled onto [-range, range).  A zero range gives no jitter at all. */
  function Jitter(range: real, u: real): (j: real)
    ensures range == 0.0 ==> j == 0.0
  {
    u * 2.0 * range - range
  }

  /** For a unit draw, the jitter lies in [-range, range], strictly below
      range when range is positive. */
  lemma JitterWithin(range: real, u: real)
    requires range >= 0.0 && UnitDraw(u)
    ensures -range <= Jitter(range, u) <= range
    ensures range > 0.0 ==> Jitter(range, u) < range
  {
    DrawWithin(range, u);
  }

  /** The source's scaling of a unit draw onto [-range, range). */
  lemma DrawWithin(range: real, u: real)
    requires range >= 0.0 && UnitDraw(u)
    ensures -range <= u * 2.0 * range - range <= range
    ensures range > 0.0 ==> u * 2.0 * range - range < range
  {
    NonNegativeProduct(u * 2.0, range);
    NonPositiveProduct(range, u * 2.0 - 2.0);
    assert u * 2.0 * range - range - range == range * (u * 2.0 - 2.0);
    if range > 0.0 {
      NegativeProduct(range, u * 2.0 - 2.0);
    }
  }

  lemma NonNegativeProduct(x: real, y: real)
    requires x >= 0.0 && y >= 0.0
    ensures x * y >= 0.0
  {
  }

  lemma PositiveProduct(x: real, y: real)
    requires x > 0.0 && y > 0.0
    ensures x * y > 0.0
  {
  }

  lemma NonPositiveProduct(x: real, y: real)
    requires x >= 0.0 && y <= 0.0
    ensures x * y <= 0.0
  {
  }

  lemma NegativeProduct(x: real, y: real)
    requires x > 0.0 && y < 0.0
    ensures x * y < 0.0
  {
  }

  /** Adds the jitter for the unit draw `u` to the delay, clamps the sum at
      zero and truncates it back to whole nanoseconds. */
  function ApplyJitter(rm: RetryManager, delay: Duration, u: real): (d: Duration)
    ensures d >= 0
    ensures var sum := delay as real + Jitter(JitterRange(rm, delay), u);
            && (sum < 0.0 ==> d == 0)
            && (sum >= 0.0 ==> d as real <= sum < d as real + 1.0)
  {
    var newDelay := delay as real + Jitter(JitterRange(rm, delay), u);
    var clamped := if newDelay < 0.0 then 0.0 else newDelay;
    clamped.Floor
  }

  /** The wait before the retry that follows attempt `attempt`: the
      strategy's delay, capped at maxDelay, then jittered with the unit draw
      `draw` when jitter is enabled (the draw is ignored otherwise). */
  function CalculateDelay(rm: RetryManager, attempt: nat, draw: real): (delay: Duration)
    ensures !rm.options.jitter ==> delay <= rm.options.maxDelay
    ensures rm.options.jitter ==> delay >= 0
  {
    var strategyDelay := StrategyDelay(rm, attempt);
    var capped := if strategyDelay > rm.options.maxDelay then rm.options.maxDelay else strategyDelay;
    if rm.options.jitter then ApplyJitter(rm, capped, draw) else capped
  }

  /** Without jitter, exponential backoff yields min(initialDelay * 2^attempt, maxDelay). */
  lemma ExponentialDelay(rm: RetryManager, attempt: nat, draw: real)
    requires rm.options.backoff == BackoffExponential && !rm.options.jitter
    ensures CalculateDelay(rm, attempt, draw) ==
            Min(rm.options.initialDelay * Pow2(attempt), rm.options.maxDelay)
  {
  }

  /** Without jitter, linear backoff yields min(initialDelay * (attempt + 1), maxDelay). */
  lemma LinearDelay(rm: RetryManager, attempt: nat, draw: real)
    requires rm.options.backoff == BackoffLinear && !rm.options.jitter
    ensures CalculateDelay(rm, attempt, draw) ==
            Min(rm.options.initialDelay * (attempt + 1), rm.options.maxDelay)
  {
  }

  /** Without jitter, fixed backoff yields min(initialDelay, maxDelay) for every attempt. */
  lemma FixedDelay(rm: RetryManager, attempt: nat, draw: real)
    requires rm.options.backoff == BackoffFixed && !rm.options.jitter
    ensures CalculateDelay(rm, attempt, draw) == Min(rm.options.initialDelay, rm.options.maxDelay)
  {
  }

  /** A strategy name that is not one of the three behaves exactly like exponential. */
  lemma UnrecognisedIsExponential(rm: RetryManager, attempt: nat, draw: real)
    requires rm.options.backoff !in {BackoffExponential, BackoffLinear, BackoffFixed}
    ensures CalculateDelay(rm, attempt, draw) ==
            CalculateDelay(RetryManager(rm.options.(backoff := BackoffExponential)), attempt, draw)
  {
  }

  /** With non-negative delays, the delay without jitter never decreases
      from one attempt to the next, for every strategy. */
  lemma DelayNonDecreasing(rm: RetryManager, m: nat, n: nat, draw: real)
    requires rm.options.initialDelay >= 0 && !rm.options.jitter
    requires m <= n
    ensures CalculateDelay(rm, m, draw) <= CalculateDelay(rm, n, draw)
  {
    Pow2Monotone(m, n);
    var d := rm.options.initialDelay;
    assert d * Pow2(m) <= d * Pow2(n) by {
      assert d * (Pow2(n) - Pow2(m)) >= 0;
    }
    assert d * (m + 1) <= d * (n + 1) by {
      assert d * (n - m) >= 0;
    }
  }

  /** A jittered delay is never negative, is at least delay * (1 - fraction)
      rounded down to whole nanoseconds and at most delay * (1 + fraction),
      and stays strictly below that when the delay is positive; a zero delay
      stays zero. */
  lemma JitteredDelayBounds(rm: RetryManager, delay: Duration, draw: real)
    requires delay >= 0 && UnitDraw(draw)
    ensures var f := EffectiveJitterFraction(rm.options.jitterFraction);
            var d := ApplyJitter(rm, delay, draw);
            && d >= 0
            && ((delay as real) * (1.0 - f)).Floor <= d
            && (delay as real) * (1.0 - f) - 1.0 < d as real <= (delay as real) * (1.0 + f)
            && (delay > 0 ==> d as real < (delay as real) * (1.0 + f))
            && (delay == 0 ==> d == 0)
  {
    var f := EffectiveJitterFraction(rm.options.jitterFraction);
    var range := JitterRange(rm, delay);
    JitterWithin(range, draw);
    TruncatedBounds(delay as real, f, range, Jitter(range, draw), ApplyJitter(rm, delay, draw));
  }

  /** With jitter on, the wait before a retry obeys those bounds around the
      capped strategy delay `capped`. */
  lemma JitteredCalculateDelay(rm: RetryManager, attempt: nat, draw: real, capped: Duration)
    requires rm.options.jitter && UnitDraw(draw)
    requires capped == Min(StrategyDelay(rm, attempt), rm.options.maxDelay) && capped >= 0
    ensures CalculateDelay(rm, attempt, draw) == ApplyJitter(rm, capped, draw)
    ensures var f := EffectiveJitterFraction(rm.options.jitterFraction);
            var delay := CalculateDelay(rm, attempt, draw);
            && ((capped as real) * (1.0 - f)).Floor <= delay
            && (capped as real) * (1.0 - f) - 1.0 < delay as real <= (capped as real) * (1.0 + f)
            && (capped > 0 ==> delay as real < (capped as real) * (1.0 + f))
            && (capped == 0 ==> delay == 0)
  {
    JitteredDelayBounds(rm, capped, draw);
  }

  /** The arithmetic behind the jitter bounds: a delay c jittered by j
      within the range r = c * f, clamped at 0 and truncated to d. */
  lemma TruncatedBounds(c: real, f: real, r: real, j: real, d: int)
    requires c >= 0.0 && 0.0 < f <= 1.0 && r == c * f
    requires -r <= j <= r && (c > 0.0 ==> j < r)
    requires d >= 0 && (c + j < 0.0 ==> d == 0) && (c + j >= 0.0 ==> d as real <= c + j < d as real + 1.0)
    ensures (c * (1.0 - f)).Floor <= d
    ensures c * (1.0 - f) - 1.0 < d as real <= c * (1.0 + f)
    ensures c > 0.0 ==> d as real < c * (1.0 + f)
  {
    NonNegativeProduct(c, 1.0 - f);
    assert c * (1.0 - f) == c - r;
    assert c * (1.0 + f) == c + r;
  }

  /** The expected values of the backoff tests: with 100 ms initial delay,
      10 s cap and no jitter, exponential gives 100, 200, 400 and 800 ms,
      linear gives 100, 200, 300 and 400 ms, fixed gives 100 ms throughout. */
  lemma BackoffExamples(o: RetryOptions, attempt: nat, draw: real)
    requires o.initialDelay == 100 * Millisecond && o.maxDelay == 10 * Second && !o.jitter
    ensures var rm := RetryManager(o.(backoff := BackoffExponential));
            && CalculateDelay(rm, 0, draw) == 100 * Millisecond
            && CalculateDelay(rm, 1, draw) == 200 * Millisecond
            && CalculateDelay(rm, 2, draw) == 400 * Millisecond
            && CalculateDelay(rm, 3, draw) == 800 * Millisecond
    ensures var rm := RetryManager(o.(backoff := BackoffLinear));
            && CalculateDelay(rm, 0, draw) == 100 * Millisecond
            && CalculateDelay(rm, 1, draw) == 200 * Millisecond
            && CalculateDelay(rm, 2, draw) == 300 * Millisecond
            && CalculateDelay(rm, 3, draw) == 400 * Millisecond
    ensures CalculateDelay(RetryManager(o.(backoff := BackoffFixed)), attempt, draw) == 100 * Millisecond
  {
  }

  /** The jitter test's range: fixed 1000 ms with fraction 0.3 stays within
      700 ms and 1300 ms. */
  lemma JitterExample(o: RetryOptions, attempt: nat, draw: real)
    requires o.initialDelay == 1000 * Millisecond && o.maxDelay == 10 * Second
    requires o.backoff == BackoffFixed && o.jitter && o.jitterFraction == 0.3
    requires UnitDraw(draw)
    ensures 700 * Millisecond <= CalculateDelay(RetryManager(o), attempt, draw) < 1300 * Millisecond
  {
  }

  /** Under the default options, the delay before jitter is still below the
      30 s cap at attempt 8 (100 ms * 2^8 = 25.6 s) and is the cap from
      attempt 9 on (100 ms * 2^9 = 51.2 s). */
  lemma DefaultDelayCap(attempt: nat)
    ensures StrategyDelay(NewRetryManager(None), 8) == 25_600 * Millisecond
    ensures attempt >= 9 ==>
              Min(StrategyDelay(NewRetryManager(None), attempt), NewRetryOptions().maxDelay) == 30 * Second
  {
    assert Pow2(8) == 256 by {
      assert Pow2(4) == 16 by { assert Pow2(2) == 4; }
      assert Pow2(6) == 64 by { assert Pow2(5) == 32; }
      assert Pow2(7) == 128;
    }
    if attempt >= 9 {
      Pow2Monotone(9, attempt);
    }
  }

  /** What one physical attempt produced. */
  datatype AttemptOutcome = TransportError | Response(statusCode: int)

  /** ShouldRetry applied to an outcome. */
  predicate RetriesAfter(rm: RetryManager, attempt: int, outcome: AttemptOutcome)
  {
    match outcome
    case TransportError => ShouldRetry(rm, attempt, 0, true)
    case Response(code) => ShouldRetry(rm, attempt, code, false)
  }

  /** An outcome that asks for a retry whenever the retry budget allows. */
  predicate Retryable(opts: RetryOptions, outcome: AttemptOutcome)
  {
    outcome.TransportError? || ShouldRetryStatus(opts, outcome.statusCode)
  }

  /** Issues attempts 0, 1, 2, ... against a server whose answer to attempt
      i is outcome(i), for as long as ShouldRetry allows, and returns the
      number of physical attempts made.  Nothing but ShouldRetry decides. */
  method CountAttempts(rm: RetryManager, outcome: nat -> AttemptOutcome) returns (attempts: nat)
    ensures 1 <= attempts <= Max(rm.options.maxRetries, 0) + 1
    ensures forall i: nat :: i < attempts - 1 ==> RetriesAfter(rm, i, outcome(i))
    ensures !RetriesAfter(rm, attempts - 1, outcome(attempts - 1))
    ensures (forall i: nat :: Retryable(rm.options, outcome(i))) ==>
              attempts == Max(rm.options.maxRetries, 0) + 1
  {
    var attempt: nat := 0;
    while RetriesAfter(rm, attempt, outcome(attempt))
      invariant attempt <= Max(rm.options.maxRetries, 0)
      invariant forall i: nat :: i < attempt ==> RetriesAfter(rm, i, outcome(i))
      decreases rm.options.maxRetries - attempt
    {
      attempt := attempt + 1;
    }
    attempts := attempt + 1;
  }

  /** The exhaustion test: two retries against a server that always answers
      500 make three attempts. */
  method ExhaustionExample() returns (attempts: nat)
    ensures attempts == 3
  {
    var o := NewRetryOptions().(maxRetries := 2, initialDelay := 10 * Millisecond,
                                maxDelay := 100 * Millisecond, backoff := BackoffFixed, jitter := false);
    attempts := CountAttempts(RetryManager(o), _ => Response(500));
  }
}
