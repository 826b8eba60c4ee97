# Resilience core of the gofetch HTTP client, in Dafny

This project models the parts of the `gofetch` client that decide whether a
failed request is tried again, how long to wait first, and when a failing
endpoint is shut off:

- **Circuit breaker** (`circuit_breaker.dfy`, module `Breaker`). There is one
  record per endpoint key. Each record has a state (`closed`, `open` or
  `half-open`), a failure count, the time it opened and two half-open
  counters. The class `CircuitBreaker` keeps these records in a
  `map<string, Circuit>` and updates them in place. It has the same
  operations as the Go type: `CanAttempt`, `RecordSuccess`, `RecordFailure`,
  `IsOpen`, `GetState`, `Reset` and `ResetAll`. Each method is proved against
  a pure transition function for a single record (`Gate`, `AfterSuccess`,
  `AfterFailure`). The lemmas about those functions state the transition
  table. Every method also keeps an object invariant (`WellFormed` on every
  record). For a positive threshold, it implies that a circuit is closed
  exactly when it has counted fewer than `threshold` failures.
- **Retry decision and backoff** (`retry_manager.dfy`, module `Retry`):
  `ShouldRetry` and `CalculateDelay` with exponential, linear and fixed
  backoff, the cap and jitter. The module also has a driver, `CountAttempts`.
  It keeps trying for as long as `ShouldRetry` allows, which shows how many
  attempts that rule permits.
- **Retry options** (`retry_options.dfy`, module `RetryModel`): the strategy
  names, the three circuit states, the default options and the
  status-code classification `ShouldRetryStatus`.
- **Client configuration** (`config.dfy`, module `ConfigModel`): the
  defaults, the 2xx status validator, `Clone` and `Merge`. `Merge` is
  proved equal to the right-biased override function `Merged`. The
  properties of that function are proved as lemmas.

Conventions:

- Durations are integers in nanoseconds, as Go's `time.Duration` is
  (`Common.Millisecond`, `Common.Second`).
- The clock is an explicit `now` argument that gives the current time.
- Go's zero `time.Time` in a fresh record is 0.
- The random generator's unit draw, in [0, 1), is a real number that the caller passes in.

## Model

| member | source | states |
|---|---|---|
| `RetryModel.StateNamesDistinct` | domain/models/retry.go:92-101 | the three circuit states have three distinct names, so a name identifies its state |
| `RetryModel.NewRetryOptions` | domain/models/retry.go:58-72 | the documented defaults: 3 retries, 100 ms initial and 30 s maximum delay, exponential, jitter 0.3, no extra codes, breaker off with threshold 5, timeout 60 s, 1 half-open request |
| `RetryModel.ContainsCode` | domain/models/retry.go:82-86 | the front-to-back scan finds the status exactly when it is a member of the list |
| `RetryModel.ShouldRetryStatus` | domain/models/retry.go:75-89 | a status is retried iff it is in 500..599 or is one of the configured extra codes |
| `RetryModel.ShouldRetryStatusMonotone` | domain/models/retry.go:81-86 | configuring more codes never turns a retry into no retry |
| `RetryModel.ShouldRetryStatusSetOnly` | domain/models/retry.go:81-86 | two code lists with the same members classify every status alike (order and duplicates do not matter) |
| `RetryModel.DefaultRetryStatuses` | domain/models/retry.go:75-89 | with the default empty list exactly 500..599 are retried; 404 and 429 are not |
| `RetryModel.ConfiguredCodeRetried` | tests/retry_test.go:222-255 | with 429 configured, 429 and 503 are retried and 404 is not |
| `Retry.NewRetryManager` | infrastructure/retry.go:18-27 | without options the manager uses `NewRetryOptions()`; otherwise it uses the given options |
| `Retry.ShouldRetry` | infrastructure/retry.go:30-43 | no retry once `attempt >= MaxRetries`, whatever the outcome; below that bound, retry iff transport error or `ShouldRetryStatus` |
| `Retry.CountAttempts` | infrastructure/retry.go:30-43 | attempts driven only by `ShouldRetry` number between 1 and `max(MaxRetries, 0) + 1`; every attempt but the last asked for a retry and the last did not; under constant retryable failure there are exactly `max(MaxRetries, 0) + 1` |
| `Retry.ExhaustionExample` | tests/retry_test.go:58-85 | two retries against a server that always answers 500 make three attempts |
| `Retry.ExponentialBackoff` | infrastructure/retry.go:73-78 | exponential backoff starts at the initial delay and, for a non-negative initial delay, never waits less than it |
| `Retry.LinearBackoff` | infrastructure/retry.go:80-83 | linear backoff starts at the initial delay and, for a non-negative initial delay, never waits less than it |
| `Retry.StrategyDelay` | infrastructure/retry.go:46-58 | whatever the strategy name (recognised or not), the first retry waits the initial delay, and no later one waits less when it is non-negative |
| `Retry.Pow2` | infrastructure/retry.go:74-78 | the exponential multiplier 2^n is at least 1 |
| `Retry.Pow2Monotone` | infrastructure/retry.go:74-78 | the multiplier grows with the attempt number |
| `Retry.ExponentialDoubles` | infrastructure/retry.go:74-78 | each exponential step doubles the previous delay |
| `Retry.LinearSteps` | infrastructure/retry.go:81-83 | each linear step adds the initial delay |
| `Retry.EffectiveJitterFraction` | infrastructure/retry.go:86-94 | the fraction used lies in (0, 1] and equals the configured one when that already lies in (0, 1] |
| `Retry.JitterRange` | infrastructure/retry.go:86-96 | the half-width delay * fraction is not negative for a non-negative delay, positive for a positive delay and 0 for a zero delay |
| `Retry.Jitter` | infrastructure/retry.go:97 | the jitter is 0 when the range is 0 |
| `Retry.JitterWithin` | infrastructure/retry.go:96-97 | for a unit draw in [0, 1), the jitter lies in [-range, range], and strictly below range when range is positive |
| `Retry.ApplyJitter` | infrastructure/retry.go:96-104 | the jittered delay is never negative; it is 0 when delay plus jitter is negative, and otherwise that sum rounded down to whole nanoseconds |
| `Retry.CalculateDelay` | infrastructure/retry.go:46-71 | without jitter the delay never exceeds `MaxDelay`; with jitter it is never negative |
| `Retry.ExponentialDelay` | infrastructure/retry.go:50-63 | without jitter, exponential gives `min(InitialDelay * 2^attempt, MaxDelay)` |
| `Retry.LinearDelay` | infrastructure/retry.go:52-63 | without jitter, linear gives `min(InitialDelay * (attempt + 1), MaxDelay)` |
| `Retry.FixedDelay` | infrastructure/retry.go:54-63 | without jitter, fixed gives `min(InitialDelay, MaxDelay)` for every attempt |
| `Retry.UnrecognisedIsExponential` | infrastructure/retry.go:56-57 | a strategy name other than the three behaves exactly like exponential |
| `Retry.DelayNonDecreasing` | infrastructure/retry.go:46-83 | for non-negative initial delays and no jitter, the delay never decreases from one attempt to a later one, under every strategy |
| `Retry.JitteredDelayBounds` | infrastructure/retry.go:86-104 | for every unit draw and non-negative delay, the result is not negative, at least delay * (1 - f) rounded down (so more than delay * (1 - f) - 1 ns), at most delay * (1 + f) and strictly below it for a positive delay; a zero delay stays 0 |
| `Retry.JitteredCalculateDelay` | infrastructure/retry.go:60-68 | with jitter on, `CalculateDelay` jitters the capped strategy delay and so obeys those bounds around it |
| `Retry.BackoffExamples` | tests/retry_test.go:108-301 | 100 ms initial delay, 10 s cap: exponential gives 100/200/400/800 ms, linear 100/200/300/400 ms, fixed 100 ms for every attempt |
| `Retry.JitterExample` | tests/retry_test.go:304-330 | fixed 1000 ms with fraction 0.3 stays within [700 ms, 1300 ms) |
| `Retry.DefaultDelayCap` | infrastructure/retry.go:46-63 | under the defaults, the delay before jitter is 25.6 s at attempt 8, below the 30 s cap, and is the cap from attempt 9 on (in the source only up to attempt 36; see "## Left out") |
| `ConfigModel.NewConfig` | domain/models/config.go:16-22 | the default configuration has no headers, a 30 s timeout, the 2xx validator and no retry options |
| `ConfigModel.DefaultStatusValidator` | domain/models/config.go:25-27 | a status the default validator accepts is never retried under the default retry options |
| `ConfigModel.DefaultStatusValidatorRange` | domain/models/config.go:25-27 | the default validator accepts exactly 200..299; a status it accepts is never retried because of its status unless listed as an extra code |
| `ConfigModel.Clone` | domain/models/config.go:30-53 | the header-by-header copy equals the original in every field |
| `ConfigModel.Merge` | domain/models/config.go:56-80 | merging into a clone gives `Merged(c, other)`, and the receiver is unchanged |
| `ConfigModel.MergedHeaders` | domain/models/config.go:67-69 | merged headers hold the keys of both sides; `other` wins on shared keys; keys only in the receiver keep the receiver's value |
| `ConfigModel.MergedFields` | domain/models/config.go:59-77 | base URL comes from `other` iff non-empty, timeout iff non-zero, retry options iff present; otherwise the receiver's are kept |
| `ConfigModel.MergeIdentityAndIdempotence` | domain/models/config.go:56-80 | merging in a configuration that sets nothing changes nothing; merging a configuration into itself gives it back |
| `ConfigModel.MergeAssociative` | domain/models/config.go:56-80 | merging is associative |
| `ConfigModel.MergeExample` | tests/advanced_features_test.go:96-124 | the merge test's expected base URL, kept 5 s timeout and both headers |
| `Breaker.CircuitBreaker.constructor` | infrastructure/circuit_breaker.go:34-41 | a new breaker has an empty table and the given threshold, timeout and half-open budget |
| `Breaker.CircuitBreaker.IsOpen` | infrastructure/circuit_breaker.go:44-62 | an endpoint is open iff its record is open and the gate would refuse it without changing anything; an unseen endpoint is not open |
| `Breaker.CircuitBreaker.GetState` | infrastructure/circuit_breaker.go:155-165 | an unseen endpoint reads as closed; a seen one reads as its record's state; an open endpoint reads as open |
| `Breaker.CircuitBreaker.CanAttempt` | infrastructure/circuit_breaker.go:65-98 | an unseen key gets a fresh closed record and is admitted; otherwise the answer and the new record are `Gate`'s; other keys are untouched; an open endpoint is refused with nothing changed |
| `Breaker.CircuitBreaker.RecordSuccess` | infrastructure/circuit_breaker.go:101-121 | no-op on an unseen key; otherwise only the key's record changes, to `AfterSuccess` of it |
| `Breaker.CircuitBreaker.RecordFailure` | infrastructure/circuit_breaker.go:124-152 | only the key's record changes, to `AfterFailure` of it (of a fresh closed record for an unseen key) |
| `Breaker.CircuitBreaker.Reset` | infrastructure/circuit_breaker.go:168-173 | removes only the key, which then reads as closed and not open |
| `Breaker.CircuitBreaker.ResetAll` | infrastructure/circuit_breaker.go:176-181 | empties the table |
| `Breaker.Gate` | infrastructure/circuit_breaker.go:78-97 | a gate check never touches the failure count or the failure and opening times, never closes or opens a circuit, and a circuit it leaves open was refused and is unchanged |
| `Breaker.AfterSuccess` | infrastructure/circuit_breaker.go:110-120 | a success never opens a circuit or moves one out of open; a circuit it leaves closed has no failures counted; otherwise the failure count, the timestamps and the trial-admission count are kept |
| `Breaker.AfterFailure` | infrastructure/circuit_breaker.go:136-151 | a failure is always counted at `now`; it never leaves a circuit half-open; a circuit it leaves closed was closed; a circuit it newly opens is opened at `now` |
| `Breaker.CircuitBreaker.ClosedIffBelowThreshold` | infrastructure/circuit_breaker.go:139-143 | under the table invariant and a positive threshold, an endpoint reads as closed iff it is unseen or has counted fewer than `threshold` failures |
| `Breaker.GatePreservesWellFormed` | infrastructure/circuit_breaker.go:78-97 | a gate check keeps counters non-negative, half-open admissions within the budget, and (threshold >= 1) closed iff failures < threshold |
| `Breaker.SuccessPreservesWellFormed` | infrastructure/circuit_breaker.go:110-120 | a recorded success keeps the same invariant |
| `Breaker.FailurePreservesWellFormed` | infrastructure/circuit_breaker.go:136-151 | a recorded failure keeps the same invariant |
| `Breaker.ClosedAdmits` | infrastructure/circuit_breaker.go:89-97 | a closed circuit is admitted and left as it was |
| `Breaker.OpenRefusesBeforeTimeout` | infrastructure/circuit_breaker.go:79-86 | an open circuit whose timeout has not passed is refused and unchanged |
| `Breaker.OpenProbesAfterTimeout` | infrastructure/circuit_breaker.go:79-97 | after the timeout an open circuit becomes half-open with both trial counters zeroed before the budget check; admitted iff the budget is positive, and that admission counts as the first trial |
| `Breaker.HalfOpenGating` | infrastructure/circuit_breaker.go:90-97 | a half-open circuit is admitted iff `halfOpenAttempts < halfOpenRequests`, and each admission increments `halfOpenAttempts` |
| `Breaker.GateRefusalCases` | infrastructure/circuit_breaker.go:78-97 | the gate refuses exactly when the circuit is open inside its timeout, or is (or has just become) half-open with its budget spent |
| `Breaker.HalfOpenAdmissions` | infrastructure/circuit_breaker.go:90-97 | any run of gate checks on a half-open circuit admits exactly `min(runs, halfOpenRequests - halfOpenAttempts)` requests and stays half-open |
| `Breaker.HalfOpenWindowBound` | infrastructure/circuit_breaker.go:79-97 | one half-open window, entered from an open circuit after its timeout, admits exactly `min(runs, halfOpenRequests)` requests, so never more than `halfOpenRequests` |
| `Breaker.TrialWindowBound` | infrastructure/circuit_breaker.go:89-120 | however gate checks and recorded successes interleave, a half-open circuit admits at most `halfOpenRequests - halfOpenAttempts` more trial requests, and a closed one none |
| `Breaker.TrialWindowFromOpen` | infrastructure/circuit_breaker.go:78-120 | a half-open window entered from an expired open circuit admits at most `halfOpenRequests` trials, successes in between included |
| `Breaker.SuccessByState` | infrastructure/circuit_breaker.go:105-120 | a success leaves open alone; on closed it zeroes the failure count; on half-open it increments the success count and closes (failure count 0) iff that reaches `halfOpenRequests` |
| `Breaker.FailureByState` | infrastructure/circuit_breaker.go:128-151 | a failure is always counted; closed opens at `now` iff the count reaches the threshold; half-open reopens at `now` with both trial counters zeroed; open stays open |
| `Breaker.ConsecutiveFailures` | infrastructure/circuit_breaker.go:136-143 | after k failures a fresh circuit has counted k and is open (opened at `now`) iff k >= threshold and k >= 1 |
| `Breaker.ThresholdExample` | tests/retry_test.go:137-173 | with threshold 3, three requests are admitted and the fourth, within the timeout, is refused |
| `Breaker.PerEndpointExample` | tests/retry_test.go:175-220 | tripping `/fail` refuses `/fail` but still admits `/success` |
| `Breaker.RecoveryExample` | tests/retry_test.go:333-387 | after the timeout one trial is admitted; its success closes the circuit and requests are admitted again |

## Left out

- The `sync.RWMutex` in `CircuitBreaker`: each method is an atomic sequential step.
- Wall-clock time (`time.Now`, `time.Since`): every operation that needs it takes `now` as an argument. `lastFailureTime` is recorded but nothing reads it, as in the source.
- The random generator of `RetryManager`: the unit draw `rng.Float64()` is a real number passed to `CalculateDelay`, and `UnitDraw` states the interval [0, 1) it comes from. `Jitter` scales it to `draw*2*jitterRange - jitterRange` as the source does, so a zero delay gets no jitter. The sum is truncated back to whole nanoseconds as `time.Duration(newDelay)` does. `float64` rounding of the range and of the sum is not modelled: the arithmetic is on exact reals.
- `Retry.CalculateDelay`: does not model `float64` rounding in `math.Pow`, nor 64-bit overflow of `time.Duration`, for large attempts or delays. Exponential backoff is the exact integer `InitialDelay * 2^attempt` and linear backoff is exact too. In the source, a large enough attempt overflows the conversion, so the delay is not capped as modelled.
- `Wait`: it only calls `CalculateDelay` and then sleeps.
- The `StatusValidator` field of `Config` is a function value. Here it is a token (`StatusValidator`), and `Merge` takes `other`'s token when it has one. The 2xx validator is `DefaultStatusValidator`.
- Reference identity in `Config` is not modelled, because configurations and retry options are values here. So the fresh header map and the fresh status-code slice made by `Clone` hold automatically. For the same reason, the model does not show that `Merge` shares `other`'s retry options rather than copying them.
- The client's retry loop, its circuit-gate ordering and cancellation are not part of this model. `Retry.CountAttempts` captures only what `ShouldRetry` implies about the number of attempts.
