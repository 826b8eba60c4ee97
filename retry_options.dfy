/**
 * The retry configuration of the client: backoff strategy names, circuit
 * states, the option record with its defaults, and the status-code
 * classification that decides which responses are worth retrying.
 */
module RetryModel {
  import opened Common

  /** A backoff strategy is a name; any string may be configured, and only
      three of them are recognised by the delay calculator. */
  type BackoffStrategy = string

  const BackoffExponential: BackoffStrategy := "exponential"
  const BackoffLinear: BackoffStrategy := "linear"
  const BackoffFixed: BackoffStrategy := "fixed"

  /** The three states of a per-endpoint circuit. */
  datatype CircuitBreakerState = Closed | Open | HalfOpen

  /** The name each state carries in the client's API. */
  function StateName(s: CircuitBreakerState): (name: string)
  {
    match s
    case Closed => "closed"
    case Open => "open"
    case HalfOpen => "half-open"
  }

  /** Distinct states carry distinct names, so the name identifies the state. */
  lemma StateNamesDistinct(s: CircuitBreakerState, t: CircuitBreakerState)
    ensures StateName(s) == StateName(t) <==> s == t
  {
  }

  datatype RetryOptions = RetryOptions(
    maxRetries: int,                       // 0 means no retries
    initialDelay: Duration,
    maxDelay: Duration,
    backoff: BackoffStrategy,
    jitter: bool,
    jitterFraction: real,                  // intended range 0.0 - 1.0
    retryOnStatusCodes: seq<int>,          // retried in addition to 5xx
    circuitBreaker: bool,
    circuitBreakerThreshold: int,          // consecutive failures that open a circuit
    circuitBreakerTimeout: Duration,       // how long a circuit stays open
    circuitBreakerHalfOpenRequests: int)   // trial requests allowed while half-open

  /** The default retry options. */
  function NewRetryOptions(): (o: RetryOptions)
    ensures o.maxRetries == 3 && o.initialDelay == 100 * Millisecond
    ensures o.maxDelay == 30 * Second && o.backoff == BackoffExponential
    ensures o.jitter && o.jitterFraction == 0.3
    ensures o.retryOnStatusCodes == []
    ensures !o.circuitBreaker && o.circuitBreakerThreshold == 5
    ensures o.circuitBreakerTimeout == 60 * Second && o.circuitBreakerHalfOpenRequests == 1
  {
    RetryOptions(
      maxRetries := 3,
      initialDelay := 100 * Millisecond,
      maxDelay := 30 * Second,
      backoff := BackoffExponential,
      jitter := true,
      jitterFraction := 0.3,
      retryOnStatusCodes := [],
      circuitBreaker := false,
      circuitBreakerThreshold := 5,
      circuitBreakerTimeout := 60 * Second,
      circuitBreakerHalfOpenRequests := 1)
  }

  /** The scan over the configured extra codes, front to back, stopping at
      the first match. */
  function ContainsCode(codes: seq<int>, statusCode: int): (found: bool)
    ensures found <==> statusCode in codes
  {
    if codes == [] then false
    else if codes[0] == statusCode then true
    else ContainsCode(codes[1..], statusCode)
  }

  /** Whether a response status asks for a retry: every 5xx status, and every
      status listed among the extra codes. */
  function ShouldRetryStatus(opts: RetryOptions, statusCode: int): (retry: bool)
    ensures retry <==> (500 <= statusCode < 600 || statusCode in opts.retryOnStatusCodes)
  {
    if statusCode >= 500 && statusCode < 600 then true
    else ContainsCode(opts.retryOnStatusCodes, statusCode)
  }

  /** Configuring more codes never withdraws a retry. */
  lemma ShouldRetryStatusMonotone(opts: RetryOptions, more: seq<int>, statusCode: int)
    requires forall c :: c in opts.retryOnStatusCodes ==> c in more
    ensures ShouldRetryStatus(opts, statusCode) ==>
              ShouldRetryStatus(opts.(retryOnStatusCodes := more), statusCode)
  {
  }

  /** Only the set of configured codes matters: not their order, not duplicates. */
  lemma ShouldRetryStatusSetOnly(opts: RetryOptions, codes: seq<int>, statusCode: int)
    requires forall c :: c in codes <==> c in opts.retryOnStatusCodes
    ensures ShouldRetryStatus(opts.(retryOnStatusCodes := codes), statusCode) ==
            ShouldRetryStatus(opts, statusCode)
  {
  }

  /** With the default (empty) list, exactly the 5xx statuses are retried:
      404 and 429 are not. */
  lemma DefaultRetryStatuses(statusCode: int)
    ensures ShouldRetryStatus(NewRetryOptions(), statusCode) <==> 500 <= statusCode <= 599
    ensures !ShouldRetryStatus(NewRetryOptions(), 404) && !ShouldRetryStatus(NewRetryOptions(), 429)
  {
  }

  /** A configured extra code is retried, 429 for instance. */
  lemma ConfiguredCodeRetried(opts: RetryOptions)
    requires opts.retryOnStatusCodes == [429]
    ensures ShouldRetryStatus(opts, 429) && ShouldRetryStatus(opts, 503)
    ensures !ShouldRetryStatus(opts, 404)
  {
  }
}
