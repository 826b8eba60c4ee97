/**
 * The per-endpoint circuit breaker.  Each endpoint key owns one record; a
 * record is created closed on first sight, opens after `threshold`
 * consecutive failures, lets trial requests through (half-open) once
 * `timeout` has passed, and closes again after `halfOpenRequests` trial
 * successes.  Time is the caller's clock reading `now`, in nanoseconds.
 *
 * The transitions of one record are the functions Gate, AfterSuccess and
 * AfterFailure; the class CircuitBreaker keeps the table of records and its
 * methods update it in place, proved against those functions.
 */
module Breaker {
  import opened Common
  import opened RetryModel

  /** The state of one endpoint's circuit.  Timestamps are clock readings;
      0 stands for the zero time a fresh record starts with. */
  datatype Circuit = Circuit(
    state: CircuitBreakerState,
    failureCount: int,
    lastFailureTime: int,
    openedAt: int,
    halfOpenSuccessCount: int,
    halfOpenAttempts: int)

  /** The record created for an endpoint seen for the first time. */
  const FreshCircuit: Circuit := Circuit(Closed, 0, 0, 0, 0, 0)

  /** The answer of a gate check and the record it leaves behind. */
  datatype GateResult = GateResult(allowed: bool, circuit: Circuit)

  /** The gate check on an existing record: an open circuit whose timeout has
      not passed refuses; one whose timeout has passed becomes half-open with
      fresh trial counters; a half-open circuit admits a request while its
      trial budget lasts and counts it. */
  function Gate(c: Circuit, now: int, timeout: int, halfOpenRequests: int): (g: GateResult)
    ensures g.circuit.failureCount == c.failureCount && g.circuit.lastFailureTime == c.lastFailureTime
    ensures g.circuit.openedAt == c.openedAt
    ensures g.circuit.state == Closed <==> c.state == Closed
    ensures g.circuit.state == Open ==> !g.allowed && g.circuit == c
  {
    if c.state == Open && now - c.openedAt < timeout then GateResult(false, c)
    else
      var probing := if c.state == Open
                     then c.(state := HalfOpen, halfOpenAttempts := 0, halfOpenSuccessCount := 0)
                     else c;
      if probing.state != HalfOpen then GateResult(true, probing)
      else if probing.halfOpenAttempts >= halfOpenRequests then GateResult(false, probing)
      else GateResult(true, probing.(halfOpenAttempts := probing.halfOpenAttempts + 1))
  }

  /** A recorded success: while half-open it counts towards closing the
      circuit; while closed it clears the failure count; while open it is
      ignored. */
  function AfterSuccess(c: Circuit, halfOpenRequests: int): (s: Circuit)
    ensures s.state == Open <==> c.state == Open
    ensures s.state == Closed ==> s.failureCount == 0
    ensures s.state != Closed ==> s.failureCount == c.failureCount
    ensures s.openedAt == c.openedAt && s.lastFailureTime == c.lastFailureTime
    ensures s.halfOpenAttempts == c.halfOpenAttempts
  {
    if c.state == HalfOpen then
      var counted := c.(halfOpenSuccessCount := c.halfOpenSuccessCount + 1);
      if counted.halfOpenSuccessCount >= halfOpenRequests
      then counted.(state := Closed, failureCount := 0)
      else counted
    else if c.state == Closed then c.(failureCount := 0)
    else c
  }

  /** A recorded failure: always counted; a closed circuit that reaches the
      threshold opens, and a half-open circuit reopens at once. */
  function AfterFailure(c: Circuit, now: int, threshold: int): (f: Circuit)
    ensures f.failureCount == c.failureCount + 1 && f.lastFailureTime == now
    ensures f.state != HalfOpen
    ensures f.state == Closed ==> c.state == Closed
    ensures f.state == Open && c.state != Open ==> f.openedAt == now
  {
    var counted := c.(failureCount := c.failureCount + 1, lastFailureTime := now);
    var tripped := if counted.state == Closed && counted.failureCount >= threshold
                   then counted.(state := Open, openedAt := now)
                   else counted;
    if tripped.state == HalfOpen
    then tripped.(state := Open, openedAt := now, halfOpenAttempts := 0, halfOpenSuccessCount := 0)
    else tripped
  }

  /** What every record in the table satisfies: counters are never negative,
      a half-open circuit has admitted at most its trial budget, and (for a
      positive threshold) a circuit is closed exactly when it has seen fewer
      than `threshold` failures since it was last cleared. */
  predicate WellFormed(c: Circuit, threshold: int, halfOpenRequests: int)
  {
    && c.failureCount >= 0
    && c.halfOpenAttempts >= 0
    && c.halfOpenSuccessCount >= 0
    && (c.state == HalfOpen ==> c.halfOpenAttempts <= Max(halfOpenRequests, 0))
    && (threshold >= 1 ==> (c.state == Closed <==> c.failureCount < threshold))
  }

  /** A gate check keeps a record well formed. */
  lemma GatePreservesWellFormed(c: Circuit, now: int, threshold: int, timeout: int, halfOpenRequests: int)
    requires WellFormed(c, threshold, halfOpenRequests)
    ensures WellFormed(Gate(c, now, timeout, halfOpenRequests).circuit, threshold, halfOpenRequests)
  {
  }

  /** A recorded success keeps a record well formed. */
  lemma SuccessPreservesWellFormed(c: Circuit, threshold: int, halfOpenRequests: int)
    requires WellFormed(c, threshold, halfOpenRequests)
    ensures WellFormed(AfterSuccess(c, halfOpenRequests), threshold, halfOpenRequests)
  {
  }

  /** A recorded failure keeps a record well formed. */
  lemma FailurePreservesWellFormed(c: Circuit, now: int, threshold: int, halfOpenRequests: int)
    requires WellFormed(c, threshold, halfOpenRequests)
    ensures WellFormed(AfterFailure(c, now, threshold), threshold, halfOpenRequests)
  {
  }

  /** A closed circuit always admits and is left as it was. */
  lemma ClosedAdmits(c: Circuit, now: int, timeout: int, halfOpenRequests: int)
    requires c.state == Closed
    ensures Gate(c, now, timeout, halfOpenRequests) == GateResult(true, c)
  {
  }

  /** An open circuit refuses, and changes nothing, until its timeout has passed. */
  lemma OpenRefusesBeforeTimeout(c: Circuit, now: int, timeout: int, halfOpenRequests: int)
    requires c.state == Open && now - c.openedAt < timeout
    ensures Gate(c, now, timeout, halfOpenRequests) == GateResult(false, c)
  {
  }

  /** Once the timeout has passed, an open circuit turns half-open with both
      trial counters cleared before the trial budget is consulted: it admits
      exactly when the budget is positive, and that admission is the first
      trial counted. */
  lemma OpenProbesAfterTimeout(c: Circuit, now: int, timeout: int, halfOpenRequests: int)
    requires c.state == Open && now - c.openedAt >= timeout
    ensures var g := Gate(c, now, timeout, halfOpenRequests);
            && g.circuit.state == HalfOpen
            && g.circuit.halfOpenSuccessCount == 0
            && (g.allowed <==> 0 < halfOpenRequests)
            && g.circuit.halfOpenAttempts == (if g.allowed then 1 else 0)
            && g.circuit == c.(state := HalfOpen, halfOpenSuccessCount := 0,
                               halfOpenAttempts := g.circuit.halfOpenAttempts)
  {
  }

  /** A half-open circuit admits exactly while fewer than halfOpenRequests
      trials have been admitted, and counts each admission. */
  lemma HalfOpenGating(c: Circuit, now: int, timeout: int, halfOpenRequests: int)
    requires c.state == HalfOpen
    ensures var g := Gate(c, now, timeout, halfOpenRequests);
            && (g.allowed <==> c.halfOpenAttempts < halfOpenRequests)
            && g.circuit == if g.allowed then c.(halfOpenAttempts := c.halfOpenAttempts + 1) else c
  {
  }

  /** The gate refuses exactly in two situations: the circuit is open and its
      timeout has not passed, or the circuit is (or has just become)
      half-open with its trial budget spent. */
  lemma GateRefusalCases(c: Circuit, now: int, timeout: int, halfOpenRequests: int)
    ensures !Gate(c, now, timeout, halfOpenRequests).allowed <==>
              || (c.state == Open && now - c.openedAt < timeout)
              || (c.state == Open && halfOpenRequests <= 0)
              || (c.state == HalfOpen && c.halfOpenAttempts >= halfOpenRequests)
  {
  }

  /** Applies the gate at each of the instants `nows` in turn, with no
      outcome recorded in between; returns how many requests were admitted
      and the record left at the end. */
  function GateSequence(c: Circuit, nows: seq<int>, timeout: int, halfOpenRequests: int): (r: (nat, Circuit))
    ensures r.0 <= |nows|
    decreases |nows|
  {
    if nows == [] then (0, c)
    else
      var g := Gate(c, nows[0], timeout, halfOpenRequests);
      var (admitted, last) := GateSequence(g.circuit, nows[1..], timeout, halfOpenRequests);
      ((if g.allowed then 1 else 0) + admitted, last)
  }

  /** A half-open circuit that has already admitted `halfOpenAttempts` trials
      admits exactly min(|nows|, halfOpenRequests - halfOpenAttempts) more
      over any run of gate checks, and stays half-open. */
  lemma {:induction false} HalfOpenAdmissions(c: Circuit, nows: seq<int>, timeout: int, halfOpenRequests: int)
    requires c.state == HalfOpen
    ensures GateSequence(c, nows, timeout, halfOpenRequests).0 ==
            Min(|nows|, Max(halfOpenRequests - c.halfOpenAttempts, 0))
    ensures GateSequence(c, nows, timeout, halfOpenRequests).1.state == HalfOpen
    decreases |nows|
  {
    if nows != [] {
      var g := Gate(c, nows[0], timeout, halfOpenRequests);
      HalfOpenGating(c, nows[0], timeout, halfOpenRequests);
      HalfOpenAdmissions(g.circuit, nows[1..], timeout, halfOpenRequests);
    }
  }

  /** One half-open window admits at most halfOpenRequests trials: from an
      open circuit whose timeout has passed, a run of gate checks admits
      min(|nows|, halfOpenRequests) requests. */
  lemma {:induction false} HalfOpenWindowBound(c: Circuit, nows: seq<int>, timeout: int, halfOpenRequests: int)
    requires c.state == Open && nows != [] && nows[0] - c.openedAt >= timeout
    ensures GateSequence(c, nows, timeout, halfOpenRequests).0 == Min(|nows|, Max(halfOpenRequests, 0))
  {
    var g := Gate(c, nows[0], timeout, halfOpenRequests);
    OpenProbesAfterTimeout(c, nows[0], timeout, halfOpenRequests);
    HalfOpenAdmissions(g.circuit, nows[1..], timeout, halfOpenRequests);
  }

  /** What happens to a record during a half-open window: gate checks and
      recorded successes (a failure ends the window by reopening). */
  datatype TrialEvent = GateCheck(now: int) | TrialSuccess

  /** Applies the events in turn; returns how many gate checks admitted a
      trial request (left the circuit half-open) and the record at the end. */
  function TrialRun(c: Circuit, events: seq<TrialEvent>, timeout: int, halfOpenRequests: int): (r: (nat, Circuit))
    ensures r.0 <= |events|
    decreases |events|
  {
    if events == [] then (0, c)
    else match events[0]
      case GateCheck(now) =>
        var g := Gate(c, now, timeout, halfOpenRequests);
        var (trials, last) := TrialRun(g.circuit, events[1..], timeout, halfOpenRequests);
        ((if g.allowed && g.circuit.state == HalfOpen then 1 else 0) + trials, last)
      case TrialSuccess =>
        TrialRun(AfterSuccess(c, halfOpenRequests), events[1..], timeout, halfOpenRequests)
  }

  /** Interleaving successes with the gate checks does not enlarge the trial
      budget: a half-open circuit admits at most
      halfOpenRequests - halfOpenAttempts more trials whatever the order of
      checks and successes, and a closed one admits none as trials. */
  lemma {:induction false} TrialWindowBound(c: Circuit, events: seq<TrialEvent>, timeout: int, halfOpenRequests: int)
    requires c.state != Open
    ensures TrialRun(c, events, timeout, halfOpenRequests).0 <=
            if c.state == HalfOpen then Max(halfOpenRequests - c.halfOpenAttempts, 0) else 0
    decreases |events|
  {
    if events != [] {
      match events[0]
      case GateCheck(now) =>
        var g := Gate(c, now, timeout, halfOpenRequests);
        if c.state == HalfOpen {
          HalfOpenGating(c, now, timeout, halfOpenRequests);
        } else {
          ClosedAdmits(c, now, timeout, halfOpenRequests);
        }
        TrialWindowBound(g.circuit, events[1..], timeout, halfOpenRequests);
      case TrialSuccess =>
        TrialWindowBound(AfterSuccess(c, halfOpenRequests), events[1..], timeout, halfOpenRequests);
    }
  }

  /** The whole window, entered by a gate check on an open circuit whose
      timeout has passed, admits at most halfOpenRequests trials, however
      many successes are recorded in between. */
  lemma TrialWindowFromOpen(c: Circuit, now: int, events: seq<TrialEvent>, timeout: int, halfOpenRequests: int)
    requires c.state == Open && now - c.openedAt >= timeout
    ensures TrialRun(c, [GateCheck(now)] + events, timeout, halfOpenRequests).0 <= Max(halfOpenRequests, 0)
  {
    var g := Gate(c, now, timeout, halfOpenRequests);
    OpenProbesAfterTimeout(c, now, timeout, halfOpenRequests);
    assert ([GateCheck(now)] + events)[1..] == events;
    TrialWindowBound(g.circuit, events, timeout, halfOpenRequests);
  }

  /** A success leaves an open circuit alone, clears a closed circuit's
      failure count, and counts towards closing a half-open circuit, which
      closes (failure count cleared) once halfOpenRequests successes are in. */
  lemma SuccessByState(c: Circuit, halfOpenRequests: int)
    ensures c.state == Open ==> AfterSuccess(c, halfOpenRequests) == c
    ensures c.state == Closed ==> AfterSuccess(c, halfOpenRequests) == c.(failureCount := 0)
    ensures c.state == HalfOpen ==>
              var s := AfterSuccess(c, halfOpenRequests);
              && s.halfOpenSuccessCount == c.halfOpenSuccessCount + 1
              && (s.state == Closed <==> c.halfOpenSuccessCount + 1 >= halfOpenRequests)
              && (s.state == Closed ==> s.failureCount == 0)
              && (s.state != Closed ==> s == c.(halfOpenSuccessCount := c.halfOpenSuccessCount + 1))
  {
  }

  /** A failure is always counted; a closed circuit opens (at `now`) exactly
      when the count reaches the threshold; a half-open circuit reopens at
      `now` with both trial counters cleared; an open circuit stays open. */
  lemma FailureByState(c: Circuit, now: int, threshold: int)
    ensures AfterFailure(c, now, threshold).failureCount == c.failureCount + 1
    ensures AfterFailure(c, now, threshold).lastFailureTime == now
    ensures c.state == Closed ==>
              var f := AfterFailure(c, now, threshold);
              && (f.state == Open <==> c.failureCount + 1 >= threshold)
              && (f.state == Open ==> f.openedAt == now)
              && (f.state != Open ==> f.state == Closed && f.openedAt == c.openedAt)
    ensures c.state == HalfOpen ==>
              AfterFailure(c, now, threshold) ==
              c.(state := Open, failureCount := c.failureCount + 1, lastFailureTime := now,
                 openedAt := now, halfOpenAttempts := 0, halfOpenSuccessCount := 0)
    ensures c.state == Open ==> AfterFailure(c, now, threshold).state == Open
    ensures c.state == Open ==> AfterFailure(c, now, threshold).openedAt == c.openedAt
  {
  }

  /** `k` failures recorded at `now` on a fresh record. */
  function Failures(k: nat, now: int, threshold: int): (f: Circuit)
  {
    if k == 0 then FreshCircuit else AfterFailure(Failures(k - 1, now, threshold), now, threshold)
  }

  /** After k consecutive failures a fresh circuit has counted k of them and
      is open exactly when k has reached the threshold (and k > 0). */
  lemma {:induction false} ConsecutiveFailures(k: nat, now: int, threshold: int)
    ensures Failures(k, now, threshold).failureCount == k
    ensures Failures(k, now, threshold).state == if k >= 1 && k >= threshold then Open else Closed
    ensures k >= 1 && k >= threshold ==> Failures(k, now, threshold).openedAt == now
  {
    if k > 0 {
      ConsecutiveFailures(k - 1, now, threshold);
    }
  }

  /** The table of circuits, one per endpoint key. */
  class CircuitBreaker {
    var circuits: map<string, Circuit>
    const threshold: int
    const timeout: int
    const halfOpenRequests: int

    ghost predicate Valid()
      reads this
    {
      forall e | e in circuits :: WellFormed(circuits[e], threshold, halfOpenRequests)
    }

    constructor (threshold: int, timeout: int, halfOpenRequests: int)
      ensures Valid() && circuits == map[]
      ensures this.threshold == threshold && this.timeout == timeout
      ensures this.halfOpenRequests == halfOpenRequests
    {
      circuits := map[];
      this.threshold := threshold;
      this.timeout := timeout;
      this.halfOpenRequests := halfOpenRequests;
    }

    /** The table invariant read through the API: for a positive threshold,
        an endpoint reads as closed exactly when it is unseen or has counted
        fewer than `threshold` failures. */
    lemma ClosedIffBelowThreshold(endpoint: string)
      requires Valid() && threshold >= 1
      ensures GetState(endpoint) == Closed <==>
                endpoint !in circuits || circuits[endpoint].failureCount < threshold
    {
    }

    /** Whether the endpoint's circuit is open and still inside its timeout,
        which is exactly when the gate would refuse it without changing
        anything.  An unseen endpoint is not open. */
    function IsOpen(endpoint: string, now: int): (open: bool)
      reads this
      ensures endpoint !in circuits ==> !open
      ensures open <==> endpoint in circuits && circuits[endpoint].state == Open &&
                        Gate(circuits[endpoint], now, timeout, halfOpenRequests) ==
                        GateResult(false, circuits[endpoint])
    {
      if endpoint !in circuits then false
      else
        var circuit := circuits[endpoint];
        if circuit.state == Open then
          if now - circuit.openedAt >= timeout then false else true
        else false
    }

    /** The endpoint's state; an unseen endpoint reads as closed. */
    function GetState(endpoint: string): (s: CircuitBreakerState)
      reads this
      ensures endpoint !in circuits ==> s == Closed
      ensures endpoint in circuits ==> s == circuits[endpoint].state
      ensures forall now :: IsOpen(endpoint, now) ==> s == Open
    {
      if endpoint !in circuits then Closed else circuits[endpoint].state
    }

    /** The gate check before a request: creates a closed record for an
        unseen endpoint and admits, otherwise applies Gate to the record.
        Only the endpoint's own record changes. */
    method CanAttempt(endpoint: string, now: int) returns (allowed: bool)
      requires Valid()
      modifies this
      ensures Valid()
      ensures endpoint !in old(circuits) ==> allowed && circuits == old(circuits)[endpoint := FreshCircuit]
      ensures endpoint in old(circuits) ==>
                var g := Gate(old(circuits)[endpoint], now, timeout, halfOpenRequests);
                allowed == g.allowed && circuits == old(circuits)[endpoint := g.circuit]
      ensures old(IsOpen(endpoint, now)) ==> !allowed && circuits == old(circuits)
    {
      if endpoint !in circuits {
        circuits := circuits[endpoint := FreshCircuit];
        return true;
      }
      var circuit := circuits[endpoint];
      GatePreservesWellFormed(circuit, now, threshold, timeout, halfOpenRequests);
      if circuit.state == Open {
        if now - circuit.openedAt >= timeout {
          circuit := circuit.(state := HalfOpen);
          circuit := circuit.(halfOpenAttempts := 0);
          circuit := circuit.(halfOpenSuccessCount := 0);
          circuits := circuits[endpoint := circuit];
        } else {
          return false;
        }
      }
      if circuit.state == HalfOpen {
        if circuit.halfOpenAttempts >= halfOpenRequests {
          return false;
        }
        circuit := circuit.(halfOpenAttempts := circuit.halfOpenAttempts + 1);
        circuits := circuits[endpoint := circuit];
      }
      return true;
    }

    /** Records a successful request; an unseen endpoint is left unseen. */
    method RecordSuccess(endpoint: string)
      requires Valid()
      modifies this
      ensures Valid()
      ensures endpoint !in old(circuits) ==> circuits == old(circuits)
      ensures endpoint in old(circuits) ==>
                circuits == old(circuits)[endpoint := AfterSuccess(old(circuits)[endpoint], halfOpenRequests)]
    {
      if endpoint !in circuits {
        return;
      }
      var circuit := circuits[endpoint];
      SuccessPreservesWellFormed(circuit, threshold, halfOpenRequests);
      if circuit.state == HalfOpen {
        circuit := circuit.(halfOpenSuccessCount := circuit.halfOpenSuccessCount + 1);
        if circuit.halfOpenSuccessCount >= halfOpenRequests {
          circuit := circuit.(state := Closed);
          circuit := circuit.(failureCount := 0);
        }
      } else if circuit.state == Closed {
        circuit := circuit.(failureCount := 0);
      }
      circuits := circuits[endpoint := circuit];
    }

    /** Records a failed request, creating a closed record first for an
        unseen endpoint. */
    method RecordFailure(endpoint: string, now: int)
      requires Valid()
      modifies this
      ensures Valid()
      ensures circuits == old(circuits)[endpoint :=
                AfterFailure(if endpoint in old(circuits) then old(circuits)[endpoint] else FreshCircuit,
                             now, threshold)]
    {
      var circuit := if endpoint in circuits then circuits[endpoint] else FreshCircuit;
      FailurePreservesWellFormed(circuit, now, threshold, halfOpenRequests);
      circuit := circuit.(failureCount := circuit.failureCount + 1);
      circuit := circuit.(lastFailureTime := now);
      if circuit.state == Closed && circuit.failureCount >= threshold {
        circuit := circuit.(state := Open);
        circuit := circuit.(openedAt := now);
      }
      if circuit.state == HalfOpen {
        circuit := circuit.(state := Open);
        circuit := circuit.(openedAt := now);
        circuit := circuit.(halfOpenAttempts := 0);
        circuit := circuit.(halfOpenSuccessCount := 0);
      }
      circuits := circuits[endpoint := circuit];
    }

    /** Forgets one endpoint, which then reads as unseen (closed, not open). */
    method Reset(endpoint: string)
      requires Valid()
      modifies this
      ensures Valid()
      ensures circuits == old(circuits) - {endpoint}
      ensures GetState(endpoint) == Closed && forall now :: !IsOpen(endpoint, now)
    {
      circuits := circuits - {endpoint};
    }

    /** Forgets every endpoint. */
    method ResetAll()
      requires Valid()
      modifies this
      ensures Valid()
      ensures circuits == map[]
    {
      circuits := map[];
    }
  }

  /** The opening test: with threshold 3, three failed requests are admitted
      and the fourth, within the timeout, is refused. */
  method ThresholdExample() returns (admitted: seq<bool>)
    ensures admitted == [true, true, true, false]
  {
    var cb := new CircuitBreaker(3, 1 * Second, 1);
    admitted := [];
    var t := 0;
    while t < 3
      invariant 0 <= t <= 3 && |admitted| == t
      invariant admitted == seq(t, _ => true)
      invariant cb.Valid() && cb.threshold == 3 && cb.timeout == Second && cb.halfOpenRequests == 1
      invariant t == 0 ==> cb.circuits == map[]
      invariant t > 0 ==> cb.circuits == map["/test" := Failures(t, 0, 3)]
      modifies cb
    {
      var ok := cb.CanAttempt("/test", 0);
      ConsecutiveFailures(t, 0, 3);
      cb.RecordFailure("/test", 0);
      admitted := admitted + [ok];
      t := t + 1;
    }
    ConsecutiveFailures(3, 0, 3);
    var ok := cb.CanAttempt("/test", 10 * Millisecond);
    admitted := admitted + [ok];
  }

  /** The isolation test: tripping "/fail" leaves "/success" admitted. */
  method PerEndpointExample() returns (failAdmitted: bool, successAdmitted: bool)
    ensures !failAdmitted && successAdmitted
  {
    var cb := new CircuitBreaker(2, 1 * Second, 1);
    cb.RecordFailure("/fail", 0);
    cb.RecordFailure("/fail", 0);
    failAdmitted := cb.CanAttempt("/fail", 0);
    successAdmitted := cb.CanAttempt("/success", 0);
  }

  /** The recovery test: threshold 2, 300 ms timeout, one trial request.
      After two failures the circuit refuses; 500 ms later one trial is
      admitted, its success closes the circuit, and requests flow again. */
  method RecoveryExample() returns (refused: bool, trial: bool, state: CircuitBreakerState, after: bool)
    ensures refused && trial && state == Closed && after
  {
    var cb := new CircuitBreaker(2, 300 * Millisecond, 1);
    cb.RecordFailure("/test", 0);
    cb.RecordFailure("/test", 0);
    var ok := cb.CanAttempt("/test", 0);
    refused := !ok;
    trial := cb.CanAttempt("/test", 500 * Millisecond);
    cb.RecordSuccess("/test");
    state := cb.GetState("/test");
    after := cb.CanAttempt("/test", 500 * Millisecond);
  }
}
