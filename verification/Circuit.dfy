/** The circuit breaker in front of the delivery provider, over any interleaving of requests. */
module Circuit {
  const FAILURE_THRESHOLD := 5
  const RECOVERY_TIMEOUT := 30.0

  datatype CircuitState = Closed | Open | HalfOpen

  datatype Breaker = Breaker(state: CircuitState, failures: nat, lastFailure: real)

  /** A guard is the start of a request; a success or a failure is recorded when one ends. */
  datatype Event = Guard(now: real) | Success(now: real) | Failure(now: real)

  predicate Admits(b: Breaker, now: real) {
    !b.state.Open? || now - b.lastFailure > RECOVERY_TIMEOUT
  }

  function Step(b: Breaker, e: Event): Breaker {
    match e
    case Guard(now) => if b.state.Open? && Admits(b, now) then b.(state := HalfOpen) else b
    case Success(_) => b.(state := Closed, failures := 0)
    case Failure(now) =>
      Breaker(if b.failures + 1 >= FAILURE_THRESHOLD then Open else b.state, b.failures + 1, now)
  }

  class ConvoyCircuit {
    var circuitState: CircuitState
    var failureCount: nat
    var lastFailureTime: real

    function Model(): Breaker reads this {
      Breaker(circuitState, failureCount, lastFailureTime)
    }

    constructor ()
      ensures Model() == Initial()
    {
      circuitState, failureCount, lastFailureTime := Closed, 0, 0.0;
    }

    method CheckCircuit(now: real) returns (admitted: bool)
      modifies this
      ensures admitted == Admits(old(Model()), now)
      ensures Model() == Step(old(Model()), Guard(now))
    {
      if circuitState == Closed {
        return true;
      }
      if circuitState == Open {
        if now - lastFailureTime > RECOVERY_TIMEOUT {
          circuitState := HalfOpen;
          return true;
        }
        return false;
      }
      return true;
    }

    method RecordSuccess(now: real)
      modifies this
      ensures Model() == Step(old(Model()), Success(now))
    {
      circuitState, failureCount := Closed, 0;
    }

    method RecordFailure(now: real)
      modifies this
      ensures Model() == Step(old(Model()), Failure(now))
    {
      failureCount := failureCount + 1;
      lastFailureTime := now;
      if failureCount >= FAILURE_THRESHOLD {
        circuitState := Open;
      }
    }
  }

  function Initial(): Breaker {
    Breaker(Closed, 0, 0.0)
  }

  function After(es: seq<Event>): Breaker {
    if es == [] then Initial() else Step(After(es[..|es| - 1]), es[|es| - 1])
  }

  predicate Monotone(es: seq<Event>) {
    forall i, j :: 0 <= i < j < |es| ==> es[i].now <= es[j].now
  }

  // ----- what the history alone says -----

  /** Failures recorded since the last recorded success. */
  function FailuresSinceSuccess(es: seq<Event>): nat {
    if es == [] || es[|es| - 1].Success? then 0
    else FailuresSinceSuccess(es[..|es| - 1]) + (if es[|es| - 1].Failure? then 1 else 0)
  }

  function LatestFailure(es: seq<Event>): real {
    if es == [] then 0.0
    else if es[|es| - 1].Failure? then es[|es| - 1].now
    else LatestFailure(es[..|es| - 1])
  }

  /** A request was let through after the latest failure, if the circuit was not closed. */
  predicate Probed(es: seq<Event>) {
    es != [] && !es[|es| - 1].Failure?
    && (Probed(es[..|es| - 1])
        || (es[|es| - 1].Guard? && es[|es| - 1].now - LatestFailure(es[..|es| - 1]) > RECOVERY_TIMEOUT))
  }

  /** The circuit is closed exactly below five failures since the last success. */
  lemma {:induction false} StateOf(es: seq<Event>)
    ensures After(es).failures == FailuresSinceSuccess(es) && After(es).lastFailure == LatestFailure(es)
    ensures After(es).state == Closed <==> FailuresSinceSuccess(es) < FAILURE_THRESHOLD
    ensures After(es).state == HalfOpen <==> FailuresSinceSuccess(es) >= FAILURE_THRESHOLD && Probed(es)
  {
    if es != [] {
      StateOf(es[..|es| - 1]);
    }
  }

  lemma {:induction false} ProbedLate(es: seq<Event>)
    requires Monotone(es) && Probed(es)
    ensures es[|es| - 1].now - LatestFailure(es) > RECOVERY_TIMEOUT
  {
    if Probed(es[..|es| - 1]) {
      ProbedLate(es[..|es| - 1]);
    }
  }

  /**
   Over any run in which the clock does not go back, a request is let through exactly when fewer than
   five failures were recorded since the last success, or the latest failure is more than 30 seconds
   past. The half-open state changes nothing of this: it lets through more than one request.
   */
  lemma AdmittedIff(es: seq<Event>, now: real)
    requires Monotone(es) && (es == [] || es[|es| - 1].now <= now)
    ensures Admits(After(es), now)
      <==> FailuresSinceSuccess(es) < 5 || now - LatestFailure(es) > 30.0
  {
    StateOf(es);
    if Probed(es) {
      ProbedLate(es);
    }
  }

  function Repeat(e: Event, n: nat): seq<Event> {
    seq(n, _ => e)
  }

  lemma {:induction false} FailuresOpen(now: real, n: nat)
    ensures FailuresSinceSuccess(Repeat(Failure(now), n)) == n
    ensures n > 0 ==> LatestFailure(Repeat(Failure(now), n)) == now
  {
    if n > 0 {
      assert Repeat(Failure(now), n)[..n - 1] == Repeat(Failure(now), n - 1);
      FailuresOpen(now, n - 1);
    }
  }

  lemma {:induction false} GuardsChangeNothing(es: seq<Event>, now: real, n: nat)
    ensures var after := es + Repeat(Guard(now), n);
      FailuresSinceSuccess(after) == FailuresSinceSuccess(es) && LatestFailure(after) == LatestFailure(es)
  {
    var after := es + Repeat(Guard(now), n);
    if n == 0 {
      assert after == es;
    } else {
      assert after[..|after| - 1] == es + Repeat(Guard(now), n - 1);
      GuardsChangeNothing(es, now, n - 1);
    }
  }

  /**
   Five failures open the circuit: up to 30 seconds after the last one nothing is let through, and
   from then on not one probe but any number of requests, one after the other and without an answer.
   */
  lemma ManyProbes(failed: real, now: real, n: nat)
    requires failed <= now
    ensures var es := Repeat(Failure(failed), FAILURE_THRESHOLD) + Repeat(Guard(now), n);
      Admits(After(es), now) <==> now - failed > RECOVERY_TIMEOUT
  {
    var failures := Repeat(Failure(failed), FAILURE_THRESHOLD);
    FailuresOpen(failed, FAILURE_THRESHOLD);
    GuardsChangeNothing(failures, now, n);
    AdmittedIff(failures + Repeat(Guard(now), n), now);
  }
}
