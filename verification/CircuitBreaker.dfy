/** The transport circuit breaker of client.py.

    Permits carry the generation they were issued in.  A result reported with a permit of
    an older generation is ignored, so a slow request cannot disturb a circuit that has
    since been opened or closed.  Times are readings of a monotonic clock. */
module CircuitBreakers {
  import opened Wrappers

  datatype Permit = Permit(generation: nat, probe: bool)

  datatype Status = Closed | Open | HalfOpen

  datatype Breaker = Breaker(
    threshold: nat,
    resetSeconds: real,
    failures: nat,
    openedAt: Option<real>,
    probeInFlight: bool,
    generation: nat) {

    function Status(): Status {
      if openedAt.None? then Closed else if probeInFlight then HalfOpen else Open
    }
  }

  function New(threshold: nat, resetSeconds: real): Breaker {
    Breaker(threshold, resetSeconds, 0, None, false, 0)
  }

  /** acquire: the permit issued at time now, or None for CircuitOpenError. */
  function Issue(b: Breaker, now: real): Option<Permit> {
    if b.openedAt.None? then Some(Permit(b.generation, false))
    else if now - b.openedAt.value < b.resetSeconds || b.probeInFlight then None
    else Some(Permit(b.generation, true))
  }

  function AfterIssue(b: Breaker, now: real): Breaker {
    if Issue(b, now) == Some(Permit(b.generation, true)) then b.(probeInFlight := true) else b
  }

  /** How a request disposes of its permit. */
  datatype Verdict = Success | Failure | Unresolved

  /** record_success, record_failure and release. */
  function AfterVerdict(b: Breaker, permit: Permit, verdict: Verdict, now: real): Breaker {
    if permit.generation != b.generation then b
    else
      match verdict
      case Success =>
        b.(failures := 0, openedAt := None, probeInFlight := false,
           generation := if permit.probe then b.generation + 1 else b.generation)
      case Failure =>
        if permit.probe || b.failures + 1 >= b.threshold then
          b.(failures := b.failures + 1, openedAt := Some(now), probeInFlight := false,
             generation := b.generation + 1)
        else
          b.(failures := b.failures + 1)
      case Unresolved => if permit.probe then b.(probeInFlight := false) else b
  }

  /** calls is the history of acquisitions and verdicts, in the order the breaker saw them. */
  datatype Call = Acquired(issued: Option<Permit>) | Judged(permit: Permit, verdict: Verdict)

  class CircuitBreaker {
    const failureThreshold: nat
    const resetSeconds: real
    var failures: nat
    var openedAt: Option<real>
    var probeInFlight: bool
    var generation: nat
    ghost var calls: seq<Call>

    function Value(): Breaker
      reads this
    {
      Breaker(failureThreshold, resetSeconds, failures, openedAt, probeInFlight, generation)
    }

    constructor (failureThreshold: nat, resetSeconds: real)
      ensures Value() == New(failureThreshold, resetSeconds) && calls == []
    {
      this.failureThreshold, this.resetSeconds := failureThreshold, resetSeconds;
      failures, openedAt, probeInFlight, generation := 0, None, false, 0;
      calls := [];
    }

    method State() returns (status: Status)
      ensures status == Value().Status()
    {
      if openedAt.None? {
        return Closed;
      }
      if probeInFlight {
        return HalfOpen;
      }
      status := Open;
    }

    method Acquire(now: real) returns (permit: Option<Permit>)
      modifies this
      ensures permit == Issue(old(Value()), now)
      ensures Value() == AfterIssue(old(Value()), now)
      ensures calls == old(calls) + [Acquired(permit)]
    {
      if openedAt.None? {
        permit := Some(Permit(generation, false));
      } else if now - openedAt.value < resetSeconds {
        permit := None;
      } else if probeInFlight {
        permit := None;
      } else {
        probeInFlight := true;
        permit := Some(Permit(generation, true));
      }
      calls := calls + [Acquired(permit)];
    }

    method RecordSuccess(permit: Permit, ghost now: real)
      modifies this
      ensures Value() == AfterVerdict(old(Value()), permit, Success, now)
      ensures calls == old(calls) + [Judged(permit, Success)]
    {
      calls := calls + [Judged(permit, Success)];
      if permit.generation != generation {
        return;
      }
      failures := 0;
      openedAt := None;
      probeInFlight := false;
      if permit.probe {
        generation := generation + 1;
      }
    }

    method RecordFailure(permit: Permit, now: real)
      modifies this
      ensures Value() == AfterVerdict(old(Value()), permit, Failure, now)
      ensures calls == old(calls) + [Judged(permit, Failure)]
    {
      calls := calls + [Judged(permit, Failure)];
      if permit.generation != generation {
        return;
      }
      failures := failures + 1;
      if permit.probe || failures >= failureThreshold {
        openedAt := Some(now);
        probeInFlight := false;
        generation := generation + 1;
      }
    }

    method Release(permit: Permit, ghost now: real)
      modifies this
      ensures Value() == AfterVerdict(old(Value()), permit, Unresolved, now)
      ensures calls == old(calls) + [Judged(permit, Unresolved)]
    {
      calls := calls + [Judged(permit, Unresolved)];
      if permit.generation == generation && permit.probe {
        probeInFlight := false;
      }
    }
  }
}
