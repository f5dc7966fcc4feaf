/** What the replies that a fleet of requests gets do to the breaker that it shares. */
module CircuitHealth {
  import opened CircuitBreakers
  import C = CircuitProtocol
  import opened RequestLoop
  import opened RequestProtocol

  /** No request learns that Odoo is unavailable. */
  predicate NoneUnavailable(steps: seq<Step>, maxBytes: nat) {
    forall step :: step in steps && step.Read? ==> !Unavailable(step.reply, maxBytes)
  }

  /** A step opens a closed breaker only by reading a reply of an Odoo that is unavailable. */
  lemma StepStaysClosed(f: Fleet, step: Step)
    requires Inv(f) && Enabled(f, step) && f.circuit.b.Status() == Closed
    requires step.Read? ==> !Unavailable(step.reply, f.maxBytes)
    ensures Obliging(f, step) && Apply(f, step).circuit.b.Status() == Closed
    ensures Apply(f, step).maxBytes == f.maxBytes
  {
    hide C.Apply;
    AlwaysObliging(f, step);
    if EventOf(f, step).Some? {
      C.OpensAtTheThreshold(f.circuit, EventOf(f, step).value);
    }
    if step.Read? {
      VerdictFits(step.reply, f.maxBytes);
    }
  }

  /** As long as Odoo answers, whatever it answers, and however many requests are interleaved or
      interrupted, a closed breaker stays closed. */
  lemma {:induction false} HealthyFleetsStayClosed(f: Fleet, steps: seq<Step>)
    requires Inv(f) && Possible(f, steps) && f.circuit.b.Status() == Closed && NoneUnavailable(steps, f.maxBytes)
    ensures Run(f, steps).circuit.b.Status() == Closed
    decreases |steps|
  {
    hide Inv;
    hide Apply;
    hide Enabled;
    hide Unavailable;
    if steps != [] {
      assert steps[0] in steps;
      StepKeeps(f, steps[0]);
      StepStaysClosed(f, steps[0]);
      HealthyFleetsStayClosed(Apply(f, steps[0]), steps[1..]);
    }
  }

  /** A request reads a failing reply under a permit that was issued since the circuit last closed. */
  predicate CountedFailure(f: Fleet, step: Step)
    requires Enabled(f, step)
  {
    && step.Read? && Unavailable(step.reply, f.maxBytes)
    && C.IssuedIn(C.Era(f.circuit.marks), f.requests[step.r].stage.permit)
  }

  /** How many of those there are in a schedule. */
  ghost function CountedFailures(f: Fleet, steps: seq<Step>): nat
    requires Inv(f) && Possible(f, steps)
    decreases |steps|
  {
    if steps == [] then 0
    else
      StepKeeps(f, steps[0]);
      (if CountedFailure(f, steps[0]) then 1 else 0) + CountedFailures(Apply(f, steps[0]), steps[1..])
  }

  /** The breaker is closed before, between and after these steps. */
  ghost predicate ClosedThroughout(f: Fleet, steps: seq<Step>)
    requires Inv(f) && Possible(f, steps)
    decreases |steps|
  {
    && f.circuit.b.Status() == Closed
    && (steps != [] ==> (StepKeeps(f, steps[0]); ClosedThroughout(Apply(f, steps[0]), steps[1..])))
  }

  /** No request is answered by Odoo itself. */
  predicate NoneAnswered(steps: seq<Step>, maxBytes: nat) {
    forall step :: step in steps && step.Read? ==> step.reply.Interrupted? || Unavailable(step.reply, maxBytes)
  }

  /** While the breaker is closed, a counted failure lengthens the run of failures by one, and nothing
      but an answer of Odoo shortens it. */
  lemma StepStreak(f: Fleet, step: Step)
    requires Inv(f) && Enabled(f, step) && Obliging(f, step) && f.circuit.b.Status() == Closed
    requires step.Read? ==> step.reply.Interrupted? || Unavailable(step.reply, f.maxBytes)
    requires Apply(f, step).circuit.b.Status() == Closed
    ensures C.Streak(C.Era(Apply(f, step).circuit.marks))
            == C.Streak(C.Era(f.circuit.marks)) + (if CountedFailure(f, step) then 1 else 0)
    ensures Apply(f, step).maxBytes == f.maxBytes
  {
    if EventOf(f, step).Some? {
      var e := EventOf(f, step).value;
      match e
      case Ask(now) =>
        AskStreak(f.circuit, now);
      case Report(p, verdict, now) =>
        VerdictFits(step.reply, f.maxBytes);
        ReportStreak(f.circuit, p, verdict, now);
    }
  }

  lemma AskStreak(s: C.System, now: real)
    requires C.Inv(s) && C.Enabled(s, C.Ask(now)) && s.b.Status() == Closed
    ensures C.Streak(C.Era(C.Apply(s, C.Ask(now)).marks)) == C.Streak(C.Era(s.marks))
  {
    hide C.Era;
    hide C.Streak;
    hide C.IssuedIn;
    hide C.Inv;
    var p := Issue(s.b, now);
    if p.Some? {
      C.Snoc(s.marks, C.Issued(p.value, now));
      C.Snoc(C.Era(s.marks), C.Issued(p.value, now));
    }
  }

  lemma ReportStreak(s: C.System, p: Permit, verdict: Verdict, now: real)
    requires C.Inv(s) && C.Enabled(s, C.Report(p, verdict, now)) && s.b.Status() == Closed && verdict != Success
    requires C.Apply(s, C.Report(p, verdict, now)).b.Status() == Closed
    ensures C.Streak(C.Era(C.Apply(s, C.Report(p, verdict, now)).marks))
            == C.Streak(C.Era(s.marks)) + (if verdict == Failure && C.IssuedIn(C.Era(s.marks), p) then 1 else 0)
  {
    hide C.Era;
    hide C.Streak;
    hide C.IssuedIn;
    hide C.Inv;
    hide AfterVerdict;
    if verdict == Failure {
      C.Snoc(s.marks, C.Reported(p, false, now));
      C.Snoc(C.Era(s.marks), C.Reported(p, false, now));
    }
  }

  /** In a row, failures add up: as long as the breaker is closed and Odoo itself answers nobody, the
      counted failures lengthen the run there was, and it stays below the threshold. */
  lemma {:induction false} FailuresAddUp(f: Fleet, steps: seq<Step>)
    requires Inv(f) && Possible(f, steps) && NoneAnswered(steps, f.maxBytes) && ClosedThroughout(f, steps)
    ensures C.Streak(C.Era(f.circuit.marks)) + CountedFailures(f, steps) < f.circuit.b.threshold
    decreases |steps|
  {
    hide Apply;
    hide Enabled;
    hide CountedFailure;
    hide Unavailable;
    hide C.Era;
    hide C.Streak;
    if steps != [] {
      assert steps[0] in steps;
      StepKeeps(f, steps[0]);
      var next := Apply(f, steps[0]);
      assert ClosedThroughout(next, steps[1..]);
      StepStreak(f, steps[0]);
      SameThreshold(f, steps[0]);
      FailuresAddUp(next, steps[1..]);
    }
  }

  lemma SameThreshold(f: Fleet, step: Step)
    requires Enabled(f, step) && Obliging(f, step)
    ensures Apply(f, step).circuit.b.threshold == f.circuit.b.threshold
  {
  }

  /** Only an answer of Odoo closes the breaker again. */
  lemma StepStaysOpen(f: Fleet, step: Step)
    requires Inv(f) && Enabled(f, step) && Obliging(f, step) && f.circuit.b.Status() != Closed
    requires step.Read? ==> step.reply.Interrupted? || Unavailable(step.reply, f.maxBytes)
    ensures Apply(f, step).circuit.b.Status() != Closed
    ensures Apply(f, step).maxBytes == f.maxBytes
  {
    hide C.Apply;
    if EventOf(f, step).Some? {
      C.OnlyTheProbeTurns(f.circuit, EventOf(f, step).value);
    }
    if step.Read? {
      VerdictFits(step.reply, f.maxBytes);
    }
  }

  lemma SameMaxBytes(f: Fleet, step: Step)
    requires Enabled(f, step) && Obliging(f, step)
    ensures Apply(f, step).maxBytes == f.maxBytes
  {
  }

  lemma {:induction false} OpenToTheEnd(f: Fleet, steps: seq<Step>)
    requires Inv(f) && Possible(f, steps) && NoneAnswered(steps, f.maxBytes) && !ClosedThroughout(f, steps)
    ensures Run(f, steps).circuit.b.Status() != Closed
    decreases |steps|
  {
    hide Inv;
    hide Apply;
    hide Enabled;
    hide Unavailable;
    if steps != [] {
      assert steps[0] in steps;
      StepKeeps(f, steps[0]);
      SameMaxBytes(f, steps[0]);
      var next := Apply(f, steps[0]);
      if f.circuit.b.Status() != Closed {
        StepStaysOpen(f, steps[0]);
        assert !ClosedThroughout(next, steps[1..]);
      }
      OpenToTheEnd(next, steps[1..]);
    }
  }

  /** So an Odoo that cannot be reached opens the breaker: once as many failures in a row as the threshold
      have been read under current permits, and for as long as Odoo answers nobody, it is not closed. */
  lemma FailuresOpenTheBreaker(f: Fleet, steps: seq<Step>)
    requires Inv(f) && Possible(f, steps) && NoneAnswered(steps, f.maxBytes)
    requires f.circuit.b.threshold <= CountedFailures(f, steps)
    ensures Run(f, steps).circuit.b.Status() != Closed
  {
    hide Inv;
    hide Possible;
    hide CountedFailures;
    if ClosedThroughout(f, steps) {
      FailuresAddUp(f, steps);
    } else {
      OpenToTheEnd(f, steps);
    }
  }
}
