/** Any number of retry loops sharing one breaker, interleaved at every suspension point.

    This discharges the rely condition of CircuitProtocol: whatever the network does and
    whenever tasks are cancelled, the breaker's unresolved permits are exactly those of the
    requests now in flight. */
module RequestProtocol {
  import opened Wrappers
  import opened CircuitBreakers
  import C = CircuitProtocol
  import opened RequestLoop

  /** Where a loop is suspended: about to ask for a permit, reading a response under a permit,
      or sleeping before its next attempt. */
  datatype Stage =
    | Asking(attempt: nat)
    | Reading(attempt: nat, permit: Permit)
    | Sleeping(attempt: nat)
    | Finished(answer: Answer)

  datatype Request = Request(safe: bool, attempts: nat, stage: Stage, sent: nat)

  datatype Fleet = Fleet(circuit: C.System, retryAttempts: nat, maxBytes: nat, requests: seq<Request>)

  datatype Step =
    | Start(safe: bool)
    | Ask(r: nat, now: real)
    | Read(r: nat, reply: Reply, now: real)
    | Wake(r: nat, interrupted: bool)

  predicate Enabled(f: Fleet, step: Step) {
    match step
    case Start(_) => true
    case Ask(r, now) => r < |f.requests| && f.requests[r].stage.Asking? && f.circuit.clock <= now
    case Read(r, _, now) => r < |f.requests| && f.requests[r].stage.Reading? && f.circuit.clock <= now
    case Wake(r, _) => r < |f.requests| && f.requests[r].stage.Sleeping?
  }

  /** The head of the for loop: another attempt, or falling out of the loop. */
  function NextAttempt(attempt: nat, attempts: nat): Stage {
    if attempt < attempts then Asking(attempt) else Finished(FellThrough)
  }

  /** Where a request goes from one suspension point to the next. */
  function Advance(f: Fleet, step: Step): Request
    requires Enabled(f, step) && !step.Start?
  {
    var q := f.requests[step.r];
    match step
    case Ask(_, now) =>
      (match Issue(f.circuit.b, now)
       case None => q.(stage := Finished(CircuitOpen))
       case Some(permit) => q.(stage := Reading(q.stage.attempt, permit), sent := q.sent + 1))
    case Read(_, reply, _) =>
      if Retries(reply, f.maxBytes, q.safe, q.stage.attempt, q.attempts) then
        q.(stage := Sleeping(q.stage.attempt))
      else
        q.(stage := Finished(AnswerTo(reply, f.maxBytes)))
    case Wake(_, interrupted) =>
      if interrupted then q.(stage := Finished(Cancelled))
      else q.(stage := NextAttempt(q.stage.attempt + 1, q.attempts))
  }

  /** What the breaker sees of a step. */
  function EventOf(f: Fleet, step: Step): Option<C.Event>
    requires Enabled(f, step)
  {
    match step
    case Ask(_, now) => Some(C.Ask(now))
    case Read(r, reply, now) => Some(C.Report(f.requests[r].stage.permit, VerdictOn(reply, f.maxBytes), now))
    case _ => None
  }

  /** The breaker's obligation on its callers: a reported permit is one still unresolved. */
  predicate Obliging(f: Fleet, step: Step)
    requires Enabled(f, step)
  {
    EventOf(f, step).Some? ==> C.Enabled(f.circuit, EventOf(f, step).value)
  }

  function Apply(f: Fleet, step: Step): Fleet
    requires Enabled(f, step) && Obliging(f, step)
  {
    var circuit := match EventOf(f, step) case None => f.circuit case Some(e) => C.Apply(f.circuit, e);
    match step
    case Start(safe) =>
      var attempts := if safe then f.retryAttempts else 1;
      f.(requests := f.requests + [Request(safe, attempts, NextAttempt(0, attempts), 0)])
    case _ => f.(circuit := circuit, requests := f.requests[step.r := Advance(f, step)])
  }

  function PermitOf(q: Request): multiset<Permit> {
    if q.stage.Reading? then multiset{q.stage.permit} else multiset{}
  }

  function PermitsOf(requests: seq<Request>): multiset<Permit> {
    if requests == [] then multiset{} else PermitOf(requests[0]) + PermitsOf(requests[1..])
  }

  lemma {:induction false} PermitsUpdate(requests: seq<Request>, r: nat, q: Request)
    requires r < |requests|
    ensures PermitOf(requests[r]) <= PermitsOf(requests)
    ensures PermitsOf(requests[r := q]) == PermitsOf(requests) - PermitOf(requests[r]) + PermitOf(q)
  {
    hide PermitOf;
    hide PermitsOf;
    PermitsCons(requests);
    PermitsCons(requests[r := q]);
    if r == 0 {
      assert requests[r := q][1..] == requests[1..];
      ExchangeFirst(PermitOf(requests[0]), PermitsOf(requests[1..]), PermitOf(q));
    } else {
      PermitsUpdate(requests[1..], r - 1, q);
      assert requests[r := q][1..] == requests[1..][r - 1 := q];
      Exchange(PermitOf(requests[0]), PermitsOf(requests[1..]), PermitOf(requests[r]), PermitOf(q));
    }
  }

  lemma PermitsCons(requests: seq<Request>)
    requires requests != []
    ensures PermitsOf(requests) == PermitOf(requests[0]) + PermitsOf(requests[1..])
  {
  }

  lemma Exchange(a: multiset<Permit>, b: multiset<Permit>, x: multiset<Permit>, y: multiset<Permit>)
    requires x <= b
    ensures a + (b - x + y) == a + b - x + y && x <= a + b
  {
  }

  lemma ExchangeFirst(a: multiset<Permit>, b: multiset<Permit>, y: multiset<Permit>)
    ensures y + b == a + b - a + y && a <= a + b
  {
  }

  lemma Gain(p: multiset<Permit>, x: multiset<Permit>)
    ensures p - multiset{} + x == p + x && p - x + multiset{} == p - x && p + multiset{} == p
  {
  }

  lemma {:induction false} PermitsAppend(requests: seq<Request>, q: Request)
    ensures PermitsOf(requests + [q]) == PermitsOf(requests) + PermitOf(q)
  {
    if requests == [] {
      assert requests + [q] == [q] && [q][1..] == [];
    } else {
      PermitsAppend(requests[1..], q);
      assert (requests + [q])[1..] == requests[1..] + [q];
    }
  }

  /** Each loop stays within its attempts and has sent one request per attempt begun. */
  predicate RequestOk(f: Fleet, q: Request) {
    && q.attempts == (if q.safe then f.retryAttempts else 1)
    && q.sent <= q.attempts
    && q.stage != Finished(FellThrough)
    && (q.stage.Asking? ==> q.stage.attempt < q.attempts && q.sent == q.stage.attempt)
    && (q.stage.Reading? ==> q.stage.attempt < q.attempts && q.sent == q.stage.attempt + 1)
    && (q.stage.Sleeping? ==> q.safe && q.stage.attempt + 1 < q.attempts && q.sent == q.stage.attempt + 1)
  }

  ghost predicate Inv(f: Fleet) {
    && C.Inv(f.circuit)
    && 1 <= f.retryAttempts
    && f.circuit.pending == PermitsOf(f.requests)
    && (forall r :: 0 <= r < |f.requests| ==> RequestOk(f, f.requests[r]))
  }

  function Initial(threshold: nat, resetSeconds: real, clock: real, retryAttempts: nat, maxBytes: nat): Fleet {
    Fleet(C.Initial(threshold, resetSeconds, clock), retryAttempts, maxBytes, [])
  }

  /** A loop only ever reports the permit it is holding, and so meets the breaker's obligation. */
  lemma AlwaysObliging(f: Fleet, step: Step)
    requires Inv(f) && Enabled(f, step)
    ensures Obliging(f, step)
  {
    if step.Read? {
      PermitsUpdate(f.requests, step.r, f.requests[step.r]);
      assert f.requests[step.r].stage.permit in PermitOf(f.requests[step.r]);
    }
  }

  /** A step trades the permit its request held for the one it holds next. */
  lemma StepBag(f: Fleet, step: Step)
    requires Enabled(f, step) && Obliging(f, step) && !step.Start?
    ensures Apply(f, step).circuit.pending ==
              f.circuit.pending - PermitOf(f.requests[step.r]) + PermitOf(Advance(f, step))
  {
    hide AfterVerdict;
    var p := f.circuit.pending;
    var q, q' := f.requests[step.r], Advance(f, step);
    match step
    case Ask(_, now) =>
      Gain(p, PermitOf(q'));
      assert PermitOf(q) == multiset{};
    case Read(_, _, _) =>
      Gain(p, PermitOf(q));
      assert PermitOf(q') == multiset{};
    case Wake(_, _) =>
      Gain(p, multiset{});
      assert PermitOf(q) == multiset{} && PermitOf(q') == multiset{};
  }

  lemma StepPermits(f: Fleet, step: Step)
    requires Enabled(f, step) && Obliging(f, step) && f.circuit.pending == PermitsOf(f.requests)
    ensures Apply(f, step).circuit.pending == PermitsOf(Apply(f, step).requests)
  {
    hide AfterVerdict;
    if step.Start? {
      PermitsAppend(f.requests, Apply(f, step).requests[|f.requests|]);
    } else {
      StepBag(f, step);
      PermitsUpdate(f.requests, step.r, Advance(f, step));
    }
  }

  lemma StepRequests(f: Fleet, step: Step)
    requires Inv(f) && Enabled(f, step) && Obliging(f, step)
    ensures forall r :: 0 <= r < |Apply(f, step).requests| ==> RequestOk(Apply(f, step), Apply(f, step).requests[r])
  {
    hide C.Inv;
    hide C.Apply;
    var f' := Apply(f, step);
    forall r | 0 <= r < |f'.requests|
      ensures RequestOk(f', f'.requests[r])
    {
      if r < |f.requests| {
        assert RequestOk(f, f.requests[r]);
      }
    }
  }

  lemma StepKeeps(f: Fleet, step: Step)
    requires Inv(f) && Enabled(f, step)
    ensures Obliging(f, step) && Inv(Apply(f, step))
  {
    hide C.Inv;
    AlwaysObliging(f, step);
    StepPermits(f, step);
    StepRequests(f, step);
    hide RequestOk;
    match EventOf(f, step) {
      case None =>
      case Some(e) => C.EventKeeps(f.circuit, e);
    }
  }

  /** A schedule of tasks, replies, clock readings and cancellations. */
  ghost predicate Possible(f: Fleet, steps: seq<Step>)
    requires Inv(f)
    decreases |steps|
  {
    steps != [] ==>
      && Enabled(f, steps[0])
      && (StepKeeps(f, steps[0]); Possible(Apply(f, steps[0]), steps[1..]))
  }

  ghost function Run(f: Fleet, steps: seq<Step>): (f': Fleet)
    requires Inv(f) && Possible(f, steps)
    ensures Inv(f')
    ensures f'.retryAttempts == f.retryAttempts
    decreases |steps|
  {
    if steps == [] then f
    else
      StepKeeps(f, steps[0]);
      Run(Apply(f, steps[0]), steps[1..])
  }

  predicate HoldsProbe(q: Request) {
    q.stage.Reading? && q.stage.permit.probe
  }

  ghost predicate AnyProbe(requests: seq<Request>) {
    exists r :: 0 <= r < |requests| && HoldsProbe(requests[r])
  }

  lemma AnyProbeCons(requests: seq<Request>)
    requires requests != []
    ensures AnyProbe(requests) <==> HoldsProbe(requests[0]) || AnyProbe(requests[1..])
  {
    hide HoldsProbe;
    var rest := requests[1..];
    if AnyProbe(rest) {
      var r :| 0 <= r < |rest| && HoldsProbe(rest[r]);
      assert HoldsProbe(requests[r + 1]);
    }
    forall r | 0 < r < |requests| && HoldsProbe(requests[r])
      ensures AnyProbe(rest)
    {
      assert HoldsProbe(rest[r - 1]);
    }
  }

  lemma OwnProbe(q: Request)
    ensures HoldsProbe(q) <==> exists p :: p in PermitOf(q) && p.probe
  {
    if HoldsProbe(q) {
      assert q.stage.permit in PermitOf(q);
    }
  }

  /** A probe is among the permits of some requests exactly when one of them holds it. */
  lemma {:induction false} ProbeHeld(requests: seq<Request>)
    ensures (exists p :: p in PermitsOf(requests) && p.probe) <==> AnyProbe(requests)
  {
    hide PermitOf;
    hide PermitsOf;
    hide HoldsProbe;
    hide AnyProbe;
    if requests == [] {
      NobodyHolds();
    } else {
      ProbeHeld(requests[1..]);
      AnyProbeCons(requests);
      OwnProbe(requests[0]);
      PermitsCons(requests);
    }
  }

  lemma NobodyHolds()
    ensures PermitsOf([]) == multiset{} && !AnyProbe([])
  {
  }

  /** Requests that have all finished hold nothing. */
  lemma {:induction false} FinishedHoldNothing(requests: seq<Request>)
    requires forall r :: 0 <= r < |requests| ==> requests[r].stage.Finished?
    ensures PermitsOf(requests) == multiset{}
  {
    if requests != [] {
      FinishedHoldNothing(requests[1..]);
    }
  }

  /** After any schedule: a probe is in flight exactly when some unfinished request holds it, a
      finished fleet leaves none behind, and no request exceeds its attempts or falls through. */
  lemma NoProbeLeaks(threshold: nat, resetSeconds: real, clock: real, retryAttempts: nat, maxBytes: nat,
                     steps: seq<Step>)
    requires 1 <= threshold && 0.0 <= resetSeconds && 1 <= retryAttempts
    requires Possible(Initial(threshold, resetSeconds, clock, retryAttempts, maxBytes), steps)
    ensures var f := Run(Initial(threshold, resetSeconds, clock, retryAttempts, maxBytes), steps);
            && (f.circuit.b.probeInFlight <==> AnyProbe(f.requests))
            && ((forall r :: 0 <= r < |f.requests| ==> f.requests[r].stage.Finished?) ==>
                  !f.circuit.b.probeInFlight && f.circuit.pending == multiset{})
            && (forall r :: 0 <= r < |f.requests| ==>
                  && f.requests[r].sent <= (if f.requests[r].safe then retryAttempts else 1)
                  && f.requests[r].stage != Finished(FellThrough))
  {
    hide Run;
    hide Possible;
    hide AnyProbe;
    hide C.Inv;
    InitialOk(threshold, resetSeconds, clock, retryAttempts, maxBytes);
    var f := Run(Initial(threshold, resetSeconds, clock, retryAttempts, maxBytes), steps);
    ProbeHeld(f.requests);
    C.ProbeTells(f.circuit);
    if forall r :: 0 <= r < |f.requests| ==> f.requests[r].stage.Finished? {
      FinishedHoldNothing(f.requests);
    }
    forall r | 0 <= r < |f.requests|
      ensures RequestOk(f, f.requests[r])
    {
    }
  }

  lemma InitialOk(threshold: nat, resetSeconds: real, clock: real, retryAttempts: nat, maxBytes: nat)
    requires 1 <= threshold && 0.0 <= resetSeconds && 1 <= retryAttempts
    ensures Inv(Initial(threshold, resetSeconds, clock, retryAttempts, maxBytes))
  {
  }

  /** The clock readings of one run of the loop come in order. */
  ghost predicate InOrder(w: World) {
    && (forall i: nat :: w.askedAt(i) <= w.judgedAt(i))
    && (forall i: nat :: w.judgedAt(i) <= w.askedAt(i + 1))
  }

  /** The schedule that runs request 0 alone from a given attempt on. */
  function SoloSteps(b: Breaker, w: World, maxBytes: nat, safe: bool, attempt: nat, attempts: nat): seq<Step>
    decreases attempts - attempt
  {
    var ask, read := Ask(0, w.askedAt(attempt)), Read(0, w.replies(attempt), w.judgedAt(attempt));
    if attempt >= attempts then []
    else if Issue(b, w.askedAt(attempt)).None? then [ask]
    else
      var permit := Issue(b, w.askedAt(attempt)).value;
      var b' := AfterVerdict(AfterIssue(b, w.askedAt(attempt)), permit,
                             VerdictOn(w.replies(attempt), maxBytes), w.judgedAt(attempt));
      if !Retries(w.replies(attempt), maxBytes, safe, attempt, attempts) then [ask] + ([read] + [])
      else
        [ask] + ([read] + ([Wake(0, w.sleepInterrupted(attempt))] +
          (if w.sleepInterrupted(attempt) then [] else SoloSteps(b', w, maxBytes, safe, attempt + 1, attempts))))
  }

  lemma RunCons(f: Fleet, step: Step, rest: seq<Step>)
    requires Inv(f) && Enabled(f, step)
    ensures Obliging(f, step) && Inv(Apply(f, step))
    ensures Possible(f, [step] + rest) <==> Possible(Apply(f, step), rest)
    ensures Possible(f, [step] + rest) ==> Run(f, [step] + rest) == Run(Apply(f, step), rest)
  {
    StepKeeps(f, step);
    assert ([step] + rest)[1..] == rest;
  }

  /** One answered attempt of a request that runs alone. */
  lemma AttemptAlone(f: Fleet, w: World, attempt: nat)
    requires Inv(f) && InOrder(w) && |f.requests| == 1 && f.requests[0].stage == Asking(attempt)
    requires f.circuit.clock <= w.askedAt(attempt) && Issue(f.circuit.b, w.askedAt(attempt)).Some?
    ensures var q, reply := f.requests[0], w.replies(attempt);
            var ask, read := Ask(0, w.askedAt(attempt)), Read(0, reply, w.judgedAt(attempt));
            var permit := Issue(f.circuit.b, w.askedAt(attempt)).value;
            && Enabled(f, ask) && Obliging(f, ask) && Inv(Apply(f, ask))
            && Enabled(Apply(f, ask), read) && Obliging(Apply(f, ask), read)
            && var f' := Apply(Apply(f, ask), read);
               && Inv(f') && f'.maxBytes == f.maxBytes && f'.circuit.clock == w.judgedAt(attempt)
               && f'.circuit.b == AfterVerdict(AfterIssue(f.circuit.b, w.askedAt(attempt)), permit,
                                               VerdictOn(reply, f.maxBytes), w.judgedAt(attempt))
               && |f'.requests| == 1
               && f'.requests[0] == q.(sent := q.sent + 1,
                                       stage := if Retries(reply, f.maxBytes, q.safe, attempt, q.attempts)
                                                then Sleeping(attempt) else Finished(AnswerTo(reply, f.maxBytes)))
  {
    hide Inv;
    hide VerdictOn;
    hide AnswerTo;
    hide AfterVerdict;
    var ask, read := Ask(0, w.askedAt(attempt)), Read(0, w.replies(attempt), w.judgedAt(attempt));
    StepKeeps(f, ask);
    StepKeeps(Apply(f, ask), read);
  }

  /** A schedule runs the one request of a fleet to its end, with this answer, this many requests sent
      and this breaker left behind. */
  ghost predicate EndsAs(f: Fleet, steps: seq<Step>, answer: Answer, sent: nat, b: Breaker) {
    && Inv(f) && Possible(f, steps)
    && var f' := Run(f, steps);
       && |f'.requests| == 1 && f'.requests[0].stage == Finished(answer) && f'.requests[0].sent == sent
       && f'.circuit.b == b
  }

  lemma EndsNow(f: Fleet, answer: Answer)
    requires Inv(f) && |f.requests| == 1 && f.requests[0].stage == Finished(answer)
    ensures EndsAs(f, [], answer, f.requests[0].sent, f.circuit.b)
  {
    hide Inv;
  }

  lemma EndsAfter(f: Fleet, step: Step, rest: seq<Step>, answer: Answer, sent: nat, b: Breaker)
    requires Inv(f) && Enabled(f, step) && Obliging(f, step) && EndsAs(Apply(f, step), rest, answer, sent, b)
    ensures EndsAs(f, [step] + rest, answer, sent, b)
  {
    hide Inv;
    hide Apply;
    hide Enabled;
    hide Run;
    hide Possible;
    RunCons(f, step, rest);
  }

  /** The one request of a fleet, from an attempt on, ends as the loop does. */
  ghost predicate EndsAsLoop(f: Fleet, w: World, attempt: nat)
    requires |f.requests| == 1
  {
    var q := f.requests[0];
    var steps := SoloSteps(f.circuit.b, w, f.maxBytes, q.safe, attempt, q.attempts);
    var o := Loop(f.circuit.b, w, f.maxBytes, q.safe, attempt, q.attempts);
    EndsAs(f, steps, o.answer, q.sent + o.sent, o.breaker)
  }

  ghost predicate AboutToAsk(f: Fleet, w: World, attempt: nat) {
    && Inv(f) && InOrder(w) && |f.requests| == 1 && f.requests[0].stage == Asking(attempt)
    && f.circuit.clock <= w.askedAt(attempt)
  }

  /** No permit: the loop and the schedule end at once. */
  lemma AloneRefused(f: Fleet, w: World, attempt: nat)
    requires AboutToAsk(f, w, attempt) && Issue(f.circuit.b, w.askedAt(attempt)).None?
    ensures EndsAsLoop(f, w, attempt)
  {
    hide Inv;
    hide EndsAs;
    AskingWithin(f);
    var ask := Ask(0, w.askedAt(attempt));
    StepKeeps(f, ask);
    EndsNow(Apply(f, ask), CircuitOpen);
    EndsAfter(f, ask, [], CircuitOpen, f.requests[0].sent, f.circuit.b);
    assert [ask] + [] == [ask];
  }

  /** The fleet after one answered attempt. */
  function Answered(f: Fleet, w: World, attempt: nat): Fleet
    requires AboutToAsk(f, w, attempt) && Issue(f.circuit.b, w.askedAt(attempt)).Some?
  {
    AttemptAlone(f, w, attempt);
    Apply(Apply(f, Ask(0, w.askedAt(attempt))), Read(0, w.replies(attempt), w.judgedAt(attempt)))
  }

  lemma AnsweredThen(f: Fleet, w: World, attempt: nat, rest: seq<Step>, answer: Answer, sent: nat, b: Breaker)
    requires AboutToAsk(f, w, attempt) && Issue(f.circuit.b, w.askedAt(attempt)).Some?
    requires EndsAs(Answered(f, w, attempt), rest, answer, sent, b)
    ensures var ask, read := Ask(0, w.askedAt(attempt)), Read(0, w.replies(attempt), w.judgedAt(attempt));
            EndsAs(f, [ask] + ([read] + rest), answer, sent, b)
  {
    hide Inv;
    hide EndsAs;
    hide Apply;
    hide Enabled;
    AttemptAlone(f, w, attempt);
    var ask, read := Ask(0, w.askedAt(attempt)), Read(0, w.replies(attempt), w.judgedAt(attempt));
    EndsAfter(Apply(f, ask), read, rest, answer, sent, b);
    EndsAfter(f, ask, [read] + rest, answer, sent, b);
  }

  /** An answer that is final. */
  lemma AloneFinal(f: Fleet, w: World, attempt: nat)
    requires AboutToAsk(f, w, attempt) && Issue(f.circuit.b, w.askedAt(attempt)).Some?
    requires var q := f.requests[0]; !Retries(w.replies(attempt), f.maxBytes, q.safe, attempt, q.attempts)
    ensures EndsAsLoop(f, w, attempt)
  {
    hide Inv;
    hide EndsAs;
    hide Apply;
    hide VerdictOn;
    hide AnswerTo;
    hide AfterVerdict;
    hide AfterIssue;
    hide Issue;
    hide Retries;
    AskingWithin(f);
    AttemptAlone(f, w, attempt);
    var f', answer := Answered(f, w, attempt), AnswerTo(w.replies(attempt), f.maxBytes);
    EndsNow(f', answer);
    AnsweredThen(f, w, attempt, [], answer, f'.requests[0].sent, f'.circuit.b);
  }

  /** The fleet after the sleep that follows a retried answer. */
  function Woken(f: Fleet, w: World, attempt: nat): Fleet
    requires AboutToAsk(f, w, attempt) && Issue(f.circuit.b, w.askedAt(attempt)).Some?
    requires var q := f.requests[0]; Retries(w.replies(attempt), f.maxBytes, q.safe, attempt, q.attempts)
  {
    AttemptAlone(f, w, attempt);
    WakeAlone(Answered(f, w, attempt), w, attempt);
    Apply(Answered(f, w, attempt), Wake(0, w.sleepInterrupted(attempt)))
  }

  /** The breaker that one attempt with a permit leaves. */
  function AfterAttempt(b: Breaker, w: World, maxBytes: nat, attempt: nat): Breaker
    requires Issue(b, w.askedAt(attempt)).Some?
  {
    AfterVerdict(AfterIssue(b, w.askedAt(attempt)), Issue(b, w.askedAt(attempt)).value,
                 VerdictOn(w.replies(attempt), maxBytes), w.judgedAt(attempt))
  }

  lemma WokenIs(f: Fleet, w: World, attempt: nat)
    requires AboutToAsk(f, w, attempt) && Issue(f.circuit.b, w.askedAt(attempt)).Some?
    requires var q := f.requests[0]; Retries(w.replies(attempt), f.maxBytes, q.safe, attempt, q.attempts)
    ensures var q, woken := f.requests[0], Woken(f, w, attempt);
            && Inv(woken) && |woken.requests| == 1 && woken.maxBytes == f.maxBytes
            && woken.circuit.clock == w.judgedAt(attempt)
            && woken.circuit.b == AfterAttempt(f.circuit.b, w, f.maxBytes, attempt)
            && woken.requests[0] == q.(
                 sent := q.sent + 1,
                 stage := if w.sleepInterrupted(attempt) then Finished(Cancelled) else Asking(attempt + 1))
  {
    hide Inv;
    hide Apply;
    hide VerdictOn;
    hide AnswerTo;
    hide AfterVerdict;
    hide AfterIssue;
    hide Issue;
    hide Retries;
    AttemptAlone(f, w, attempt);
    WakeAlone(Answered(f, w, attempt), w, attempt);
  }

  /** The schedule and the loop, unfolded once at an attempt that is retried. */
  lemma RetryUnfolds(b: Breaker, w: World, maxBytes: nat, safe: bool, attempt: nat, attempts: nat)
    requires attempt < attempts && Issue(b, w.askedAt(attempt)).Some?
    requires Retries(w.replies(attempt), maxBytes, safe, attempt, attempts)
    ensures var ask, read := Ask(0, w.askedAt(attempt)), Read(0, w.replies(attempt), w.judgedAt(attempt));
            var wake, b' := Wake(0, w.sleepInterrupted(attempt)), AfterAttempt(b, w, maxBytes, attempt);
            var o := Loop(b, w, maxBytes, safe, attempt, attempts);
            var rest := Loop(b', w, maxBytes, safe, attempt + 1, attempts);
            && SoloSteps(b, w, maxBytes, safe, attempt, attempts)
               == [ask] + ([read] + ([wake] + (if w.sleepInterrupted(attempt) then []
                                               else SoloSteps(b', w, maxBytes, safe, attempt + 1, attempts))))
            && (if w.sleepInterrupted(attempt) then o.answer == Cancelled && o.sent == 1 && o.breaker == b'
                else o.answer == rest.answer && o.sent == 1 + rest.sent && o.breaker == rest.breaker)
  {
    hide Issue;
    hide AfterIssue;
    hide AfterVerdict;
    hide VerdictOn;
    hide Retries;
  }

  /** An answer that is retried, unless the sleep before the next attempt is interrupted. */
  lemma AloneRetry(f: Fleet, w: World, attempt: nat)
    requires AboutToAsk(f, w, attempt) && Issue(f.circuit.b, w.askedAt(attempt)).Some?
    requires var q := f.requests[0]; Retries(w.replies(attempt), f.maxBytes, q.safe, attempt, q.attempts)
    requires var woken := Woken(f, w, attempt);
             !w.sleepInterrupted(attempt) ==> |woken.requests| == 1 && EndsAsLoop(woken, w, attempt + 1)
    ensures EndsAsLoop(f, w, attempt)
  {
    hide Inv;
    hide EndsAs;
    hide Woken;
    hide InOrder;
    hide AfterAttempt;
    hide Loop;
    hide SoloSteps;
    hide Issue;
    hide Retries;
    AskingWithin(f);
    var b, q, woken := f.circuit.b, f.requests[0], Woken(f, w, attempt);
    RetryUnfolds(b, w, f.maxBytes, q.safe, attempt, q.attempts);
    WokenIs(f, w, attempt);
    if w.sleepInterrupted(attempt) {
      EndsNow(woken, Cancelled);
      WokenThen(f, w, attempt, [], Cancelled, q.sent + 1, woken.circuit.b);
    } else {
      var o := Loop(woken.circuit.b, w, f.maxBytes, q.safe, attempt + 1, q.attempts);
      WokenThen(f, w, attempt, SoloSteps(woken.circuit.b, w, f.maxBytes, q.safe, attempt + 1, q.attempts),
                o.answer, q.sent + 1 + o.sent, o.breaker);
    }
  }

  lemma WokenThen(f: Fleet, w: World, attempt: nat, rest: seq<Step>, answer: Answer, sent: nat, b: Breaker)
    requires AboutToAsk(f, w, attempt) && Issue(f.circuit.b, w.askedAt(attempt)).Some?
    requires var q := f.requests[0]; Retries(w.replies(attempt), f.maxBytes, q.safe, attempt, q.attempts)
    requires EndsAs(Woken(f, w, attempt), rest, answer, sent, b)
    ensures var ask, read := Ask(0, w.askedAt(attempt)), Read(0, w.replies(attempt), w.judgedAt(attempt));
            EndsAs(f, [ask] + ([read] + ([Wake(0, w.sleepInterrupted(attempt))] + rest)), answer, sent, b)
  {
    hide Inv;
    hide EndsAs;
    hide Apply;
    hide Enabled;
    hide Issue;
    hide Retries;
    AttemptAlone(f, w, attempt);
    WakeAlone(Answered(f, w, attempt), w, attempt);
    var wake := Wake(0, w.sleepInterrupted(attempt));
    EndsAfter(Answered(f, w, attempt), wake, rest, answer, sent, b);
    AnsweredThen(f, w, attempt, [wake] + rest, answer, sent, b);
  }

  /** Left alone, a request of the fleet runs exactly the loop of _request_json. */
  lemma {:induction false} AloneIsTheLoop(f: Fleet, w: World, attempt: nat)
    requires AboutToAsk(f, w, attempt)
    ensures EndsAsLoop(f, w, attempt)
    decreases f.requests[0].attempts - attempt
  {
    hide Inv;
    hide EndsAsLoop;
    hide Woken;
    hide AfterAttempt;
    hide Issue;
    hide Retries;
    AskingWithin(f);
    var q := f.requests[0];
    if Issue(f.circuit.b, w.askedAt(attempt)).None? {
      AloneRefused(f, w, attempt);
    } else if Retries(w.replies(attempt), f.maxBytes, q.safe, attempt, q.attempts) {
      WokenIs(f, w, attempt);
      if !w.sleepInterrupted(attempt) {
        AloneIsTheLoop(Woken(f, w, attempt), w, attempt + 1);
      }
      AloneRetry(f, w, attempt);
    } else {
      AloneFinal(f, w, attempt);
    }
  }

  lemma WakeAlone(f: Fleet, w: World, attempt: nat)
    requires Inv(f) && |f.requests| == 1 && f.requests[0].stage == Sleeping(attempt)
    ensures var wake := Wake(0, w.sleepInterrupted(attempt));
            && Enabled(f, wake) && Obliging(f, wake) && Inv(Apply(f, wake))
            && Apply(f, wake) == f.(requests := [f.requests[0].(
                 stage := if w.sleepInterrupted(attempt) then Finished(Cancelled) else Asking(attempt + 1))])
  {
    StepKeeps(f, Wake(0, w.sleepInterrupted(attempt)));
    assert RequestOk(f, f.requests[0]);
  }

  lemma AskingWithin(f: Fleet)
    requires Inv(f) && |f.requests| == 1 && f.requests[0].stage.Asking?
    ensures f.requests[0].stage.attempt < f.requests[0].attempts
  {
    assert RequestOk(f, f.requests[0]);
  }
}
