/** The retry loop of _request_json in client.py.

    An attempt's reply comes from the network, so it is an input.  RequestJson is the loop as
    the source runs it; RequestProtocol lets any number of these loops share one breaker. */
module RequestLoop {
  import opened Wrappers
  import opened CircuitBreakers

  /** What reading one streamed response came to.  Interrupted is any exception the loop does
      not handle, above all the cancellation of the calling task. */
  datatype Reply =
    | Response(status: int, bytes: nat, isEnvelope: bool)
    | TransportError
    | Interrupted

  datatype Answer =
    | Data
    | ApiError
    | InvalidResponse
    | ResponseTooLarge
    | GatewayError
    | Unreachable
    | CircuitOpen
    | Cancelled
    | FellThrough

  const SAFE_OPERATIONS := {
    "capabilities", "system.info", "identity.whoami", "models.list", "models.describe",
    "records.search", "records.read", "records.count", "records.aggregate",
    "attachments.read", "reports.render", "changes.status"
  }

  const RETRYABLE_STATUS: set<int> := {502, 503, 504}

  /** The size limit is checked while reading, before the status; the status before the body. */
  predicate TooLarge(reply: Reply, maxBytes: nat) {
    reply.Response? && reply.bytes > maxBytes
  }

  predicate Transient(reply: Reply, maxBytes: nat) {
    reply.TransportError? || (reply.Response? && !TooLarge(reply, maxBytes) && reply.status in RETRYABLE_STATUS)
  }

  /** How the permit of an attempt is disposed of. */
  function VerdictOn(reply: Reply, maxBytes: nat): Verdict {
    if reply.Interrupted? then Unresolved else if Transient(reply, maxBytes) then Failure else Success
  }

  /** The loop's answer if it does not go round again after this reply. */
  function AnswerTo(reply: Reply, maxBytes: nat): Answer {
    match reply
    case Interrupted => Cancelled
    case TransportError => Unreachable
    case Response(status, bytes, isEnvelope) =>
      if bytes > maxBytes then ResponseTooLarge
      else if status in RETRYABLE_STATUS then GatewayError
      else if !isEnvelope then InvalidResponse
      else if status >= 400 then ApiError
      else Data
  }

  predicate Retries(reply: Reply, maxBytes: nat, safe: bool, attempt: nat, attempts: nat) {
    Transient(reply, maxBytes) && safe && attempt + 1 < attempts
  }

  /** What the world does to one run of the loop, attempt by attempt. */
  datatype World = World(
    replies: nat -> Reply,
    askedAt: nat -> real,
    judgedAt: nat -> real,
    sleepInterrupted: nat -> bool)

  datatype Outcome = Outcome(answer: Answer, sent: nat, calls: seq<Call>, breaker: Breaker)

  /** The loop from a given attempt on, run on a breaker that nobody else touches meanwhile. */
  function Loop(b: Breaker, w: World, maxBytes: nat, safe: bool, attempt: nat, attempts: nat): Outcome
    decreases attempts - attempt
  {
    if attempt >= attempts then Outcome(FellThrough, 0, [], b)
    else
      match Issue(b, w.askedAt(attempt))
      case None => Outcome(CircuitOpen, 0, [Acquired(None)], b)
      case Some(permit) =>
        var reply := w.replies(attempt);
        var verdict := VerdictOn(reply, maxBytes);
        var b' := AfterVerdict(AfterIssue(b, w.askedAt(attempt)), permit, verdict, w.judgedAt(attempt));
        var calls := [Acquired(Some(permit)), Judged(permit, verdict)];
        if !Retries(reply, maxBytes, safe, attempt, attempts) then
          Outcome(AnswerTo(reply, maxBytes), 1, calls, b')
        else if w.sleepInterrupted(attempt) then
          Outcome(Cancelled, 1, calls, b')
        else
          var rest := Loop(b', w, maxBytes, safe, attempt + 1, attempts);
          Outcome(rest.answer, 1 + rest.sent, calls + rest.calls, rest.breaker)
  }

  /** An outcome seen from further back, after some calls and requests already made. */
  function Resume(made: seq<Call>, sent: nat, rest: Outcome): Outcome {
    Outcome(rest.answer, sent + rest.sent, made + rest.calls, rest.breaker)
  }

  /** The loop seen one attempt at a time. */
  lemma LoopUnfolds(b: Breaker, w: World, maxBytes: nat, safe: bool, attempt: nat, attempts: nat,
                    made: seq<Call>, sent: nat)
    requires attempt < attempts
    ensures var whole := Resume(made, sent, Loop(b, w, maxBytes, safe, attempt, attempts));
            var permit := Issue(b, w.askedAt(attempt));
            if permit.None? then whole == Outcome(CircuitOpen, sent, made + [Acquired(None)], b)
            else
              var reply := w.replies(attempt);
              var verdict := VerdictOn(reply, maxBytes);
              var b' := AfterVerdict(AfterIssue(b, w.askedAt(attempt)), permit.value, verdict, w.judgedAt(attempt));
              var made' := made + [Acquired(permit), Judged(permit.value, verdict)];
              whole ==
                if !Retries(reply, maxBytes, safe, attempt, attempts) then
                  Outcome(AnswerTo(reply, maxBytes), sent + 1, made', b')
                else if w.sleepInterrupted(attempt) then
                  Outcome(Cancelled, sent + 1, made', b')
                else
                  Resume(made', sent + 1, Loop(b', w, maxBytes, safe, attempt + 1, attempts))
  {
  }

  lemma LoopBegins(o: Outcome)
    ensures Resume([], 0, o) == o
  {
    assert [] + o.calls == o.calls;
  }

  lemma LoopEnds(b: Breaker, w: World, maxBytes: nat, safe: bool, attempts: nat, made: seq<Call>, sent: nat)
    ensures Resume(made, sent, Loop(b, w, maxBytes, safe, attempts, attempts)) == Outcome(FellThrough, sent, made, b)
  {
    assert made + [] == made;
  }

  /** Every permit obtained is disposed of once, at once, by the same permit; a refusal ends the loop. */
  predicate Paired(calls: seq<Call>)
    decreases |calls|
  {
    || calls == []
    || calls == [Acquired(None)]
    || (&& |calls| >= 2 && calls[0].Acquired? && calls[0].issued.Some?
        && calls[1].Judged? && calls[1].permit == calls[0].issued.value
        && Paired(calls[2..]))
  }

  function Requests(calls: seq<Call>): nat {
    if calls == [] then 0
    else (if calls[0].Acquired? && calls[0].issued.Some? then 1 else 0) + Requests(calls[1..])
  }

  /** Every exit of the loop leaves its permits disposed of exactly once, sends no more than its
      attempts, and an unsafe request is sent at most once whatever happens. */
  lemma {:induction false} LoopDischarges(b: Breaker, w: World, maxBytes: nat, safe: bool, attempt: nat, attempts: nat)
    ensures var o := Loop(b, w, maxBytes, safe, attempt, attempts);
            && Paired(o.calls) && Requests(o.calls) == o.sent
            && attempt + o.sent <= (if attempt < attempts then attempts else attempt)
            && (!safe ==> o.sent <= 1)
            && (o.answer == FellThrough <==> attempts <= attempt)
            && (o.answer == CircuitOpen ==> o.calls != [] && o.calls[|o.calls| - 1] == Acquired(None))
    decreases attempts - attempt
  {
    if attempt < attempts && Issue(b, w.askedAt(attempt)).Some? {
      var o := Loop(b, w, maxBytes, safe, attempt, attempts);
      var permit := Issue(b, w.askedAt(attempt)).value;
      var verdict := VerdictOn(w.replies(attempt), maxBytes);
      var b' := AfterVerdict(AfterIssue(b, w.askedAt(attempt)), permit, verdict, w.judgedAt(attempt));
      var calls := [Acquired(Some(permit)), Judged(permit, verdict)];
      if Retries(w.replies(attempt), maxBytes, safe, attempt, attempts) && !w.sleepInterrupted(attempt) {
        LoopDischarges(b', w, maxBytes, safe, attempt + 1, attempts);
        var rest := Loop(b', w, maxBytes, safe, attempt + 1, attempts);
        RequestsPair(permit, verdict, rest.calls);
      } else {
        assert o.calls == calls + [];
        RequestsPair(permit, verdict, []);
      }
    }
  }

  lemma RequestsPair(permit: Permit, verdict: Verdict, rest: seq<Call>)
    ensures var calls := [Acquired(Some(permit)), Judged(permit, verdict)] + rest;
            Requests(calls) == 1 + Requests(rest) && (Paired(rest) ==> Paired(calls))
  {
    var calls := [Acquired(Some(permit)), Judged(permit, verdict)] + rest;
    assert calls[1..][1..] == rest && calls[2..] == rest;
  }

  predicate GatewayStatus(status: int) {
    status == 502 || status == 503 || status == 504
  }

  /** A reply that tells of an Odoo that cannot be reached: no response, or a gateway's own. */
  predicate Unavailable(reply: Reply, maxBytes: nat) {
    reply.TransportError? || (reply.Response? && reply.bytes <= maxBytes && GatewayStatus(reply.status))
  }

  /** A permit is judged a failure exactly for such a reply, is given back unresolved exactly when the
      attempt was interrupted, and is judged a success for anything else that Odoo answers. */
  ghost predicate FitVerdict(verdict: Verdict, reply: Reply, maxBytes: nat) {
    && (verdict == Failure <==> Unavailable(reply, maxBytes))
    && (verdict == Unresolved <==> reply.Interrupted?)
    && (verdict == Success <==> reply.Response? && !Unavailable(reply, maxBytes))
  }

  lemma VerdictFits(reply: Reply, maxBytes: nat)
    ensures FitVerdict(VerdictOn(reply, maxBytes), reply, maxBytes)
  {
  }

  /** The answer of a loop that ends with a reply: more says that it might go round again, and
      interrupted that it is cancelled while it waits to. */
  ghost predicate FitAnswer(answer: Answer, reply: Reply, maxBytes: nat, more: bool, interrupted: bool) {
    var whole := reply.Response? && reply.bytes <= maxBytes;
    && (answer == Data <==>
          whole && !GatewayStatus(reply.status) && reply.isEnvelope && reply.status < 400)
    && (answer == ApiError <==>
          whole && !GatewayStatus(reply.status) && reply.isEnvelope && 400 <= reply.status)
    && (answer == InvalidResponse <==> whole && !GatewayStatus(reply.status) && !reply.isEnvelope)
    && (answer == ResponseTooLarge <==> reply.Response? && maxBytes < reply.bytes)
    && (answer == GatewayError <==> whole && GatewayStatus(reply.status) && !more)
    && (answer == Unreachable <==> reply.TransportError? && !more)
    && (answer == Cancelled <==> reply.Interrupted? || (Unavailable(reply, maxBytes) && more && interrupted))
  }

  /** The i-th attempt of all had a permit, which was disposed of by the same permit and judged by its own
      reply; first is the attempt that the calls begin with. */
  ghost predicate FairlyJudged(calls: seq<Call>, w: World, maxBytes: nat, first: nat, i: nat)
    requires first <= i
  {
    var k := 2 * (i - first);
    && k + 1 < |calls| && calls[k].Acquired? && calls[k].issued.Some?
    && calls[k + 1].Judged? && calls[k + 1].permit == calls[k].issued.value
    && FitVerdict(calls[k + 1].verdict, w.replies(i), maxBytes)
  }

  /** After the i-th attempt the loop may, and does, go round again. */
  predicate GoesRound(w: World, maxBytes: nat, safe: bool, i: nat, attempts: nat) {
    Unavailable(w.replies(i), maxBytes) && !w.sleepInterrupted(i) && safe && i + 1 < attempts
  }

  /** What a loop makes of the replies it gets: each permit is judged by its own reply, the loop goes
      round again exactly after a reply that tells of an unavailable Odoo, as long as it may and is not
      cancelled, and its answer is that of its last reply, unless the breaker refused the next one. */
  ghost predicate AnswersByReplies(o: Outcome, w: World, maxBytes: nat, safe: bool, first: nat, attempts: nat) {
    && |o.calls| == 2 * o.sent + (if o.answer == CircuitOpen then 1 else 0)
    && (forall i: nat :: first <= i < first + o.sent ==> FairlyJudged(o.calls, w, maxBytes, first, i))
    && (forall i: nat :: first <= i < first + o.sent && (i + 1 < first + o.sent || o.answer == CircuitOpen) ==>
          GoesRound(w, maxBytes, safe, i, attempts))
    && (o.answer == FellThrough || o.answer == CircuitOpen
        || (&& 0 < o.sent
            && var last := first + o.sent - 1;
               FitAnswer(o.answer, w.replies(last), maxBytes, safe && last + 1 < attempts, w.sleepInterrupted(last))))
  }

  lemma {:induction false} LoopAnswers(b: Breaker, w: World, maxBytes: nat, safe: bool, attempt: nat, attempts: nat)
    ensures AnswersByReplies(Loop(b, w, maxBytes, safe, attempt, attempts), w, maxBytes, safe, attempt, attempts)
    decreases attempts - attempt
  {
    hide AnswersByReplies;
    hide FitVerdict;
    hide FitAnswer;
    hide AfterVerdict;
    hide VerdictOn;
    hide Unavailable;
    if attempt >= attempts || Issue(b, w.askedAt(attempt)).None? {
      NoAttempt(b, w, maxBytes, safe, attempt, attempts);
    } else {
      var reply := w.replies(attempt);
      var permit, verdict := Issue(b, w.askedAt(attempt)).value, VerdictOn(reply, maxBytes);
      var b' := AfterVerdict(AfterIssue(b, w.askedAt(attempt)), permit, verdict, w.judgedAt(attempt));
      VerdictFits(reply, maxBytes);
      RetriesExactly(reply, maxBytes, safe, attempt, attempts, w.sleepInterrupted(attempt));
      if Retries(reply, maxBytes, safe, attempt, attempts) && !w.sleepInterrupted(attempt) {
        LoopAnswers(b', w, maxBytes, safe, attempt + 1, attempts);
        LoopDischarges(b', w, maxBytes, safe, attempt + 1, attempts);
        AnswersBehind(Loop(b', w, maxBytes, safe, attempt + 1, attempts), w, maxBytes, safe, attempt, attempts, permit,
                      verdict);
      } else {
        LastAttempt(Loop(b, w, maxBytes, safe, attempt, attempts), w, maxBytes, safe, attempt, attempts, permit,
                    verdict);
      }
    }
  }

  lemma NoAttempt(b: Breaker, w: World, maxBytes: nat, safe: bool, attempt: nat, attempts: nat)
    requires attempt >= attempts || Issue(b, w.askedAt(attempt)).None?
    ensures AnswersByReplies(Loop(b, w, maxBytes, safe, attempt, attempts), w, maxBytes, safe, attempt, attempts)
  {
  }

  lemma LastAttempt(o: Outcome, w: World, maxBytes: nat, safe: bool, attempt: nat, attempts: nat,
                    permit: Permit, verdict: Verdict)
    requires o.sent == 1 && o.calls == [Acquired(Some(permit)), Judged(permit, verdict)]
    requires FitVerdict(verdict, w.replies(attempt), maxBytes) && o.answer != FellThrough && o.answer != CircuitOpen
    requires FitAnswer(o.answer, w.replies(attempt), maxBytes, safe && attempt + 1 < attempts,
                       w.sleepInterrupted(attempt))
    ensures AnswersByReplies(o, w, maxBytes, safe, attempt, attempts)
  {
    hide FitVerdict;
    hide FitAnswer;
  }

  lemma RetriesExactly(reply: Reply, maxBytes: nat, safe: bool, attempt: nat, attempts: nat, interrupted: bool)
    ensures var more := safe && attempt + 1 < attempts;
            && (Retries(reply, maxBytes, safe, attempt, attempts) <==> Unavailable(reply, maxBytes) && more)
            && (!Retries(reply, maxBytes, safe, attempt, attempts) ==>
                  FitAnswer(AnswerTo(reply, maxBytes), reply, maxBytes, more, interrupted))
            && (Retries(reply, maxBytes, safe, attempt, attempts) && interrupted ==>
                  FitAnswer(Cancelled, reply, maxBytes, more, interrupted))
  {
  }

  lemma AnswersBehind(rest: Outcome, w: World, maxBytes: nat, safe: bool, attempt: nat, attempts: nat,
                      permit: Permit, verdict: Verdict)
    requires AnswersByReplies(rest, w, maxBytes, safe, attempt + 1, attempts)
    requires rest.answer != FellThrough
    requires FitVerdict(verdict, w.replies(attempt), maxBytes) && Unavailable(w.replies(attempt), maxBytes)
    requires safe && attempt + 1 < attempts && !w.sleepInterrupted(attempt)
    ensures var calls := [Acquired(Some(permit)), Judged(permit, verdict)] + rest.calls;
            AnswersByReplies(Outcome(rest.answer, 1 + rest.sent, calls, rest.breaker),
                             w, maxBytes, safe, attempt, attempts)
  {
    hide FitVerdict;
    hide FitAnswer;
    hide Unavailable;
    hide GoesRound;
    var calls := [Acquired(Some(permit)), Judged(permit, verdict)] + rest.calls;
    forall i: nat | attempt <= i < attempt + 1 + rest.sent
      ensures FairlyJudged(calls, w, maxBytes, attempt, i)
    {
      if attempt < i {
        assert FairlyJudged(rest.calls, w, maxBytes, attempt + 1, i);
        var k := 2 * (i - attempt);
        assert calls[k] == rest.calls[k - 2] && calls[k + 1] == rest.calls[k - 1];
      }
    }
    WentRound(w, maxBytes, safe, attempt, attempts);
  }

  lemma WentRound(w: World, maxBytes: nat, safe: bool, i: nat, attempts: nat)
    requires Unavailable(w.replies(i), maxBytes) && !w.sleepInterrupted(i) && safe && i + 1 < attempts
    ensures GoesRound(w, maxBytes, safe, i, attempts)
  {
  }

  class OdooControlClient {
    const retryAttempts: nat
    const maxResponseBytes: nat
    const circuit: CircuitBreaker

    constructor (retryAttempts: nat, maxResponseBytes: nat, circuit: CircuitBreaker)
      requires 1 <= retryAttempts
      ensures this.retryAttempts == retryAttempts && this.maxResponseBytes == maxResponseBytes
      ensures this.circuit == circuit
    {
      this.retryAttempts, this.maxResponseBytes, this.circuit := retryAttempts, maxResponseBytes, circuit;
    }

    /** Whether execute lets the loop retry an operation. */
    predicate IsSafe(operation: string) {
      operation in SAFE_OPERATIONS
    }

    /** The try statement of one attempt; None means go round again. */
    method Attempt(w: World, safe: bool, attempt: nat, attempts: nat, permit: Permit) returns (final: Option<Answer>)
      modifies circuit
      ensures var reply := w.replies(attempt);
              var verdict := VerdictOn(reply, maxResponseBytes);
              && circuit.Value() == AfterVerdict(old(circuit.Value()), permit, verdict, w.judgedAt(attempt))
              && circuit.calls == old(circuit.calls) + [Judged(permit, verdict)]
              && final == (if !Retries(reply, maxResponseBytes, safe, attempt, attempts)
                           then Some(AnswerTo(reply, maxResponseBytes))
                           else if w.sleepInterrupted(attempt) then Some(Cancelled) else None)
      ensures FitVerdict(circuit.calls[|old(circuit.calls)|].verdict, w.replies(attempt), maxResponseBytes)
    {
      VerdictFits(w.replies(attempt), maxResponseBytes);
      hide FitVerdict;
      var resolved := false;
      match w.replies(attempt) {
        case Response(status, bytes, isEnvelope) =>
          if bytes > maxResponseBytes {
            circuit.RecordSuccess(permit, w.judgedAt(attempt));
            resolved := true;
            final := Some(ResponseTooLarge);
          } else if status in RETRYABLE_STATUS {
            circuit.RecordFailure(permit, w.judgedAt(attempt));
            resolved := true;
            if safe && attempt + 1 < attempts {
              final := if w.sleepInterrupted(attempt) then Some(Cancelled) else None;
            } else {
              final := Some(GatewayError);
            }
          } else {
            circuit.RecordSuccess(permit, w.judgedAt(attempt));
            resolved := true;
            final := Some(if !isEnvelope then InvalidResponse else if status >= 400 then ApiError else Data);
          }
        case TransportError =>
          circuit.RecordFailure(permit, w.judgedAt(attempt));
          resolved := true;
          if !(safe && attempt + 1 < attempts) {
            final := Some(Unreachable);
          } else {
            final := if w.sleepInterrupted(attempt) then Some(Cancelled) else None;
          }
        case Interrupted =>
          final := Some(Cancelled);
      }
      if !resolved {
        circuit.Release(permit, w.judgedAt(attempt));
      }
    }

    method RequestJson(w: World, safe: bool) returns (answer: Answer, sent: nat)
      modifies circuit
      ensures var o := Loop(old(circuit.Value()), w, maxResponseBytes, safe, 0, if safe then retryAttempts else 1);
              && answer == o.answer && sent == o.sent
              && circuit.Value() == o.breaker && circuit.calls == old(circuit.calls) + o.calls
    {
      hide Loop;
      hide VerdictOn;
      hide AnswerTo;
      hide Retries;
      hide AfterVerdict;
      hide Issue;
      hide FitVerdict;
      hide Resume;
      var attempts := if safe then retryAttempts else 1;
      ghost var b := circuit.Value();
      ghost var whole, made := Loop(b, w, maxResponseBytes, safe, 0, attempts), [];
      LoopBegins(whole);
      sent := 0;
      var attempt := 0;
      while attempt < attempts
        invariant attempt <= attempts && b == circuit.Value()
        invariant circuit.calls == old(circuit.calls) + made
        invariant whole == Resume(made, sent, Loop(b, w, maxResponseBytes, safe, attempt, attempts))
      {
        LoopUnfolds(b, w, maxResponseBytes, safe, attempt, attempts, made, sent);
        var permit := circuit.Acquire(w.askedAt(attempt));
        if permit.None? {
          return CircuitOpen, sent;
        }
        sent := sent + 1;
        var final := Attempt(w, safe, attempt, attempts, permit.value);
        b := circuit.Value();
        ghost var both := [Acquired(permit), Judged(permit.value, VerdictOn(w.replies(attempt), maxResponseBytes))];
        Associate(old(circuit.calls), made, both);
        made := made + both;
        if final.Some? {
          return final.value, sent;
        }
        attempt := attempt + 1;
      }
      LoopEnds(b, w, maxResponseBytes, safe, attempts, made, sent);
      answer := FellThrough;
    }

    /** execute: only the operations known to be safe may be sent more than once, and every permit is
        disposed of before it returns. */
    method Execute(w: World, operation: string) returns (answer: Answer, sent: nat)
      requires 1 <= retryAttempts
      modifies circuit
      ensures var safe := operation in SAFE_OPERATIONS;
              var o := Loop(old(circuit.Value()), w, maxResponseBytes, safe, 0, if safe then retryAttempts else 1);
              && answer == o.answer && sent == o.sent && circuit.Value() == o.breaker
              && AnswersByReplies(o, w, maxResponseBytes, safe, 0, if safe then retryAttempts else 1)
      ensures sent <= if operation in SAFE_OPERATIONS then retryAttempts else 1
      ensures operation == "changes.preview" || operation == "changes.execute" ==> sent <= 1
      ensures answer != FellThrough
      ensures old(circuit.calls) <= circuit.calls && Paired(circuit.calls[|old(circuit.calls)|..])
      ensures Requests(circuit.calls[|old(circuit.calls)|..]) == sent
    {
      var attempts := if IsSafe(operation) then retryAttempts else 1;
      LoopDischarges(circuit.Value(), w, maxResponseBytes, IsSafe(operation), 0, attempts);
      LoopAnswers(circuit.Value(), w, maxResponseBytes, IsSafe(operation), 0, attempts);
      hide Loop;
      hide AnswersByReplies;
      answer, sent := RequestJson(w, IsSafe(operation));
    }
  }
}
