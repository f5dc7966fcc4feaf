/** One breaker shared by many requests, under the rely condition that each permit is
    disposed of at most once, by the request that holds it. */
module CircuitProtocol {
  import opened Wrappers
  import opened CircuitBreakers

  /** What an observer of the breaker's state and of its callers writes down. */
  datatype Mark =
    | Issued(permit: Permit, at: real)
    | Reported(permit: Permit, ok: bool, at: real)
    | Opening(at: real)
    | Closing(at: real)
  {
    predicate IsTurn() {
      Opening? || Closing?
    }
  }

  /** pending is the bag of permits not yet disposed of; marks is the history of permits issued, of
      successes and failures reported, stale ones included, and of openings and closings. */
  datatype System = System(b: Breaker, pending: multiset<Permit>, clock: real, marks: seq<Mark>)

  datatype Event = Ask(now: real) | Report(permit: Permit, verdict: Verdict, now: real)

  predicate Enabled(s: System, e: Event) {
    && s.clock <= e.now
    && (e.Report? ==> e.permit in s.pending)
  }

  function ReportMark(p: Permit, verdict: Verdict, now: real): Option<Mark> {
    if verdict == Unresolved then None else Some(Reported(p, verdict == Success, now))
  }

  /** The circuit closes when its state becomes closed, and opens when a failure makes it open. */
  function TurnMark(before: Breaker, verdict: Verdict, after: Breaker, now: real): Option<Mark> {
    if before.Status() != Closed && after.Status() == Closed then Some(Closing(now))
    else if verdict == Failure && before.Status() != Open && after.Status() == Open then Some(Opening(now))
    else None
  }

  function Noted(marks: seq<Mark>, m: Option<Mark>): seq<Mark> {
    if m.None? then marks else marks + [m.value]
  }

  function Apply(s: System, e: Event): System
    requires Enabled(s, e)
  {
    match e
    case Ask(now) =>
      (match Issue(s.b, now)
       case None => s.(clock := now)
       case Some(p) =>
         s.(b := AfterIssue(s.b, now), pending := s.pending + multiset{p}, clock := now,
            marks := s.marks + [Issued(p, now)]))
    case Report(p, verdict, now) =>
      var b := AfterVerdict(s.b, p, verdict, now);
      s.(b := b, pending := s.pending - multiset{p}, clock := now,
         marks := Noted(Noted(s.marks, ReportMark(p, verdict, now)), TurnMark(s.b, verdict, b, now)))
  }

  function Initial(threshold: nat, resetSeconds: real, clock: real): System {
    System(New(threshold, resetSeconds), multiset{}, clock, [])
  }

  ghost predicate Possible(s: System, events: seq<Event>)
    decreases |events|
  {
    events != [] ==> Enabled(s, events[0]) && Possible(Apply(s, events[0]), events[1..])
  }

  ghost function Run(s: System, events: seq<Event>): System
    requires Possible(s, events)
    decreases |events|
  {
    if events == [] then s else Run(Apply(s, events[0]), events[1..])
  }

  /** How often the circuit has opened or closed. */
  function Turns(marks: seq<Mark>): nat {
    if marks == [] then 0
    else Turns(marks[..|marks| - 1]) + (if marks[|marks| - 1].IsTurn() then 1 else 0)
  }

  /** What has happened since the circuit last opened or closed. */
  function Era(marks: seq<Mark>): seq<Mark> {
    if marks == [] || marks[|marks| - 1].IsTurn() then [] else Era(marks[..|marks| - 1]) + [marks[|marks| - 1]]
  }

  /** When the circuit opened, if it has not closed since. */
  function OpenSince(marks: seq<Mark>): Option<real> {
    if marks == [] then None
    else
      match marks[|marks| - 1]
      case Opening(at) => Some(at)
      case Closing(_) => None
      case _ => OpenSince(marks[..|marks| - 1])
  }

  predicate IssuedIn(marks: seq<Mark>, p: Permit) {
    exists i :: 0 <= i < |marks| && marks[i].Issued? && marks[i].permit == p
  }

  /** The failures in a row at the end of some history, among the reports on permits that were issued
      in it, whatever else is interleaved. */
  function Streak(marks: seq<Mark>): nat {
    if marks == [] then 0
    else
      var last, before := marks[|marks| - 1], marks[..|marks| - 1];
      if !last.Reported? || !IssuedIn(before, last.permit) then Streak(before)
      else if last.ok then 0
      else 1 + Streak(before)
  }

  lemma Snoc(marks: seq<Mark>, m: Mark)
    ensures Turns(marks + [m]) == Turns(marks) + (if m.IsTurn() then 1 else 0)
    ensures Era(marks + [m]) == if m.IsTurn() then [] else Era(marks) + [m]
    ensures OpenSince(marks + [m])
            == (match m case Opening(at) => Some(at) case Closing(_) => None case _ => OpenSince(marks))
    ensures Streak(marks + [m]) ==
            if !m.Reported? || !IssuedIn(marks, m.permit) then Streak(marks) else if m.ok then 0 else 1 + Streak(marks)
    ensures forall p :: IssuedIn(marks + [m], p) <==> IssuedIn(marks, p) || (m.Issued? && m.permit == p)
  {
    var longer := marks + [m];
    assert longer[..|marks|] == marks && longer[|marks|] == m;
    forall p
      ensures IssuedIn(longer, p) <==> IssuedIn(marks, p) || (m.Issued? && m.permit == p)
    {
      if IssuedIn(marks, p) {
        var i :| 0 <= i < |marks| && marks[i].Issued? && marks[i].permit == p;
        assert longer[i] == marks[i];
      }
    }
  }

  /** At most one probe is unresolved, and one exists exactly when the breaker says so; a current
      ordinary permit is only ever unresolved while the circuit is closed. */
  ghost predicate PermitsOk(s: System) {
    && (forall p :: p in s.pending ==>
          && p.generation <= s.b.generation
          && (p.probe ==> p.generation == s.b.generation && s.b.openedAt.Some?)
          && (!p.probe && p.generation == s.b.generation ==> s.b.openedAt.None?))
    && s.pending[Permit(s.b.generation, true)] == (if s.b.probeInFlight then 1 else 0)
  }

  /** A generation is what lies between two turns: the breaker's number of it counts the openings and
      closings, each permit carries the number of the turns before it, and the current permits are
      those issued since the last. */
  ghost predicate GenerationsOk(s: System) {
    && s.b.generation == Turns(s.marks) && s.b.openedAt == OpenSince(s.marks)
    && (forall p :: IssuedIn(Era(s.marks), p) ==> p.generation == s.b.generation)
    && (forall p :: p in s.pending && p.generation == s.b.generation ==> IssuedIn(Era(s.marks), p))
    && NumbersOk(s.marks)
  }

  ghost predicate NumbersOk(marks: seq<Mark>) {
    forall i :: 0 <= i < |marks| && marks[i].Issued? ==> marks[i].permit.generation == Turns(marks[..i])
  }

  /** Closed means fewer failures in a row since the last turn than the threshold. */
  ghost predicate CountOk(s: System) {
    && 1 <= s.b.threshold
    && (s.b.openedAt.None? ==>
          s.b.failures == Streak(Era(s.marks)) && s.b.failures < s.b.threshold && !s.b.probeInFlight)
    && (s.b.openedAt.Some? ==> s.b.threshold <= s.b.failures)
  }

  /** An opening is either the current one or at least one reset interval old. */
  ghost predicate TimesOk(s: System) {
    && 0.0 <= s.b.resetSeconds
    && (s.b.probeInFlight ==> s.b.openedAt.Some? && s.b.openedAt.value + s.b.resetSeconds <= s.clock)
    && (forall i :: 0 <= i < |s.marks| ==> s.marks[i].at <= s.clock)
    && (forall i :: 0 <= i < |s.marks| && s.marks[i].Opening? ==>
          s.marks[i].at + s.b.resetSeconds <= s.clock || s.b.openedAt == Some(s.marks[i].at))
    && (forall i, j :: 0 <= i < j < |s.marks| && s.marks[i].Opening? && s.marks[j].Issued? ==>
          s.marks[i].at + s.b.resetSeconds <= s.marks[j].at)
  }

  ghost predicate Inv(s: System) {
    PermitsOk(s) && GenerationsOk(s) && CountOk(s) && TimesOk(s)
  }

  lemma AskKeeps(s: System, now: real)
    requires Inv(s) && Enabled(s, Ask(now))
    ensures Inv(Apply(s, Ask(now)))
  {
    hide Turns;
    hide Era;
    hide OpenSince;
    hide IssuedIn;
    hide Streak;
    var p := Issue(s.b, now);
    if p.Some? {
      AskKeepsGenerations(s, now);
      Snoc(s.marks, Issued(p.value, now));
      Snoc(Era(s.marks), Issued(p.value, now));
    }
    hide GenerationsOk;
  }

  lemma AskKeepsGenerations(s: System, now: real)
    requires PermitsOk(s) && GenerationsOk(s) && Enabled(s, Ask(now)) && Issue(s.b, now).Some?
    ensures GenerationsOk(Apply(s, Ask(now)))
  {
    hide Turns;
    hide Era;
    hide OpenSince;
    hide IssuedIn;
    hide Streak;
    hide NumbersOk;
    var s', m := Apply(s, Ask(now)), Issued(Issue(s.b, now).value, now);
    Snoc(s.marks, m);
    Snoc(Era(s.marks), m);
    IssuedAtTheirTurns(s.marks, m);
  }

  /** The numbers of the permits stay right when the history grows. */
  lemma IssuedAtTheirTurns(marks: seq<Mark>, m: Mark)
    requires NumbersOk(marks) && (m.Issued? ==> m.permit.generation == Turns(marks))
    ensures NumbersOk(marks + [m])
  {
    var longer := marks + [m];
    forall i | 0 <= i < |longer| && longer[i].Issued?
      ensures longer[i].permit.generation == Turns(longer[..i])
    {
      assert longer[..i] == marks[..i];
      if i == |marks| {
        assert marks[..i] == marks;
      }
    }
  }

  lemma ReportKeepsPermits(s: System, p: Permit, verdict: Verdict, now: real)
    requires PermitsOk(s) && CountOk(s) && Enabled(s, Report(p, verdict, now))
    ensures PermitsOk(Apply(s, Report(p, verdict, now)))
  {
    assert p == Permit(p.generation, p.probe);
  }

  /** The state changes that an observer sees are those that begin a generation. */
  lemma TurnsAreGenerations(s: System, p: Permit, verdict: Verdict, now: real)
    requires PermitsOk(s) && CountOk(s) && Enabled(s, Report(p, verdict, now))
    ensures var b := AfterVerdict(s.b, p, verdict, now);
            var turn := TurnMark(s.b, verdict, b, now);
            && b.generation == s.b.generation + (if turn.Some? then 1 else 0)
            && b.openedAt == (if turn.None? then s.b.openedAt else if turn.value.Opening? then Some(now) else None)
  {
    assert p == Permit(p.generation, p.probe);
  }

  lemma ReportKeepsGenerations(s: System, p: Permit, verdict: Verdict, now: real)
    requires PermitsOk(s) && CountOk(s) && GenerationsOk(s) && Enabled(s, Report(p, verdict, now))
    ensures GenerationsOk(Apply(s, Report(p, verdict, now)))
  {
    hide Turns;
    hide Era;
    hide OpenSince;
    hide IssuedIn;
    hide Streak;
    hide NumbersOk;
    hide AfterVerdict;
    hide PermitsOk;
    hide CountOk;
    hide TurnMark;
    var s' := Apply(s, Report(p, verdict, now));
    var told, turn := Noted(s.marks, ReportMark(p, verdict, now)), TurnMark(s.b, verdict, s'.b, now);
    TurnsAreGenerations(s, p, verdict, now);
    NotLater(s, p, verdict, now);
    ToldIs(s.marks, p, verdict, now);
    if turn.Some? {
      TurnIsATurn(s.b, verdict, s'.b, now);
      Snoc(told, turn.value);
      IssuedAtTheirTurns(told, turn.value);
      NothingIssued();
    }
  }

  lemma NothingIssued()
    ensures Streak([]) == 0 && forall p :: !IssuedIn([], p)
  {
  }

  /** A report by itself begins no generation. */
  lemma ToldIs(marks: seq<Mark>, p: Permit, verdict: Verdict, now: real)
    requires NumbersOk(marks)
    ensures var told := Noted(marks, ReportMark(p, verdict, now));
            && Turns(told) == Turns(marks) && OpenSince(told) == OpenSince(marks) && NumbersOk(told)
            && forall q :: IssuedIn(Era(told), q) <==> IssuedIn(Era(marks), q)
  {
    hide Turns;
    hide Era;
    hide OpenSince;
    hide IssuedIn;
    hide Streak;
    hide NumbersOk;
    if verdict != Unresolved {
      var m := Reported(p, verdict == Success, now);
      Snoc(marks, m);
      Snoc(Era(marks), m);
      IssuedAtTheirTurns(marks, m);
    }
  }

  lemma TurnIsATurn(before: Breaker, verdict: Verdict, after: Breaker, now: real)
    ensures var turn := TurnMark(before, verdict, after, now);
            turn.Some? ==> turn.value.IsTurn() && turn.value.at == now
  {
  }

  lemma NotLater(s: System, p: Permit, verdict: Verdict, now: real)
    requires PermitsOk(s) && Enabled(s, Report(p, verdict, now))
    ensures forall q :: q in Apply(s, Report(p, verdict, now)).pending ==> q.generation <= s.b.generation
  {
  }

  lemma ReportKeepsCount(s: System, p: Permit, verdict: Verdict, now: real)
    requires PermitsOk(s) && CountOk(s) && GenerationsOk(s) && Enabled(s, Report(p, verdict, now))
    ensures CountOk(Apply(s, Report(p, verdict, now)))
  {
    hide Turns;
    hide Era;
    hide OpenSince;
    hide IssuedIn;
    hide Streak;
    hide NumbersOk;
    var s', m := Apply(s, Report(p, verdict, now)), Reported(p, verdict == Success, now);
    var turn := TurnMark(s.b, verdict, s'.b, now);
    Snoc(s.marks, m);
    Snoc(Era(s.marks), m);
    NothingIssued();
    if turn.Some? {
      TurnIsATurn(s.b, verdict, s'.b, now);
      Snoc(Noted(s.marks, ReportMark(p, verdict, now)), turn.value);
    }
    assert p == Permit(p.generation, p.probe);
  }

  lemma ReportKeepsTimes(s: System, p: Permit, verdict: Verdict, now: real)
    requires Inv(s) && Enabled(s, Report(p, verdict, now))
    ensures TimesOk(Apply(s, Report(p, verdict, now)))
  {
    hide GenerationsOk;
    assert p.probe && p.generation == s.b.generation ==> s.pending[p] == 1;
  }

  lemma EventKeeps(s: System, e: Event)
    requires Inv(s) && Enabled(s, e)
    ensures Inv(Apply(s, e))
  {
    match e
    case Ask(now) => AskKeeps(s, now);
    case Report(p, verdict, now) =>
      ReportKeepsPermits(s, p, verdict, now);
      ReportKeepsGenerations(s, p, verdict, now);
      ReportKeepsCount(s, p, verdict, now);
      ReportKeepsTimes(s, p, verdict, now);
  }

  /** Safety, the counter's meaning and the reset interval, after any history of requests. */
  lemma {:induction false} RunKeeps(s: System, events: seq<Event>)
    requires Inv(s) && Possible(s, events)
    ensures Inv(Run(s, events))
    decreases |events|
  {
    hide Inv;
    if events != [] {
      EventKeeps(s, events[0]);
      RunKeeps(Apply(s, events[0]), events[1..]);
    }
  }

  lemma FromTheStart(threshold: nat, resetSeconds: real, clock: real, events: seq<Event>)
    requires 1 <= threshold && 0.0 <= resetSeconds
    requires Possible(Initial(threshold, resetSeconds, clock), events)
    ensures Inv(Run(Initial(threshold, resetSeconds, clock), events))
  {
    RunKeeps(Initial(threshold, resetSeconds, clock), events);
  }

  /** An open circuit closes in one way only: its one unresolved probe reports success.  It opens anew,
      for a whole interval, in one way only: that probe reports failure. */
  lemma OnlyTheProbeTurns(s: System, e: Event)
    requires Inv(s) && Enabled(s, e) && s.b.Status() != Closed
    ensures var s', probed := Apply(s, e), e.Report? && e.permit.probe;
            && (s'.b.Status() == Closed <==> probed && e.verdict == Success)
            && (s'.b.openedAt.Some? && Turns(s'.marks) != Turns(s.marks) <==> probed && e.verdict == Failure)
            && (probed && e.verdict == Failure ==> s'.b.openedAt == Some(e.now) && s'.b.Status() == Open)
            && (probed ==> s.b.Status() == HalfOpen && s.pending[e.permit] == 1
                           && forall p :: p in s.pending && p.probe ==> p == e.permit)
  {
    hide Turns;
    hide Era;
    hide OpenSince;
    hide IssuedIn;
    hide Streak;
    hide NumbersOk;
    hide CountOk;
    hide TimesOk;
    EventKeeps(s, e);
    if e.Report? {
      assert e.permit == Permit(e.permit.generation, e.permit.probe);
      forall p | p in s.pending && p.probe
        ensures p == Permit(s.b.generation, true)
      {
      }
    }
  }

  /** A closed circuit opens exactly at the threshold-th failure in a row among the reports on permits
      that were issued since it last closed; whatever was issued before does not count. */
  lemma OpensAtTheThreshold(s: System, e: Event)
    requires Inv(s) && Enabled(s, e) && s.b.Status() == Closed
    ensures var era := Era(s.marks);
            && (Apply(s, e).b.Status() != Closed <==>
                  && e.Report? && e.verdict == Failure && IssuedIn(era, e.permit) && Streak(era) + 1 == s.b.threshold)
            && (Apply(s, e).b.Status() != Closed ==>
                  Streak(era + [Reported(e.permit, false, e.now)]) == s.b.threshold)
  {
    hide Turns;
    hide Era;
    hide OpenSince;
    hide IssuedIn;
    hide Streak;
    hide NumbersOk;
    hide TimesOk;
    if e.Report? {
      Snoc(Era(s.marks), Reported(e.permit, false, e.now));
    }
  }

  /** A request is refused exactly while the circuit has opened and not closed since, and either its
      reset interval is running or another request's probe is unresolved: no refusal outlives its cause. */
  lemma RefusedExactlyWhen(s: System, now: real)
    requires Inv(s) && s.clock <= now
    ensures Issue(s.b, now).None? <==>
              && OpenSince(s.marks).Some?
              && (|| now < OpenSince(s.marks).value + s.b.resetSeconds
                  || (exists p :: p in s.pending && p.probe))
    ensures Issue(s.b, now).Some? ==> (Issue(s.b, now).value.probe <==> OpenSince(s.marks).Some?)
  {
    hide OpenSince;
    hide Turns;
    hide Era;
    hide IssuedIn;
    ProbeTells(s);
  }

  /** The breaker's flag tells whether somebody holds an unresolved probe. */
  lemma ProbeTells(s: System)
    requires Inv(s)
    ensures s.b.probeInFlight <==> exists p :: p in s.pending && p.probe
  {
    hide GenerationsOk;
    hide CountOk;
    hide TimesOk;
    if s.b.probeInFlight {
      assert Permit(s.b.generation, true) in s.pending;
    }
    forall p | p in s.pending && p.probe
      ensures s.b.probeInFlight
    {
      assert p == Permit(s.b.generation, true);
    }
  }

  /** What the state property tells an observer: closed that the circuit has never opened or has closed
      since, half-open that some request holds an unresolved probe, and open that it has opened and no
      permit issued since is still out. */
  lemma StatusTells(s: System)
    requires Inv(s)
    ensures s.b.Status() == Closed <==> OpenSince(s.marks).None?
    ensures s.b.Status() == Closed <==> s.b.failures < s.b.threshold
    ensures s.b.Status() == HalfOpen <==> exists p :: p in s.pending && p.probe
    ensures s.b.Status() == Open <==>
              OpenSince(s.marks).Some? && forall p :: p in s.pending ==> !IssuedIn(Era(s.marks), p)
  {
    hide OpenSince;
    hide Turns;
    hide Era;
    hide IssuedIn;
    ProbeTells(s);
    if s.b.Status() == Open {
      forall p | p in s.pending
        ensures !IssuedIn(Era(s.marks), p)
      {
        assert p == Permit(p.generation, p.probe);
      }
    }
  }

  /** A turn comes after place i. */
  ghost predicate TurnedSince(marks: seq<Mark>, i: nat) {
    exists j :: i < j < |marks| && marks[j].IsTurn()
  }

  lemma {:induction false} TurnsSince(marks: seq<Mark>, i: nat)
    requires i < |marks| && !marks[i].IsTurn()
    ensures Turns(marks[..i]) <= Turns(marks)
    ensures TurnedSince(marks, i) <==> Turns(marks[..i]) < Turns(marks)
    decreases |marks|
  {
    var n := |marks| - 1;
    var before := marks[..n];
    assert marks == before + [marks[n]];
    Snoc(before, marks[n]);
    if i == n {
      assert marks[..i] == before;
    } else {
      TurnsSince(before, i);
      assert marks[..i] == before[..i];
      if TurnedSince(before, i) {
        var j :| i < j < |before| && before[j].IsTurn();
        assert marks[j].IsTurn();
      }
      if TurnedSince(marks, i) && !marks[n].IsTurn() {
        var j :| i < j < |marks| && marks[j].IsTurn();
        assert before[j].IsTurn();
      }
    }
  }

  /** A report counts exactly when the circuit has neither opened nor closed since its permit was issued:
      a success then clears the failures and closes the circuit, a failure is one more; and a report
      that does not count changes nothing. */
  lemma CountsExactlyWhenCurrent(s: System, p: Permit, verdict: Verdict, now: real, i: nat)
    requires Inv(s) && Enabled(s, Report(p, verdict, now)) && verdict != Unresolved
    requires i < |s.marks| && s.marks[i].Issued? && s.marks[i].permit == p
    ensures var b := Apply(s, Report(p, verdict, now)).b;
            if TurnedSince(s.marks, i) then b == s.b
            else if verdict == Success then b.failures == 0 && b.Status() == Closed
            else b.failures == s.b.failures + 1
    ensures TurnedSince(s.marks, i) <==> !IssuedIn(Era(s.marks), p)
    ensures TurnedSince(s.marks, i) && OpenSince(s.marks).None? ==>
              Streak(Era(Apply(s, Report(p, verdict, now)).marks)) == Streak(Era(s.marks))
  {
    hide Turns;
    hide Era;
    hide OpenSince;
    hide IssuedIn;
    hide Streak;
    hide TimesOk;
    hide TurnedSince;
    TurnsSince(s.marks, i);
    Snoc(s.marks, Reported(p, verdict == Success, now));
    Snoc(Era(s.marks), Reported(p, verdict == Success, now));
  }
}
