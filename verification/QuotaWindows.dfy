/** How many requests are dispatched in a minute or on a day, by the time of their checks.

    The quota check counts audit rows, and a row is stamped with the start of its transaction.  So the
    limits hold of the requests that both begin and are checked within a window; one request more may
    be checked in it that began before, and this module says exactly when. */
module QuotaWindows {
  import opened Quotas
  import opened QuotaRuns

  predicate ChecksIn(q: Served, access: nat, from: int, until: int) {
    q.dispatched && q.access == access && from <= q.checked <= until
  }

  /** The requests of an access that were dispatched by a check within a window. */
  function CheckedIn(log: seq<Served>, access: nat, from: int, until: int): nat {
    if log == [] then 0
    else
      var last := log[|log| - 1];
      CheckedIn(log[..|log| - 1], access, from, until) + (if ChecksIn(last, access, from, until) then 1 else 0)
  }

  predicate Straddles(q: Served, access: nat, from: int, until: int) {
    ChecksIn(q, access, from, until) && q.began < from
  }

  /** Those among them that began before the window. */
  function Straddlers(log: seq<Served>, access: nat, from: int, until: int): nat {
    if log == [] then 0
    else
      var last := log[|log| - 1];
      Straddlers(log[..|log| - 1], access, from, until) + (if Straddles(last, access, from, until) then 1 else 0)
  }

  ghost predicate Ordered(log: seq<Served>) {
    && (forall k :: 0 <= k < |log| ==> log[k].began <= log[k].checked)
    && (forall j, k :: 0 <= j < k < |log| ==> log[j].checked <= log[k].began)
  }

  /** Whoever is checked in a window began in it or straddles its start. */
  lemma {:induction false} CheckedSplit(log: seq<Served>, access: nat, from: int, until: int)
    requires Ordered(log)
    ensures CheckedIn(log, access, from, until)
            == Dispatched(log, access, from, until) + Straddlers(log, access, from, until)
  {
    if log != [] {
      CheckedSplit(log[..|log| - 1], access, from, until);
    }
  }

  /** Of requests that run one after another, one at most straddles a moment. */
  lemma {:induction false} OneStraddler(log: seq<Served>, access: nat, from: int, until: int)
    requires Ordered(log)
    ensures Straddlers(log, access, from, until) <= 1
    ensures Straddlers(log, access, from, until) == 1 <==>
              exists k :: 0 <= k < |log| && Straddles(log[k], access, from, until)
  {
    if log != [] {
      var n := |log| - 1;
      OneStraddler(log[..n], access, from, until);
      if Straddles(log[n], access, from, until) {
        forall k | 0 <= k < n
          ensures !Straddles(log[k], access, from, until)
        {
        }
        assert forall k :: 0 <= k < n ==> log[..n][k] == log[k];
      } else {
        assert forall k :: 0 <= k < n ==> log[..n][k] == log[k];
      }
    }
  }

  lemma RunOrdered(clock: int, events: seq<Event>)
    requires Possible(Initial(clock), events)
    ensures var s := Run(Initial(clock), events);
            && Inv(s) && Ordered(s.log)
  {
    RunKeeps(Initial(clock), events);
  }

  /** How far a limit reaches: it bounds the requests that begin and are checked in a window; those
      checked in it exceed the limit if and only if these already reach it and one more straddles
      the start, and never by more than that one. */
  ghost predicate Bounded(log: seq<Served>, access: nat, from: int, until: int, limit: nat) {
    var checked, inside := CheckedIn(log, access, from, until), Dispatched(log, access, from, until);
    && inside <= limit && checked <= limit + 1
    && (limit < checked <==>
          inside == limit && exists k :: 0 <= k < |log| && Straddles(log[k], access, from, until))
  }

  lemma WindowBounded(log: seq<Served>, access: nat, from: int, until: int, limit: nat)
    requires Ordered(log) && Dispatched(log, access, from, until) <= limit
    ensures Bounded(log, access, from, until, limit)
  {
    CheckedSplit(log, access, from, until);
    OneStraddler(log, access, from, until);
  }

  /** Over any serial run, whatever cleanups come between and however often the profile is edited, the
      highest limit that a minute's requests were checked against, and the highest quota that a UTC
      day's were, bound the requests dispatched then, exactly as Bounded says; and the access's
      counters are those of the history. */
  lemma QuotasHold(clock: int, events: seq<Event>, access: nat, until: int, day: int, limit: nat, quota: nat)
    requires Possible(Initial(clock), events)
    requires var log := Run(Initial(clock), events).log;
             && (forall k :: 0 <= k < |log| && InWindow(log[k], access, until - MINUTE, until)
                   ==> log[k].limits.perMinute <= limit)
             && (forall k :: 0 <= k < |log| && InWindow(log[k], access, day * DAY, (day + 1) * DAY - 1)
                   ==> 0 < log[k].limits.perDay <= quota)
    ensures var s := Run(Initial(clock), events);
            && Bounded(s.log, access, until - MINUTE, until, limit)
            && Bounded(s.log, access, day * DAY, (day + 1) * DAY - 1, quota)
            && UseOf(s.uses, access) == CountUses(s.log, access)
  {
    hide Run;
    hide Possible;
    RunOrdered(clock, events);
    var log := Run(Initial(clock), events).log;
    MinuteBound(log, access, until, limit);
    DayBound(log, access, day, quota);
    WindowBounded(log, access, until - MINUTE, until, limit);
    WindowBounded(log, access, day * DAY, (day + 1) * DAY - 1, quota);
  }

  /** A request that is checked in the second in which its transaction began. */
  predicate Prompt(q: Served) {
    Now(q.checked) <= q.began
  }

  /** A request that is checked on the UTC day on which its transaction began. */
  predicate SameDay(q: Served) {
    DayStart(Now(q.checked)) <= q.began
  }

  /** Prompt requests of a window are all counted by a check at its end. */
  lemma {:induction false} PromptAreLogged(log: seq<Served>, access: nat, from: int, until: int, since: int)
    requires forall k :: 0 <= k < |log| && ChecksIn(log[k], access, from, until) ==> since <= log[k].began
    ensures CheckedIn(log, access, from, until) <= LogSince(log, access, since)
  {
    if log != [] {
      PromptAreLogged(log[..|log| - 1], access, from, until, since);
    }
  }

  lemma MinuteEarlier(at: int)
    ensures Now(at - MINUTE) == Now(at) - MINUTE
  {
    assert (at - MINUTE) % SECOND == at % SECOND;
  }

  /** If every request is prompt, the limit holds of every trailing minute by the checks. */
  lemma {:induction false} PromptMinute(log: seq<Served>, access: nat, until: int, limit: nat)
    requires LogOk(log)
    requires forall k :: 0 <= k < |log| && ChecksIn(log[k], access, until - MINUTE, until) ==>
               log[k].limits.perMinute <= limit && Prompt(log[k])
    ensures CheckedIn(log, access, until - MINUTE, until) <= limit
  {
    hide Now;
    hide DayStart;
    if log != [] {
      var n := |log| - 1;
      var last, before := log[n], log[..n];
      assert forall k :: 0 <= k < n ==> log[..k] == before[..k] && log[k] == before[k];
      PromptMinute(before, access, until, limit);
      if ChecksIn(last, access, until - MINUTE, until) {
        assert Within(before, last);
        forall k | 0 <= k < n && ChecksIn(before[k], access, until - MINUTE, until)
          ensures Now(last.checked) - MINUTE <= before[k].began
        {
          MinuteEarlier(last.checked);
          NowGrows(last.checked - MINUTE, before[k].checked);
        }
        PromptAreLogged(before, access, until - MINUTE, until, Now(last.checked) - MINUTE);
      }
    }
  }

  /** If no request straddles midnight, the quota holds of every UTC day by the checks. */
  lemma SameDayBound(log: seq<Served>, access: nat, day: int, quota: nat)
    requires LogOk(log) && Ordered(log)
    requires forall k :: 0 <= k < |log| && ChecksIn(log[k], access, day * DAY, (day + 1) * DAY - 1) ==>
               0 < log[k].limits.perDay <= quota && SameDay(log[k])
    ensures CheckedIn(log, access, day * DAY, (day + 1) * DAY - 1) <= quota
  {
    hide Now;
    hide DayStart;
    DayBound(log, access, day, quota);
    WindowBounded(log, access, day * DAY, (day + 1) * DAY - 1, quota);
    forall k | 0 <= k < |log| && ChecksIn(log[k], access, day * DAY, (day + 1) * DAY - 1)
      ensures !Straddles(log[k], access, day * DAY, (day + 1) * DAY - 1)
    {
      StartOfItsDay(log[k].checked, day);
    }
  }

  /** Over any serial run, then: at most the limit is dispatched in a trailing minute if each request
      checked in it was prompt, and at most the quota on a UTC day if each was checked on the day on
      which it began.  MinuteOverrun and DayOverrun say that neither condition can be spared. */
  lemma PromptRunsKeepTheLimits(clock: int, events: seq<Event>, access: nat, until: int, day: int,
                                limit: nat, quota: nat)
    requires Possible(Initial(clock), events)
    ensures var log := Run(Initial(clock), events).log;
            && ((forall k :: 0 <= k < |log| && ChecksIn(log[k], access, until - MINUTE, until) ==>
                   log[k].limits.perMinute <= limit && Prompt(log[k]))
                ==> CheckedIn(log, access, until - MINUTE, until) <= limit)
            && ((forall k :: 0 <= k < |log| && ChecksIn(log[k], access, day * DAY, (day + 1) * DAY - 1) ==>
                   0 < log[k].limits.perDay <= quota && SameDay(log[k]))
                ==> CheckedIn(log, access, day * DAY, (day + 1) * DAY - 1) <= quota)
  {
    hide Run;
    hide Possible;
    hide Prompt;
    hide SameDay;
    RunOrdered(clock, events);
    var log := Run(Initial(clock), events).log;
    if forall k :: 0 <= k < |log| && ChecksIn(log[k], access, until - MINUTE, until) ==>
         log[k].limits.perMinute <= limit && Prompt(log[k]) {
      PromptMinute(log, access, until, limit);
    }
    if forall k :: 0 <= k < |log| && ChecksIn(log[k], access, day * DAY, (day + 1) * DAY - 1) ==>
         0 < log[k].limits.perDay <= quota && SameDay(log[k]) {
      SameDayBound(log, access, day, quota);
    }
  }

  /** The same request, over and over, at one moment. */
  function Burst(access: nat, limits: Limits, at: int, n: nat): seq<Event> {
    if n == 0 then [] else [Request(access, limits, at, at, true)] + Burst(access, limits, at, n - 1)
  }

  /** As many requests as the limits still allow, all at once, are all dispatched. */
  lemma {:induction false} BurstIsDispatched(s: State, access: nat, limits: Limits, at: int, n: nat,
                                             from: int, until: int)
    requires s.clock <= at && from <= at <= until && Now(at) - MINUTE <= at && DayStart(Now(at)) <= at
    requires CountSince(s.rows, access, Now(at) - MINUTE) + n <= limits.perMinute
    requires limits.perDay != 0 ==> CountSince(s.rows, access, DayStart(Now(at))) + n <= limits.perDay
    ensures Possible(s, Burst(access, limits, at, n))
    ensures CheckedIn(Run(s, Burst(access, limits, at, n)).log, access, from, until)
            == CheckedIn(s.log, access, from, until) + n
    decreases n
  {
    hide Now;
    hide DayStart;
    if n > 0 {
      var e := Request(access, limits, at, at, true);
      var s', rest := Apply(s, e), Burst(access, limits, at, n - 1);
      CountSnoc(s.rows, s'.rows[|s.rows|], access, Now(at) - MINUTE);
      CountSnoc(s.rows, s'.rows[|s.rows|], access, DayStart(Now(at)));
      assert s'.log[..|s.log|] == s.log;
      BurstIsDispatched(s', access, limits, at, n - 1, from, until);
      assert ([e] + rest)[1..] == rest;
    }
  }

  /** One request that is not prompt is enough: at any limit, a client that waits for its row to fall
      out of the count has one request too many dispatched within a minute. */
  lemma MinuteOverrun(access: nat, limit: nat, began: int, checked: int)
    requires 1 <= limit && began < Now(checked)
    ensures var limits, at := Limits(limit, 0), Now(checked) + MINUTE;
            var events := [Request(access, limits, began, checked, true)] + Burst(access, limits, at, limit);
            && Possible(Initial(began), events)
            && CheckedIn(Run(Initial(began), events).log, access, at - MINUTE, at) == limit + 1
  {
    hide Apply;
    hide Run;
    hide Possible;
    hide DayStart;
    hide QuotaError;
    var limits, at := Limits(limit, 0), Now(checked) + MINUTE;
    var first, burst := Request(access, limits, began, checked, true), Burst(access, limits, at, limit);
    WholeSecond(checked);
    NotFuture(at);
    hide Now;
    var s := Apply(Initial(began), first);
    FirstChecked(access, limits, began, checked, at - MINUTE, at);
    CountSnoc([], AuditRow(0, access, began), access, Now(at) - MINUTE);
    assert [] + [AuditRow(0, access, began)] == s.rows;
    BurstIsDispatched(s, access, limits, at, limit, at - MINUTE, at);
    RunFirst(Initial(began), first, burst);
  }

  lemma NotFuture(at: int)
    ensures Now(at) - MINUTE <= at && DayStart(Now(at)) <= at
  {
  }

  lemma RunFirst(s: State, first: Event, rest: seq<Event>)
    requires Enabled(s, first)
    ensures Possible(s, [first] + rest) <==> Possible(Apply(s, first), rest)
    ensures Possible(s, [first] + rest) ==> Run(s, [first] + rest) == Run(Apply(s, first), rest)
  {
    hide Apply;
    hide Enabled;
    assert ([first] + rest)[1..] == rest;
  }

  /** The minute that starts with the second of a check contains the check. */
  lemma WholeSecond(at: int)
    ensures Now(Now(at) + MINUTE) == Now(at) + MINUTE && Now(at) <= at <= Now(at) + MINUTE
  {
    assert (Now(at) + MINUTE) % SECOND == 0;
  }

  /** The first request of all is dispatched, whatever its limits. */
  lemma FirstChecked(access: nat, limits: Limits, began: int, checked: int, from: int, until: int)
    requires began <= checked && 1 <= limits.perMinute && from <= checked <= until
    ensures var s := Apply(Initial(began), Request(access, limits, began, checked, true));
            && s.rows == [AuditRow(0, access, began)] && s.clock == checked
            && CheckedIn(s.log, access, from, until) == 1
  {
    var s := Apply(Initial(began), Request(access, limits, began, checked, true));
    assert CountSince([], access, Now(checked) - MINUTE) == 0 && CountSince([], access, DayStart(Now(checked))) == 0;
    assert s.log[..0] == [];
  }

  /** And one request that straddles midnight is enough to have one too many dispatched on a day. */
  lemma DayOverrun(access: nat, quota: nat, began: int, checked: int)
    requires 1 <= quota && began < DayStart(Now(checked))
    ensures var limits, start := Limits(quota + 1, quota), DayStart(Now(checked));
            var events := [Request(access, limits, began, checked, true)] + Burst(access, limits, checked, quota);
            && Possible(Initial(began), events)
            && CheckedIn(Run(Initial(began), events).log, access, start, start + DAY - 1) == quota + 1
  {
    var limits, start := Limits(quota + 1, quota), DayStart(Now(checked));
    var first, burst := Request(access, limits, began, checked, true), Burst(access, limits, checked, quota);
    EndOfItsDay(checked);
    hide Now;
    hide DayStart;
    var s := Apply(Initial(began), first);
    CountSnoc([], AuditRow(0, access, began), access, Now(checked) - MINUTE);
    CountSnoc([], AuditRow(0, access, began), access, start);
    assert [] + [AuditRow(0, access, began)] == s.rows;
    FirstChecked(access, limits, began, checked, start, start + DAY - 1);
    BurstIsDispatched(s, access, limits, checked, quota, start, start + DAY - 1);
    assert ([first] + burst)[1..] == burst;
  }

  lemma EndOfItsDay(at: int)
    ensures DayStart(Now(at)) <= at <= DayStart(Now(at)) + DAY - 1
  {
    var day := Now(at) / DAY;
    assert DayStart(Now(at)) == day * DAY;
    var seconds := at / SECOND;
    assert Now(at) == seconds * SECOND;
    assert seconds < (day + 1) * 86_400;
  }

  /** The case in figures: two requests, 31 seconds apart, dispatched under a limit of one a minute,
      because the first had waited 30 seconds between its transaction's start and its check. */
  lemma TwoWithinHalfAMinute()
    ensures var limits := Limits(1, 0);
            var first := Request(0, limits, 0, 30 * SECOND, true);
            var events := [first, Request(0, limits, 61 * SECOND, 61 * SECOND, true)];
            && Possible(Initial(0), events)
            && CheckedIn(Run(Initial(0), events).log, 0, SECOND, 61 * SECOND) == 2
  {
    var limits := Limits(1, 0);
    var first, second := Request(0, limits, 0, 30 * SECOND, true), Request(0, limits, 61 * SECOND, 61 * SECOND, true);
    FirstChecked(0, limits, 0, 30 * SECOND, SECOND, 61 * SECOND);
    var s := Apply(Initial(0), first);
    CountSnoc([], AuditRow(0, 0, 0), 0, SECOND);
    assert [] + [AuditRow(0, 0, 0)] == s.rows;
    BurstIsDispatched(s, 0, limits, 61 * SECOND, 1, SECOND, 61 * SECOND);
    assert Burst(0, limits, 61 * SECOND, 0) == [];
    assert Burst(0, limits, 61 * SECOND, 1) == [second];
    assert [first, second][1..] == [second];
  }
}
