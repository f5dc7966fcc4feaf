/** Request quotas, which are counts over the audit log, and the cleanup of that log.

    Times are in microseconds.  An audit row is stamped with the start of its transaction, while the
    quota check reads a clock that drops the fraction of the second. */
module Quotas {
  import opened Wrappers

  const SECOND := 1_000_000
  const MINUTE := 60 * SECOND
  const DAY := 86_400 * SECOND

  datatype AuditRow = AuditRow(id: nat, access: nat, stamp: int)

  /** The counters that _record_use keeps on an access. */
  datatype Use = Use(requests: nat, failures: nat)

  /** fields.Datetime.now() at some moment. */
  function Now(at: int): (now: int)
    ensures now <= at < now + SECOND
  {
    at - at % SECOND
  }

  function DayStart(now: int): (start: int)
    ensures start <= now < start + DAY
  {
    now - now % DAY
  }

  function Cutoff(now: int, retentionDays: int): int {
    now - DAY * (if retentionDays < 1 then 1 else retentionDays)
  }

  /** search_count on one access and a least create_date. */
  function CountSince(rows: seq<AuditRow>, access: nat, from: int): nat {
    if rows == [] then 0
    else
      var last := rows[|rows| - 1];
      CountSince(rows[..|rows| - 1], access, from) + (if last.access == access && last.stamp >= from then 1 else 0)
  }

  datatype Limits = Limits(perMinute: nat, perDay: nat)

  /** _check_quota: the error it returns, if any. */
  function QuotaError(rows: seq<AuditRow>, access: nat, limits: Limits, now: int): Option<string> {
    if CountSince(rows, access, now - MINUTE) >= limits.perMinute then Some("rate_limit_exceeded")
    else if limits.perDay != 0 && CountSince(rows, access, DayStart(now)) >= limits.perDay then
      Some("daily_quota_exceeded")
    else None
  }

  function Without(rows: seq<AuditRow>, ids: set<nat>): (left: seq<AuditRow>)
    ensures forall r :: r in left <==> r in rows && r.id !in ids
  {
    if rows == [] then []
    else
      var last := rows[|rows| - 1];
      assert rows == rows[..|rows| - 1] + [last];
      if last.id in ids then Without(rows[..|rows| - 1], ids) else Without(rows[..|rows| - 1], ids) + [last]
  }

  function UseOf(uses: map<nat, Use>, access: nat): Use {
    if access in uses then uses[access] else Use(0, 0)
  }

  function Recorded(use: Use, success: bool): Use {
    Use(use.requests + 1, if success then use.failures else use.failures + 1)
  }

  class Connector {
    var rows: seq<AuditRow>
    var uses: map<nat, Use>
    var nextId: nat

    constructor ()
      ensures rows == [] && uses == map[] && nextId == 0
    {
      rows, uses, nextId := [], map[], 0;
    }

    method CheckQuota(access: nat, limits: Limits, now: int) returns (error: Option<string>)
      ensures error == QuotaError(rows, access, limits, now)
    {
      var minuteCount := CountSince(rows, access, now - MINUTE);
      if minuteCount >= limits.perMinute {
        return Some("rate_limit_exceeded");
      }
      if limits.perDay != 0 {
        var dailyCount := CountSince(rows, access, DayStart(now));
        if dailyCount >= limits.perDay {
          return Some("daily_quota_exceeded");
        }
      }
      error := None;
    }

    method Audit(access: nat, stamp: int)
      modifies this`rows, this`nextId
      ensures rows == old(rows) + [AuditRow(old(nextId), access, stamp)] && nextId == old(nextId) + 1
    {
      rows := rows + [AuditRow(nextId, access, stamp)];
      nextId := nextId + 1;
    }

    method RecordUse(access: nat, success: bool)
      modifies this`uses
      ensures uses == old(uses)[access := Recorded(UseOf(old(uses), access), success)]
    {
      var use := UseOf(uses, access);
      use := use.(requests := use.requests + 1);
      if !success {
        use := use.(failures := use.failures + 1);
      }
      uses := uses[access := use];
    }

    /** execute_request, as far as quotas see it: succeeds says what dispatching would come to.  The
        row and the use are recorded whether or not the request was dispatched. */
    method ExecuteRequest(access: nat, limits: Limits, began: int, checked: int, succeeds: bool)
        returns (dispatched: bool)
      modifies this
      ensures dispatched <==> QuotaError(old(rows), access, limits, Now(checked)).None?
      ensures rows == old(rows) + [AuditRow(old(nextId), access, began)] && nextId == old(nextId) + 1
      ensures uses == old(uses)[access := Recorded(UseOf(old(uses), access), dispatched && succeeds)]
    {
      var error := CheckQuota(access, limits, Now(checked));
      dispatched := error.None?;
      Audit(access, began);
      RecordUse(access, dispatched && succeeds);
    }

    /** _gc_audit_logs, given the ids its limited search finds. */
    method GcAuditLogs(found: set<nat>)
      modifies this`rows
      ensures rows == Without(old(rows), found)
    {
      rows := Without(rows, found);
    }
  }
}

/** Serial requests of any number of accesses, with cleanups in between. */
module QuotaRuns {
  import opened Wrappers
  import opened Quotas

  /** The history the audit log is supposed to stand for: one entry a request, never removed. */
  datatype Served = Served(access: nat, limits: Limits, began: int, checked: int, dispatched: bool, succeeded: bool)

  datatype State = State(rows: seq<AuditRow>, uses: map<nat, Use>, nextId: nat, clock: int, log: seq<Served>)

  datatype Event =
    | Request(access: nat, limits: Limits, began: int, checked: int, succeeds: bool)
    | Cleanup(at: int, retentionDays: int, found: set<nat>)

  /** A cleanup deletes some of the rows that are older than its cutoff (its search has a limit). */
  ghost predicate Enabled(s: State, e: Event) {
    match e
    case Request(_, _, began, checked, _) => s.clock <= began <= checked
    case Cleanup(at, retentionDays, found) =>
      && s.clock <= at
      && forall i :: 0 <= i < |s.rows| && s.rows[i].id in found ==> s.rows[i].stamp < Cutoff(Now(at), retentionDays)
  }

  function Apply(s: State, e: Event): State {
    match e
    case Request(access, limits, began, checked, succeeds) =>
      var dispatched := QuotaError(s.rows, access, limits, Now(checked)).None?;
      State(s.rows + [AuditRow(s.nextId, access, began)],
            s.uses[access := Recorded(UseOf(s.uses, access), dispatched && succeeds)], s.nextId + 1, checked,
            s.log + [Served(access, limits, began, checked, dispatched, dispatched && succeeds)])
    case Cleanup(at, retentionDays, found) => s.(rows := Without(s.rows, found), clock := at)
  }

  function Initial(clock: int): State {
    State([], map[], 0, clock, [])
  }

  /** How many requests of an access began at some time or later, dispatched or refused. */
  function LogSince(log: seq<Served>, access: nat, from: int): nat {
    if log == [] then 0
    else
      var last := log[|log| - 1];
      LogSince(log[..|log| - 1], access, from) + (if last.access == access && last.began >= from then 1 else 0)
  }

  /** What the whole history would say about a request, if it were kept. */
  predicate Within(log: seq<Served>, q: Served) {
    && LogSince(log, q.access, Now(q.checked) - MINUTE) < q.limits.perMinute
    && (q.limits.perDay != 0 ==> LogSince(log, q.access, DayStart(Now(q.checked))) < q.limits.perDay)
  }

  /** The log of a request that is checked at or after a moment counts every row that matters. */
  ghost predicate CountsOk(s: State, access: nat) {
    forall from: int :: Now(s.clock) - DAY <= from ==> CountSince(s.rows, access, from) == LogSince(s.log, access, from)
  }

  ghost predicate LogOk(log: seq<Served>) {
    forall k :: 0 <= k < |log| ==> log[k].began <= log[k].checked && (log[k].dispatched <==> Within(log[..k], log[k]))
  }

  function CountUses(log: seq<Served>, access: nat): Use {
    if log == [] then Use(0, 0)
    else
      var last, before := log[|log| - 1], CountUses(log[..|log| - 1], access);
      if last.access != access then before
      else Use(before.requests + 1, before.failures + (if last.succeeded then 0 else 1))
  }

  /** Requests run one after another: each was checked before the next began. */
  ghost predicate Serial(s: State) {
    && (forall j, k :: 0 <= j < k < |s.log| ==> s.log[j].checked <= s.log[k].began)
    && (forall k :: 0 <= k < |s.log| ==> s.log[k].checked <= s.clock)
  }

  ghost predicate Inv(s: State) {
    && LogOk(s.log) && Serial(s)
    && (forall access: nat :: CountsOk(s, access) && UseOf(s.uses, access) == CountUses(s.log, access))
  }

  lemma CountSnoc(rows: seq<AuditRow>, row: AuditRow, access: nat, from: int)
    ensures CountSince(rows + [row], access, from)
            == CountSince(rows, access, from) + (if row.access == access && row.stamp >= from then 1 else 0)
  {
    assert (rows + [row])[..|rows|] == rows;
  }

  lemma LogSnoc(log: seq<Served>, q: Served, access: nat, from: int)
    ensures LogSince(log + [q], access, from)
            == LogSince(log, access, from) + (if q.access == access && q.began >= from then 1 else 0)
    ensures CountUses(log + [q], access)
            == if q.access != access then CountUses(log, access)
               else Use(CountUses(log, access).requests + 1,
                        CountUses(log, access).failures + (if q.succeeded then 0 else 1))
  {
    assert (log + [q])[..|log|] == log;
  }

  /** A cleanup never removes a row that a later check counts. */
  lemma {:induction false} WithoutKeepsCounts(rows: seq<AuditRow>, ids: set<nat>, access: nat, from: int)
    requires forall i :: 0 <= i < |rows| && rows[i].id in ids ==> rows[i].stamp < from
    ensures CountSince(Without(rows, ids), access, from) == CountSince(rows, access, from)
  {
    if rows != [] {
      var last, before := rows[|rows| - 1], rows[..|rows| - 1];
      WithoutKeepsCounts(before, ids, access, from);
      CountSnoc(Without(before, ids), last, access, from);
    }
  }

  lemma {:induction false} NowGrows(a: int, b: int)
    requires a <= b
    ensures Now(a) <= Now(b)
  {
  }

  lemma CutoffDayOld(now: int, retentionDays: int)
    ensures Cutoff(now, retentionDays) <= now - DAY
  {
  }

  lemma CleanupKeeps(s: State, at: int, retentionDays: int, found: set<nat>, access: nat)
    requires CountsOk(s, access) && Enabled(s, Cleanup(at, retentionDays, found))
    ensures CountsOk(Apply(s, Cleanup(at, retentionDays, found)), access)
  {
    hide Cutoff;
    hide Now;
    NowGrows(s.clock, at);
    CutoffDayOld(Now(at), retentionDays);
    var rows := Without(s.rows, found);
    forall from: int | Now(at) - DAY <= from
      ensures CountSince(rows, access, from) == LogSince(s.log, access, from)
    {
      WithoutKeepsCounts(s.rows, found, access, from);
    }
  }

  lemma RequestKeepsCounts(s: State, e: Event, access: nat)
    requires CountsOk(s, access) && Enabled(s, e) && e.Request?
    ensures CountsOk(Apply(s, e), access)
  {
    hide Now;
    hide QuotaError;
    var s' := Apply(s, e);
    NowGrows(s.clock, s'.clock);
    forall from: int | Now(s'.clock) - DAY <= from
      ensures CountSince(s'.rows, access, from) == LogSince(s'.log, access, from)
    {
      CountSnoc(s.rows, s'.rows[|s.rows|], access, from);
      LogSnoc(s.log, s'.log[|s.log|], access, from);
    }
  }

  /** The check over the audit log answers as a check over the whole history would. */
  lemma CheckIsExact(s: State, e: Event)
    requires e.Request? && Enabled(s, e) && CountsOk(s, e.access)
    ensures var q := Apply(s, e).log[|s.log|]; q.began <= q.checked && (q.dispatched <==> Within(s.log, q))
  {
    hide Now;
    hide DayStart;
    NowGrows(s.clock, e.checked);
  }

  /** What a refused client is told: that the minute limit is reached whenever the history of the last
      minute reaches it, and that the daily quota is used up whenever only that is. */
  lemma RefusalsSayWhy(s: State, e: Event)
    requires e.Request? && Enabled(s, e) && CountsOk(s, e.access)
    ensures var now := Now(e.checked);
            var minute := LogSince(s.log, e.access, now - 60_000_000) >= e.limits.perMinute;
            var day := e.limits.perDay != 0 && LogSince(s.log, e.access, DayStart(now)) >= e.limits.perDay;
            QuotaError(s.rows, e.access, e.limits, now)
            == if minute then Some("rate_limit_exceeded") else if day then Some("daily_quota_exceeded") else None
  {
    hide Now;
    hide DayStart;
    NowGrows(s.clock, e.checked);
  }

  /** A cleanup removes no row that is within its retention, which is a day at least. */
  lemma CleanupSparesRecentRows(s: State, e: Event, row: AuditRow)
    requires e.Cleanup? && Enabled(s, e) && row in s.rows && row !in Apply(s, e).rows
    ensures row.stamp < Now(e.at) - 86_400_000_000 * (if e.retentionDays < 1 then 1 else e.retentionDays)
  {
    hide Now;
  }

  lemma EventKeepsSerial(s: State, e: Event)
    requires LogOk(s.log) && Serial(s) && Enabled(s, e)
    ensures Serial(Apply(s, e))
  {
    hide Now;
    hide QuotaError;
  }

  lemma EventKeeps(s: State, e: Event)
    requires Inv(s) && Enabled(s, e)
    ensures Inv(Apply(s, e))
  {
    hide Enabled;
    hide CountsOk;
    hide Within;
    hide Serial;
    var s' := Apply(s, e);
    EventKeepsSerial(s, e);
    forall access: nat
      ensures CountsOk(s', access) && UseOf(s'.uses, access) == CountUses(s'.log, access)
    {
      assert CountsOk(s, access);
      if e.Request? {
        RequestKeepsCounts(s, e, access);
        LogSnoc(s.log, s'.log[|s.log|], access, 0);
      } else {
        CleanupKeeps(s, e.at, e.retentionDays, e.found, access);
      }
    }
    if e.Request? {
      assert CountsOk(s, e.access);
      CheckIsExact(s, e);
      assert forall k :: 0 <= k < |s.log| ==> s'.log[..k] == s.log[..k];
      assert s'.log[..|s.log|] == s.log;
    }
  }

  ghost predicate Possible(s: State, events: seq<Event>)
    decreases |events|
  {
    events != [] ==> Enabled(s, events[0]) && Possible(Apply(s, events[0]), events[1..])
  }

  function Run(s: State, events: seq<Event>): State
    decreases |events|
  {
    if events == [] then s else Run(Apply(s, events[0]), events[1..])
  }

  lemma {:induction false} RunKeeps(s: State, events: seq<Event>)
    requires Inv(s) && Possible(s, events)
    ensures Inv(Run(s, events))
    decreases |events|
  {
    if events != [] {
      hide Inv;
      hide Apply;
      EventKeeps(s, events[0]);
      RunKeeps(Apply(s, events[0]), events[1..]);
    }
  }

  /** The requests of an access that were dispatched, began at some time or later, and were checked
      by some other time. */
  function Dispatched(log: seq<Served>, access: nat, from: int, until: int): nat {
    if log == [] then 0
    else
      var last := log[|log| - 1];
      Dispatched(log[..|log| - 1], access, from, until) + (if InWindow(last, access, from, until) then 1 else 0)
  }

  predicate InWindow(q: Served, access: nat, from: int, until: int) {
    q.dispatched && q.access == access && from <= q.began && q.checked <= until
  }

  lemma {:induction false} DispatchedAreLogged(log: seq<Served>, access: nat, from: int, until: int)
    ensures Dispatched(log, access, from, until) <= LogSince(log, access, from)
  {
    if log != [] {
      DispatchedAreLogged(log[..|log| - 1], access, from, until);
    }
  }

  lemma {:induction false} FewerSince(log: seq<Served>, access: nat, from: int, later: int)
    requires from <= later
    ensures LogSince(log, access, later) <= LogSince(log, access, from)
  {
    if log != [] {
      FewerSince(log[..|log| - 1], access, from, later);
    }
  }

  /** At most so many in any trailing minute, over the history. */
  lemma {:induction false} MinuteBound(log: seq<Served>, access: nat, until: int, limit: nat)
    requires LogOk(log)
    requires forall k :: 0 <= k < |log| && InWindow(log[k], access, until - MINUTE, until) ==>
               log[k].limits.perMinute <= limit
    ensures Dispatched(log, access, until - MINUTE, until) <= limit
  {
    hide Now;
    hide DayStart;
    if log != [] {
      var n := |log| - 1;
      var last, before := log[n], log[..n];
      assert forall k :: 0 <= k < n ==> log[..k] == before[..k];
      MinuteBound(before, access, until, limit);
      if InWindow(last, access, until - MINUTE, until) {
        assert Within(before, last);
        DispatchedAreLogged(before, access, until - MINUTE, until);
        FewerSince(before, access, Now(last.checked) - MINUTE, until - MINUTE);
      }
    }
  }

  /** At most so many on any one UTC day, over the history. */
  lemma {:induction false} DayBound(log: seq<Served>, access: nat, day: int, quota: nat)
    requires LogOk(log)
    requires forall k :: 0 <= k < |log| && InWindow(log[k], access, day * DAY, (day + 1) * DAY - 1) ==>
               0 < log[k].limits.perDay <= quota
    ensures Dispatched(log, access, day * DAY, (day + 1) * DAY - 1) <= quota
  {
    hide Now;
    hide DayStart;
    if log != [] {
      var n := |log| - 1;
      var last, before := log[n], log[..n];
      assert forall k :: 0 <= k < n ==> log[..k] == before[..k];
      DayBound(before, access, day, quota);
      if InWindow(last, access, day * DAY, (day + 1) * DAY - 1) {
        assert Within(before, last);
        DispatchedAreLogged(before, access, day * DAY, (day + 1) * DAY - 1);
        StartOfItsDay(last.checked, day);
      }
    }
  }

  lemma WholeDays(x: int, day: int)
    requires day * DAY <= x < (day + 1) * DAY
    ensures DayStart(x) == day * DAY
  {
    assert x / DAY == day;
  }

  lemma StartOfItsDay(at: int, day: int)
    requires day * DAY <= at < (day + 1) * DAY
    ensures DayStart(Now(at)) == day * DAY
  {
    var seconds := at / SECOND;
    assert Now(at) == seconds * SECOND;
    assert day * 86_400 <= seconds < (day + 1) * 86_400;
    WholeDays(Now(at), day);
  }
}
