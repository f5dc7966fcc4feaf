/** The approval workflow of service.py, approval.py and access.py over one transactional database:
    preview, decision, execution under nested savepoints, status, cleanup and event publishing.

    The functions say what each operation leaves behind, failed or not, before any savepoint is
    rolled back; the class performs the operations and takes the savepoints. */
module Approvals {
  import opened Wrappers
  import opened Json
  import opened Policies
  import opened Actions
  import opened Uris

  type Uid = string

  /** The digest of a payload's canonical form; canonical JSON and SHA-256 are taken as injective. */
  datatype Digest = Digest(of: Object)

  datatype State = Pending | Approved | Rejected | Executing | Executed | Expired | Failed

  datatype Approval = Approval(
    access: nat,
    action: Action,
    model: Json,
    payload: Object,
    hash: Digest,
    key: string,
    risk: Risk,
    targets: nat,
    createdAt: int,
    expiresAt: int,
    state: State,
    approvedBy: Option<nat>,
    approvedAt: Option<int>,
    rejectedBy: Option<nat>,
    rejectedAt: Option<int>,
    executedAt: Option<int>,
    result: Option<Effect>,
    error: Option<Error>)

  /** A bus message that is delivered when its transaction commits. */
  datatype Notice = Notice(access: nat, uri: string, version: nat)

  /** Why a plan may run: a manager's decision, or none needed; at is when its expiry was tested. */
  datatype Grant = Grant(user: Option<nat>, at: int)

  /** A business effect in the store, and when the plan's expiry was tested before it. */
  datatype Applied = Applied(uid: Uid, at: int, effect: Effect)

  /** keys is the unique index on (access, idempotency key).  issued, grants and journal are
      history: the source does not store them, but a rollback undoes them with everything else. */
  datatype Db = Db(
    rows: map<Uid, Approval>,
    keys: map<(nat, string), Uid>,
    store: Store,
    versions: map<nat, nat>,
    bus: seq<Notice>,
    issued: set<Uid>,
    grants: map<Uid, Grant>,
    journal: seq<Applied>)

  /** What surrounds one transaction: when it began and ended, the successive readings of the
      clock, what Odoo answers, and whether the bus accepts a version. */
  datatype Context = Context(env: Env, accepts: (nat, nat) -> bool, began: int, ended: int, clock: nat -> int)

  /** A database and what was returned or raised. */
  datatype Out<+T> = Out(db: Db, result: Result<T, Error>)

  /** The values dictionaries that the workflow passes to _system_write. */
  datatype Change =
    | ToApproved(user: nat, at: int)
    | ToRejected(user: nat, at: int)
    | ToExpired
    | ToExecuting
    | ToExecuted(at: int, effect: Effect)
    | ToFailed(error: Error)

  /** _public_dict. */
  datatype View = View(
    uid: Uid, state: State, action: Action, model: Json, risk: Risk, targets: nat, expiresAt: int,
    result: Option<Effect>, error: Option<Error>)

  const BUS_FAILURE := Error("internal_error", 500)
  const BAD_URI := Error("validation_error", 422)
  const INTEGRITY := Error("integrity_error", 409)
  const CONFLICT := Error("idempotency_conflict", 409)
  const NOT_FOUND := Error("not_found", 404)
  const DUPLICATE := Error("internal_error", 500)
  const USER_ERROR := Error("validation_error", 422)

  const SEARCH_LIMIT := 5000
  const SECONDS_PER_DAY := 86400

  function Decimal(n: nat): string {
    (if n < 10 then "" else Decimal(n / 10)) + [('0' as int + n % 10) as char]
  }

  function ApprovalUri(uid: Uid): string {
    PREFIX + ("approval/" + uid)
  }

  function RecordUri(model: string, id: nat): string {
    PREFIX + ("record/" + model + "/" + Decimal(id))
  }

  function Assign(row: Approval, change: Change): Approval {
    match change
    case ToApproved(user, at) => row.(state := Approved, approvedBy := Some(user), approvedAt := Some(at))
    case ToRejected(user, at) => row.(state := Rejected, rejectedBy := Some(user), rejectedAt := Some(at))
    case ToExpired => row.(state := Expired)
    case ToExecuting => row.(state := Executing)
    case ToExecuted(at, effect) =>
      row.(state := Executed, executedAt := Some(at), result := Some(effect), error := None)
    case ToFailed(error) => row.(state := Failed, error := Some(error))
  }

  function PublicDict(uid: Uid, row: Approval): View {
    View(uid, row.state, row.action, row.model, row.risk, row.targets, row.expiresAt, row.result, row.error)
  }

  function Version(db: Db, access: nat): nat {
    if access in db.versions then db.versions[access] else 0
  }

  /** _publish_resource_update. */
  function Publish(db: Db, ctx: Context, access: nat, uri: string): Out<nat> {
    if !OdooUri(uri) then Out(db, Err(BAD_URI))
    else
      var version := Version(db, access) + 1;
      var counted := db.(versions := db.versions[access := version]);
      if ctx.accepts(access, version) then Out(counted.(bus := db.bus + [Notice(access, uri, version)]), Ok(version))
      else Out(counted, Err(BUS_FAILURE))
  }

  /** One notice after another, until one fails. */
  function PublishAll(db: Db, ctx: Context, notices: seq<(nat, string)>): Out<()>
    decreases |notices|
  {
    if notices == [] then Out(db, Ok(()))
    else
      var first := Publish(db, ctx, notices[0].0, notices[0].1);
      if first.result.Err? then Out(first.db, Err(first.result.error))
      else PublishAll(first.db, ctx, notices[1..])
  }

  function Assigned(rows: map<Uid, Approval>, uids: seq<Uid>, change: Change): map<Uid, Approval> {
    map u | u in rows :: if u in uids then Assign(rows[u], change) else rows[u]
  }

  function ApprovalNotices(rows: map<Uid, Approval>, uids: seq<Uid>): seq<(nat, string)>
    requires forall u :: u in uids ==> u in rows
  {
    seq(|uids|, i requires 0 <= i < |uids| => (rows[uids[i]].access, ApprovalUri(uids[i])))
  }

  /** _system_write, whose values always hold a state here: it writes every row, then publishes. */
  function SystemWrite(db: Db, ctx: Context, uids: seq<Uid>, change: Change): Out<()>
    requires forall u :: u in uids ==> u in db.rows
  {
    PublishAll(db.(rows := Assigned(db.rows, uids, change)), ctx, ApprovalNotices(db.rows, uids))
  }

  /** handlers.get(action): a list or an object is unhashable, which is a TypeError. */
  function ParseAction(action: Json): Result<Action, Error> {
    if action.Arr? || action.Obj? then Err(Error("validation_error", 422))
    else if action == Str("record.create") then Ok(RecordCreate)
    else if action == Str("record.update") then Ok(RecordUpdate)
    else if action == Str("record.delete") then Ok(RecordDelete)
    else if action == Str("message.post") then Ok(MessagePost)
    else if action == Str("activity.schedule") then Ok(ActivitySchedule)
    else if action == Str("attachment.create") then Ok(AttachmentCreate)
    else if action == Str("method.call") then Ok(MethodCall)
    else Err(Error("unknown_action", 404))
  }

  datatype Plan = Plan(key: string, action: Action, prepared: Prepared)

  /** The checks of _op_change_preview up to the normal form. */
  function PlanOf(env: Env, store: Store, params: Object): Result<Plan, Error> {
    var payload, key := Get(params, "payload"), Get(params, "idempotency_key");
    if !payload.Obj? then Err(Error("invalid_payload", 400))
    else if !key.Str? || !(8 <= |key.s| <= 128) then Err(Error("invalid_idempotency_key", 400))
    else
      var action :- ParseAction(Get(params, "action"));
      var prepared :- Prepare(env, store, action, payload.fields);
      Ok(Plan(key.s, action, prepared))
  }

  function FindByKey(db: Db, access: nat, key: string): (found: Option<Uid>)
    ensures found.Some? ==> found.value in db.rows
  {
    if (access, key) in db.keys && db.keys[(access, key)] in db.rows then Some(db.keys[(access, key)]) else None
  }

  predicate AutoApproved(profile: Profile, plan: Plan) {
    && profile.autoApproveLowRisk && plan.prepared.risk == Low
    && (plan.action == MessagePost || plan.action == ActivitySchedule)
  }

  function NewApproval(ctx: Context, access: nat, plan: Plan): Approval {
    var auto, now := AutoApproved(ctx.env.profile, plan), ctx.clock(0);
    Approval(
      access, plan.action, Get(plan.prepared.normalized, "model"), plan.prepared.normalized,
      Digest(plan.prepared.normalized), plan.key, plan.prepared.risk, plan.prepared.targets, ctx.began,
      now + 60 * ctx.env.profile.approvalTtlMinutes, if auto then Approved else Pending,
      None, if auto then Some(now) else None, None, None, None, None, None)
  }

  /** Approval.create, with the table's two unique constraints. */
  function Insert(db: Db, uid: Uid, row: Approval, now: int): Out<()> {
    if uid in db.rows || (row.access, row.key) in db.keys then Out(db, Err(DUPLICATE))
    else
      Out(db.(rows := db.rows[uid := row], keys := db.keys[(row.access, row.key) := uid], issued := db.issued + {uid},
              grants := if row.state.Approved? then db.grants[uid := Grant(None, now)] else db.grants),
          Ok(()))
  }

  /** _op_change_preview; newUid is the request_uid a new approval would get. */
  function ChangePreview(db: Db, ctx: Context, access: nat, params: Object, newUid: Uid): Out<View> {
    match PlanOf(ctx.env, db.store, params)
    case Err(e) => Out(db, Err(e))
    case Ok(plan) =>
      match FindByKey(db, access, plan.key)
      case Some(uid) =>
        Out(db, if db.rows[uid].hash != Digest(plan.prepared.normalized) then Err(CONFLICT)
                else Ok(PublicDict(uid, db.rows[uid])))
      case None =>
        var row := NewApproval(ctx, access, plan);
        var inserted := Insert(db, newUid, row, ctx.clock(0));
        if inserted.result.Err? then Out(inserted.db, Err(inserted.result.error))
        else Out(inserted.db, Ok(PublicDict(newUid, row)))
  }

  /** _approval_for_access. */
  function ApprovalFor(db: Db, access: nat, params: Object): (r: Result<Uid, Error>)
    ensures r.Ok? ==> r.value in db.rows && db.rows[r.value].access == access
    ensures r.Ok? ==> Get(params, "approval_id") == Str(r.value) && |r.value| <= 64
  {
    var id := Get(params, "approval_id");
    if !id.Str? || |id.s| > 64 then Err(Error("invalid_approval", 400))
    else if id.s in db.rows && db.rows[id.s].access == access then Ok(id.s)
    else Err(NOT_FOUND)
  }

  /** The approval as it stands, unless the write before it failed. */
  function Shown(out: Out<()>, uid: Uid): Out<View> {
    if out.result.Err? then Out(out.db, Err(out.result.error))
    else if uid in out.db.rows then Out(out.db, Ok(PublicDict(uid, out.db.rows[uid])))
    else Out(out.db, Err(NOT_FOUND))
  }

  /** _op_change_status. */
  function ChangeStatus(db: Db, ctx: Context, access: nat, params: Object): Out<View> {
    match ApprovalFor(db, access, params)
    case Err(e) => Out(db, Err(e))
    case Ok(uid) =>
      var row := db.rows[uid];
      if (row.state.Pending? || row.state.Approved?) && row.expiresAt <= ctx.clock(0)
      then Shown(SystemWrite(db, ctx, [uid], ToExpired), uid)
      else Out(db, Ok(PublicDict(uid, row)))
  }

  /** The notices of _publish_execution_updates: one for each positive id, in order. */
  function RecordNotices(access: nat, model: string, ids: seq<nat>): seq<(nat, string)> {
    if ids == [] then []
    else (if ids[0] > 0 then [(access, RecordUri(model, ids[0]))] else []) + RecordNotices(access, model, ids[1..])
  }

  /** The try block of _op_change_execute; the inner savepoint keeps a failed action out of the store. */
  function RunPlan(db: Db, ctx: Context, uid: Uid): Out<()>
    requires uid in db.rows
  {
    var row := db.rows[uid];
    var attempt := Execute(ctx.env, db.store, row.action, row.payload);
    match attempt.result
    case Err(e) => Out(db, Err(e))
    case Ok(effect) =>
      var applied := db.(store := attempt.store, journal := db.journal + [Applied(uid, ctx.clock(0), effect)]);
      var written := SystemWrite(applied, ctx, [uid], ToExecuted(ctx.clock(1), effect));
      if written.result.Err? then written
      else PublishAll(written.db, ctx, RecordNotices(row.access, effect.model, effect.ids))
  }

  /** The except branch: the failure is recorded and the exception goes on, unless recording it
      raises another. */
  function FailPlan(db: Db, ctx: Context, uid: Uid, error: Error): (out: Out<View>)
    requires uid in db.rows
    ensures out.result.Err?
  {
    var failed := SystemWrite(db, ctx, [uid], ToFailed(error));
    Out(failed.db, Err(if failed.result.Err? then failed.result.error else error))
  }

  /** _op_change_execute: expiry is tested before the state, and a failure is written and raised. */
  function ChangeExecute(db: Db, ctx: Context, access: nat, params: Object): Out<View> {
    match ApprovalFor(db, access, params)
    case Err(e) => Out(db, Err(e))
    case Ok(uid) =>
      var row := db.rows[uid];
      if row.state.Executed? then Out(db, Ok(PublicDict(uid, row)))
      else if row.expiresAt <= ctx.clock(0) then Shown(SystemWrite(db, ctx, [uid], ToExpired), uid)
      else if !row.state.Approved? then Out(db, Ok(PublicDict(uid, row)))
      else if row.hash != Digest(row.payload) then FailPlan(db, ctx, uid, INTEGRITY)
      else
        var started := SystemWrite(db, ctx, [uid], ToExecuting);
        if started.result.Err? then Out(started.db, Err(started.result.error))
        else
          RowsKept(db, ctx, [uid], ToExecuting);
          var ran := RunPlan(started.db, ctx, uid);
          PlanKeepsRows(started.db, ctx, uid);
          if ran.result.Err? then FailPlan(ran.db, ctx, uid, ran.result.error)
          else Shown(ran, uid)
  }

  datatype Call = Preview | Status | RunChange

  /** _dispatch, for the three operations that may change the database. */
  function Dispatch(db: Db, ctx: Context, access: nat, call: Call, params: Object, newUid: Uid): Out<View> {
    match call
    case Preview => ChangePreview(db, ctx, access, params, newUid)
    case Status => ChangeStatus(db, ctx, access, params)
    case RunChange => ChangeExecute(db, ctx, access, params)
  }

  /** What a savepoint or a transaction keeps. */
  function Durable<T>(db: Db, out: Out<T>): Out<T> {
    if out.result.Err? then Out(db, out.result) else out
  }

  /** action_approve from the i-th record on; record i reads the clock twice. */
  function ApproveFrom(db: Db, ctx: Context, user: nat, uids: seq<Uid>, i: nat): Out<()>
    requires i <= |uids|
    decreases |uids| - i
  {
    if i == |uids| then Out(db, Ok(()))
    else if uids[i] !in db.rows then Out(db, Err(NOT_FOUND))
    else
      var row := db.rows[uids[i]];
      if !row.state.Pending? then Out(db, Err(USER_ERROR))
      else if row.expiresAt <= ctx.clock(2 * i) then
        var expired := SystemWrite(db, ctx, [uids[i]], ToExpired);
        Out(expired.db, Err(if expired.result.Err? then expired.result.error else USER_ERROR))
      else
        var approved := SystemWrite(Granted(db, uids[i], Grant(Some(user), ctx.clock(2 * i))), ctx, [uids[i]],
                                    ToApproved(user, ctx.clock(2 * i + 1)));
        if approved.result.Err? then approved
        else ApproveFrom(approved.db, ctx, user, uids, i + 1)
  }

  function Granted(db: Db, uid: Uid, grant: Grant): Db {
    db.(grants := db.grants[uid := grant])
  }

  /** action_reject from the i-th record on. */
  function RejectFrom(db: Db, ctx: Context, user: nat, uids: seq<Uid>, i: nat): Out<()>
    requires i <= |uids|
    decreases |uids| - i
  {
    if i == |uids| then Out(db, Ok(()))
    else if uids[i] !in db.rows then Out(db, Err(NOT_FOUND))
    else if !(db.rows[uids[i]].state.Pending? || db.rows[uids[i]].state.Approved?) then Out(db, Err(USER_ERROR))
    else
      var rejected := SystemWrite(db, ctx, [uids[i]], ToRejected(user, ctx.clock(i)));
      if rejected.result.Err? then rejected
      else RejectFrom(rejected.db, ctx, user, uids, i + 1)
  }

  datatype Decision = Approve | Reject

  /** A manager's decision on a selection of plans; anybody else is refused at once. */
  function Decide(db: Db, ctx: Context, decision: Decision, user: nat, manager: bool, uids: seq<Uid>): Out<()> {
    if !manager then Out(db, Err(ACCESS_DENIED))
    else if decision.Approve? then ApproveFrom(db, ctx, user, uids, 0)
    else RejectFrom(db, ctx, user, uids, 0)
  }

  /** The two searches of the cleanup. */
  datatype Query = Overdue(now: int) | Finished(cutoff: int)

  predicate Matches(query: Query, row: Approval) {
    match query
    case Overdue(now) => (row.state.Pending? || row.state.Approved?) && row.expiresAt < now
    case Finished(cutoff) =>
      && (row.state.Executed? || row.state.Rejected? || row.state.Expired? || row.state.Failed?)
      && row.createdAt < cutoff
  }

  /** A search with a limit: distinct matches, and all of them unless the limit was reached. */
  ghost predicate Found(rows: map<Uid, Approval>, uids: seq<Uid>, query: Query) {
    && Distinct(uids) && |uids| <= SEARCH_LIMIT
    && (forall u :: u in uids ==> u in rows && Matches(query, rows[u]))
    && (|uids| < SEARCH_LIMIT ==> forall u :: u in rows && Matches(query, rows[u]) ==> u in uids)
  }

  function Cutoff(now: int, retentionDays: int): int {
    now - SECONDS_PER_DAY * (if retentionDays < 1 then 1 else retentionDays)
  }

  function Unlinked(db: Db, uids: seq<Uid>): Db {
    db.(rows := map u | u in db.rows && u !in uids :: db.rows[u],
        keys := map k | k in db.keys && db.keys[k] !in uids :: db.keys[k])
  }

  /** _gc_approvals, given what its two searches find. */
  function Collect(db: Db, ctx: Context, overdue: seq<Uid>, finished: seq<Uid>): Out<()>
    requires forall u :: u in overdue ==> u in db.rows
  {
    var expired := SystemWrite(db, ctx, overdue, ToExpired);
    if expired.result.Err? then expired else Out(Unlinked(expired.db, finished), Ok(()))
  }

  /** Publishing changes nothing but versions and the bus. */
  predicate OnlyAnnounced(db: Db, db': Db) {
    db' == db.(versions := db'.versions, bus := db'.bus)
  }

  lemma PublishingOne(db: Db, ctx: Context, access: nat, uri: string)
    ensures OnlyAnnounced(db, Publish(db, ctx, access, uri).db)
  {
  }

  lemma {:induction false} PublishingOnly(db: Db, ctx: Context, notices: seq<(nat, string)>)
    ensures OnlyAnnounced(db, PublishAll(db, ctx, notices).db)
    decreases |notices|
  {
    if notices != [] {
      PublishingOnly(Publish(db, ctx, notices[0].0, notices[0].1).db, ctx, notices[1..]);
    }
  }

  /** A state write changes the named rows, versions and the bus, and nothing else. */
  lemma RowsKept(db: Db, ctx: Context, uids: seq<Uid>, change: Change)
    requires forall u :: u in uids ==> u in db.rows
    ensures var db' := SystemWrite(db, ctx, uids, change).db;
            OnlyAnnounced(db.(rows := Assigned(db.rows, uids, change)), db') && db'.rows.Keys == db.rows.Keys
  {
    PublishingOnly(db.(rows := Assigned(db.rows, uids, change)), ctx, ApprovalNotices(db.rows, uids));
  }

  lemma PlanKeepsRows(db: Db, ctx: Context, uid: Uid)
    requires uid in db.rows
    ensures RunPlan(db, ctx, uid).db.rows.Keys == db.rows.Keys
  {
    hide SystemWrite;
    hide PublishAll;
    hide Execute;
    var row := db.rows[uid];
    var attempt := Execute(ctx.env, db.store, row.action, row.payload);
    if attempt.result.Ok? {
      var effect := attempt.result.value;
      var applied := db.(store := attempt.store, journal := db.journal + [Applied(uid, ctx.clock(0), effect)]);
      RowsKept(applied, ctx, [uid], ToExecuted(ctx.clock(1), effect));
      var written := SystemWrite(applied, ctx, [uid], ToExecuted(ctx.clock(1), effect));
      PublishingOnly(written.db, ctx, RecordNotices(row.access, effect.model, effect.ids));
    }
  }
}
