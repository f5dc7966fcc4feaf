/** The workflow's operations as they run: writes to the database in order, loops over records, and
    the two savepoints.  Each leaves behind, failed or not, exactly what module Approvals says. */
module ApprovalService {
  import opened Wrappers
  import opened Json
  import opened Policies
  import opened Actions
  import opened Approvals
  import opened Uris

  class ConnectMcpService {
    var db: Db

    constructor (db: Db)
      ensures this.db == db
    {
      this.db := db;
    }

    method PublishResourceUpdate(ctx: Context, access: nat, uri: string) returns (r: Result<nat, Error>)
      modifies this
      ensures Out(db, r) == Publish(old(db), ctx, access, uri)
    {
      if !OdooUri(uri) {
        return Err(BAD_URI);
      }
      var version := Version(db, access) + 1;
      db := db.(versions := db.versions[access := version]);
      if !ctx.accepts(access, version) {
        return Err(BUS_FAILURE);
      }
      db := db.(bus := db.bus + [Notice(access, uri, version)]);
      r := Ok(version);
    }

    method SystemWrite(ctx: Context, uids: seq<Uid>, change: Change) returns (r: Result<(), Error>)
      requires forall u :: u in uids ==> u in db.rows
      modifies this
      ensures Out(db, r) == Approvals.SystemWrite(old(db), ctx, uids, change)
    {
      hide Publish;
      hide Assign;
      ghost var notices := ApprovalNotices(db.rows, uids);
      db := db.(rows := Assigned(db.rows, uids, change));
      ghost var written := db;
      assert notices[0..] == notices;
      AccessKept(old(db).rows, uids, change);
      for i := 0 to |uids|
        invariant db.rows == written.rows
        invariant PublishAll(written, ctx, notices) == PublishAll(db, ctx, notices[i..])
      {
        assert notices[i..][0] == notices[i] && notices[i..][1..] == notices[i + 1..];
        ghost var before := db;
        var published := PublishResourceUpdate(ctx, db.rows[uids[i]].access, ApprovalUri(uids[i]));
        PublishingOne(before, ctx, notices[i].0, notices[i].1);
        if published.Err? {
          return Err(published.error);
        }
      }
      r := Ok(());
    }

    method PublishExecutionUpdates(ctx: Context, access: nat, effect: Effect) returns (r: Result<(), Error>)
      modifies this
      ensures Out(db, r) == PublishAll(old(db), ctx, RecordNotices(access, effect.model, effect.ids))
    {
      hide Publish;
      assert effect.ids[0..] == effect.ids;
      for i := 0 to |effect.ids|
        invariant PublishAll(old(db), ctx, RecordNotices(access, effect.model, effect.ids)) ==
                  PublishAll(db, ctx, RecordNotices(access, effect.model, effect.ids[i..]))
      {
        ghost var rest := effect.ids[i..];
        assert rest[0] == effect.ids[i] && rest[1..] == effect.ids[i + 1..];
        ghost var notices := RecordNotices(access, effect.model, rest);
        if effect.ids[i] > 0 {
          assert notices[0] == (access, RecordUri(effect.model, effect.ids[i]));
          assert notices[1..] == RecordNotices(access, effect.model, rest[1..]);
          var published := PublishResourceUpdate(ctx, access, RecordUri(effect.model, effect.ids[i]));
          if published.Err? {
            return Err(published.error);
          }
        } else {
          assert notices == RecordNotices(access, effect.model, rest[1..]);
        }
      }
      r := Ok(());
    }

    method OpChangePreview(ctx: Context, access: nat, params: Object, newUid: Uid) returns (r: Result<View, Error>)
      modifies this
      ensures Out(db, r) == ChangePreview(old(db), ctx, access, params, newUid)
    {
      hide PlanOf;
      var plan :- PlanOf(ctx.env, db.store, params);
      var existing := FindByKey(db, access, plan.key);
      if existing.Some? {
        var row := db.rows[existing.value];
        if row.hash != Digest(plan.prepared.normalized) {
          return Err(CONFLICT);
        }
        return Ok(PublicDict(existing.value, row));
      }
      var row := NewApproval(ctx, access, plan);
      if newUid in db.rows || (row.access, row.key) in db.keys {
        return Err(DUPLICATE);
      }
      db := db.(rows := db.rows[newUid := row], keys := db.keys[(row.access, row.key) := newUid],
                issued := db.issued + {newUid},
                grants := if row.state.Approved? then db.grants[newUid := Grant(None, ctx.clock(0))] else db.grants);
      r := Ok(PublicDict(newUid, row));
    }

    method OpChangeStatus(ctx: Context, access: nat, params: Object) returns (r: Result<View, Error>)
      modifies this
      ensures Out(db, r) == ChangeStatus(old(db), ctx, access, params)
    {
      var uid :- ApprovalFor(db, access, params);
      var row := db.rows[uid];
      if (row.state.Pending? || row.state.Approved?) && row.expiresAt <= ctx.clock(0) {
        RowsKept(db, ctx, [uid], ToExpired);
        var _ :- SystemWrite(ctx, [uid], ToExpired);
      }
      r := Ok(PublicDict(uid, db.rows[uid]));
    }

    /** The try block: the action runs under a savepoint of its own. */
    method RunAction(ctx: Context, uid: Uid) returns (r: Result<(), Error>)
      requires uid in db.rows
      modifies this
      ensures Out(db, r) == RunPlan(old(db), ctx, uid)
    {
      hide Execute;
      hide Approvals.SystemWrite;
      hide PublishAll;
      var row := db.rows[uid];
      var savepoint := db;
      var attempt := Execute(ctx.env, db.store, row.action, row.payload);
      db := db.(store := attempt.store);
      if attempt.result.Err? {
        db := savepoint;
        return Err(attempt.result.error);
      }
      var effect := attempt.result.value;
      db := db.(journal := db.journal + [Applied(uid, ctx.clock(0), effect)]);
      var _ :- SystemWrite(ctx, [uid], ToExecuted(ctx.clock(1), effect));
      r := PublishExecutionUpdates(ctx, row.access, effect);
    }

    method RecordFailure(ctx: Context, uid: Uid, error: Error) returns (raised: Error)
      requires uid in db.rows
      modifies this
      ensures Out(db, Err(raised)) == FailPlan(old(db), ctx, uid, error)
    {
      hide Approvals.SystemWrite;
      var failed := SystemWrite(ctx, [uid], ToFailed(error));
      raised := if failed.Err? then failed.error else error;
    }

    method OpChangeExecute(ctx: Context, access: nat, params: Object) returns (r: Result<View, Error>)
      modifies this
      ensures Out(db, r) == ChangeExecute(old(db), ctx, access, params)
    {
      hide Approvals.SystemWrite;
      hide RunPlan;
      hide FailPlan;
      var uid :- ApprovalFor(db, access, params);
      var row := db.rows[uid];
      if row.state.Executed? {
        return Ok(PublicDict(uid, row));
      }
      if row.expiresAt <= ctx.clock(0) {
        RowsKept(db, ctx, [uid], ToExpired);
        var _ :- SystemWrite(ctx, [uid], ToExpired);
        return Ok(PublicDict(uid, db.rows[uid]));
      }
      if !row.state.Approved? {
        return Ok(PublicDict(uid, row));
      }
      if row.hash != Digest(row.payload) {
        var raised := RecordFailure(ctx, uid, INTEGRITY);
        return Err(raised);
      }
      RowsKept(db, ctx, [uid], ToExecuting);
      var _ :- SystemWrite(ctx, [uid], ToExecuting);
      PlanKeepsRows(db, ctx, uid);
      var ran := RunAction(ctx, uid);
      if ran.Err? {
        var raised := RecordFailure(ctx, uid, ran.error);
        return Err(raised);
      }
      r := Ok(PublicDict(uid, db.rows[uid]));
    }

    /** execute_request: whatever a failing operation wrote is rolled back to the outer savepoint. */
    method ExecuteRequest(ctx: Context, access: nat, call: Call, params: Object, newUid: Uid)
        returns (r: Result<View, Error>)
      modifies this
      ensures Out(db, r) == Durable(old(db), Dispatch(old(db), ctx, access, call, params, newUid))
    {
      hide ChangePreview;
      hide ChangeStatus;
      hide ChangeExecute;
      var savepoint := db;
      match call {
        case Preview => r := OpChangePreview(ctx, access, params, newUid);
        case Status => r := OpChangeStatus(ctx, access, params);
        case RunChange => r := OpChangeExecute(ctx, access, params);
      }
      if r.Err? {
        db := savepoint;
      }
    }

    method ActionApprove(ctx: Context, user: nat, manager: bool, uids: seq<Uid>) returns (r: Result<(), Error>)
      modifies this
      ensures Out(db, r) == Decide(old(db), ctx, Approve, user, manager, uids)
    {
      hide Approvals.SystemWrite;
      if !manager {
        return Err(ACCESS_DENIED);
      }
      for i := 0 to |uids|
        invariant ApproveFrom(old(db), ctx, user, uids, 0) == ApproveFrom(db, ctx, user, uids, i)
      {
        if uids[i] !in db.rows {
          return Err(NOT_FOUND);
        }
        var row := db.rows[uids[i]];
        if !row.state.Pending? {
          return Err(USER_ERROR);
        }
        if row.expiresAt <= ctx.clock(2 * i) {
          var _ :- SystemWrite(ctx, [uids[i]], ToExpired);
          return Err(USER_ERROR);
        }
        db := Granted(db, uids[i], Grant(Some(user), ctx.clock(2 * i)));
        var _ :- SystemWrite(ctx, [uids[i]], ToApproved(user, ctx.clock(2 * i + 1)));
      }
      r := Ok(());
    }

    method ActionReject(ctx: Context, user: nat, manager: bool, uids: seq<Uid>) returns (r: Result<(), Error>)
      modifies this
      ensures Out(db, r) == Decide(old(db), ctx, Reject, user, manager, uids)
    {
      hide Approvals.SystemWrite;
      if !manager {
        return Err(ACCESS_DENIED);
      }
      for i := 0 to |uids|
        invariant RejectFrom(old(db), ctx, user, uids, 0) == RejectFrom(db, ctx, user, uids, i)
      {
        if uids[i] !in db.rows {
          return Err(NOT_FOUND);
        }
        var row := db.rows[uids[i]];
        if !(row.state.Pending? || row.state.Approved?) {
          return Err(USER_ERROR);
        }
        var _ :- SystemWrite(ctx, [uids[i]], ToRejected(user, ctx.clock(i)));
      }
      r := Ok(());
    }

    method GcApprovals(ctx: Context, overdue: seq<Uid>, finished: seq<Uid>) returns (r: Result<(), Error>)
      requires forall u :: u in overdue ==> u in db.rows
      modifies this
      ensures Out(db, r) == Collect(old(db), ctx, overdue, finished)
    {
      hide Approvals.SystemWrite;
      var _ :- SystemWrite(ctx, overdue, ToExpired);
      db := Unlinked(db, finished);
      r := Ok(());
    }
  }

  /** No change ever moves an approval to another access. */
  lemma AccessKept(rows: map<Uid, Approval>, uids: seq<Uid>, change: Change)
    ensures forall u :: u in rows ==> Assigned(rows, uids, change)[u].access == rows[u].access
  {
  }
}
