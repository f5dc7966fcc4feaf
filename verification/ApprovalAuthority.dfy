/** On whose authority plans are approved: every grant of a run goes back to one transaction of that
    run, a manager's decision or a preview under a profile that opted in to automatic approval. */
module ApprovalAuthority {
  import opened Wrappers
  import opened Json
  import opened Policies
  import opened Actions
  import opened Approvals
  import opened ApprovalSteps
  import opened ApprovalDecisions
  import opened ApprovalRuns

  /** A manager's transaction approves the pending plan u, having found it in time at the given
      reading of its clock. */
  ghost predicate ManagerApproves(w: World, e: Event, u: Uid, manager: nat, at: int) {
    && Enabled(w, e) && e.Decision? && e.decision.Approve? && e.manager && e.user == manager
    && u in w.db.rows && w.db.rows[u].state.Pending? && at < w.db.rows[u].expiresAt
    && (exists k: nat :: k < |e.uids| && e.uids[k] == u && e.ctx.clock(2 * k) == at)
    && u in Next(w, e).db.rows && Next(w, e).db.rows[u].state.Approved?
  }

  /** A preview makes plan u, a low-risk message or activity, under a profile that approves such plans
      by itself. */
  ghost predicate ProfileApproves(w: World, e: Event, u: Uid, at: int) {
    && Enabled(w, e) && e.Request? && e.call.Preview? && e.newUid == u && u !in w.db.issued && e.ctx.clock(0) == at
    && e.ctx.env.profile.autoApproveLowRisk
    && u in Next(w, e).db.rows
    && var row := Next(w, e).db.rows[u];
       && row.state.Approved? && row.risk == Low && (row.action == MessagePost || row.action == ActivitySchedule)
  }

  ghost predicate Grants(w: World, e: Event, u: Uid, grant: Grant) {
    match grant.user
    case Some(manager) => ManagerApproves(w, e, u, manager, grant.at)
    case None => ProfileApproves(w, e, u, grant.at)
  }

  /** Some transaction of the run gave the grant. */
  ghost predicate Authorized(w: World, events: seq<Event>, u: Uid, grant: Grant) {
    exists i: nat :: i < |events| && Possible(w, events[..i]) && Grants(Run(w, events[..i]), events[i], u, grant)
  }

  /** Whoever is not a manager decides nothing. */
  lemma OnlyManagersDecide(w: World, e: Event)
    requires Enabled(w, e) && e.Decision? && Next(w, e).db != w.db
    ensures e.manager
  {
  }

  /** A step keeps the grants of a plan, or grants it anew. */
  ghost predicate GrantStep(w: World, e: Event, u: Uid)
    requires Enabled(w, e)
  {
    var grants, grants' := w.db.grants, Next(w, e).db.grants;
    && (u in grants ==> u in grants')
    && (u in grants' ==> (u in grants && grants'[u] == grants[u]) || Grants(w, e, u, grants'[u]))
  }

  /** A step changes who approved a plan only by a manager's approval, which it also records. */
  ghost predicate ApproverStep(w: World, e: Event, u: Uid)
    requires Enabled(w, e)
  {
    var rows, rows' := w.db.rows, Next(w, e).db.rows;
    u in rows' && rows'[u].approvedBy.Some? ==>
      || (u in rows && rows[u].approvedBy == rows'[u].approvedBy)
      || (&& u in Next(w, e).db.grants && Next(w, e).db.grants[u].user == rows'[u].approvedBy
          && ManagerApproves(w, e, u, rows'[u].approvedBy.value, Next(w, e).db.grants[u].at))
  }

  lemma StepAuthority(w: World, e: Event, u: Uid)
    requires WorldOk(w) && Enabled(w, e)
    ensures GrantStep(w, e, u) && ApproverStep(w, e, u)
  {
    hide Sound;
    hide Decide;
    hide Collect;
    hide Grants;
    hide ManagerApproves;
    match e
    case Request(ctx, access, call, params, newUid) =>
      match call {
        case Preview => PreviewAuthority(w, e, u);
        case Status => StatusAuthority(w, e, u);
        case RunChange => ExecuteAuthority(w, e, u);
      }
    case Decision(ctx, decision, user, manager, uids) =>
      if Next(w, e).db != w.db {
        OnlyManagersDecide(w, e);
        if decision.Approve? {
          ApproveAuthority(w, e, u);
        } else {
          RejectAuthority(w, e, u);
        }
      }
    case Cleanup(ctx, retentionDays, overdue, finished) => CleanupAuthority(w, e, u);
    case Business(store) =>
  }

  lemma PreviewAuthority(w: World, e: Event, u: Uid)
    requires WorldOk(w) && Enabled(w, e) && e.Request? && e.call.Preview?
    ensures GrantStep(w, e, u) && ApproverStep(w, e, u)
  {
    hide Sound;
    hide ChangePreview;
    hide ManagerApproves;
    PreviewInserts(w.db, e.ctx, e.access, e.params, e.newUid);
  }

  /** A preview that changes anything adds one plan, with a grant exactly if the profile approves it. */
  lemma PreviewInserts(db: Db, ctx: Context, access: nat, params: Object, newUid: Uid)
    ensures var db' := Durable(db, ChangePreview(db, ctx, access, params, newUid)).db;
            db' != db ==>
              && newUid in db'.rows && db'.rows == db.rows[newUid := db'.rows[newUid]]
              && var row := db'.rows[newUid];
                 && row.approvedBy.None? && (row.state.Pending? || row.state.Approved?)
                 && db'.grants == (if row.state.Approved? then db.grants[newUid := Grant(None, ctx.clock(0))]
                                   else db.grants)
                 && (row.state.Approved? ==>
                       && ctx.env.profile.autoApproveLowRisk && row.risk == Low
                       && (row.action == MessagePost || row.action == ActivitySchedule))
  {
    hide PlanOf;
  }

  lemma StatusAuthority(w: World, e: Event, u: Uid)
    requires Enabled(w, e) && e.Request? && e.call.Status?
    ensures GrantStep(w, e, u) && ApproverStep(w, e, u)
  {
    hide SystemWrite;
    var found := ApprovalFor(w.db, e.access, e.params);
    if found.Ok? {
      RowsKept(w.db, e.ctx, [found.value], ToExpired);
    }
  }

  lemma ExecuteAuthority(w: World, e: Event, u: Uid)
    requires Enabled(w, e) && e.Request? && e.call.RunChange?
    ensures GrantStep(w, e, u) && ApproverStep(w, e, u)
  {
    hide ChangeExecute;
    hide Execute;
    hide StreamsOk;
    hide ManagerApproves;
    ExecutionIsAtomic(w.db, e.ctx, e.access, e.params);
  }

  lemma CleanupAuthority(w: World, e: Event, u: Uid)
    requires Enabled(w, e) && e.Cleanup?
    ensures GrantStep(w, e, u) && ApproverStep(w, e, u)
  {
    hide SystemWrite;
    hide ManagerApproves;
    if Collect(w.db, e.ctx, e.overdue, e.finished).result.Ok? {
      RowsKept(w.db, e.ctx, e.overdue, ToExpired);
    }
  }

  lemma RejectAuthority(w: World, e: Event, u: Uid)
    requires Enabled(w, e) && e.Decision? && e.decision.Reject? && Next(w, e).db != w.db
    ensures GrantStep(w, e, u) && ApproverStep(w, e, u)
  {
    hide RejectFrom;
    hide ManagerApproves;
    hide Willing;
    RejectionTakesAll(w.db, e.ctx, e.user, e.uids, 0);
    RejectionRecords(w.db, e.ctx, e.user, e.uids, 0);
    assert e.uids[0..] == e.uids;
  }

  lemma ApproveAuthority(w: World, e: Event, u: Uid)
    requires WorldOk(w) && Enabled(w, e) && e.Decision? && e.decision.Approve? && e.manager && Next(w, e).db != w.db
    ensures GrantStep(w, e, u) && ApproverStep(w, e, u)
  {
    hide ApproveFrom;
    hide Sound;
    hide Approvable;
    hide Decided;
    hide ManagerApproves;
    var db, db' := w.db, Next(w, e).db;
    ApprovalRecords(db, e.ctx, e.user, e.uids, 0, u);
    assert e.uids[0..] == e.uids;
    if u in e.uids {
      StepKeeps(w, e);
      Approves(w, e, u);
      GrantOnFile(Next(w, e), u);
    } else {
      ApprovalTakesAll(db, e.ctx, e.user, e.uids, 0);
      NotDecided(db, db', e.uids, ApprovalOf(e.user, e.ctx), u);
    }
  }

  lemma NotDecided(db: Db, db': Db, uids: seq<Uid>, after: (nat, Approval) -> Approval, u: Uid)
    requires Decided(db, db', uids, 0, after) && u !in uids
    ensures (u in db'.rows <==> u in db.rows) && (u in db.rows ==> db'.rows[u] == db.rows[u])
  {
    assert uids[0..] == uids;
  }

  lemma Approves(w: World, e: Event, u: Uid)
    requires Enabled(w, e) && e.Decision? && e.decision.Approve? && e.manager && Next(w, e).db != w.db && u in e.uids
    ensures u in Next(w, e).db.rows && Next(w, e).db.rows[u].state.Approved?
    ensures Next(w, e).db.rows[u].approvedBy == Some(e.user)
    ensures forall k: nat :: k < |e.uids| && e.uids[k] == u ==> ManagerApproves(w, e, u, e.user, e.ctx.clock(2 * k))
  {
    hide ApproveFrom;
    hide Willing;
    ApprovalTakesAll(w.db, e.ctx, e.user, e.uids, 0);
  }

  lemma GrantOnFile(w: World, u: Uid)
    requires WorldOk(w) && u in w.db.rows && w.db.rows[u].state.Approved?
    ensures u in w.db.grants
  {
    assert RowOk(w.db, u);
  }

  /** A later transaction of a run, seen from before its first one. */
  lemma Later(w: World, events: seq<Event>, i: nat)
    requires events != [] && Possible(w, events) && i < |events|
    ensures Possible(w, events[..i])
    ensures 0 < i ==> Possible(Next(w, events[0]), events[1..][..i - 1])
                      && Run(w, events[..i]) == Run(Next(w, events[0]), events[1..][..i - 1])
  {
    hide Next;
    hide Enabled;
    if 0 < i {
      assert events[..i][1..] == events[1..][..i - 1];
      PrefixPossible(Next(w, events[0]), events[1..], i - 1);
    }
  }

  lemma {:induction false} PrefixPossible(w: World, events: seq<Event>, i: nat)
    requires Possible(w, events) && i <= |events|
    ensures Possible(w, events[..i])
    decreases i
  {
    hide Next;
    hide Enabled;
    if 0 < i {
      assert events[..i][1..] == events[1..][..i - 1];
      PrefixPossible(Next(w, events[0]), events[1..], i - 1);
    }
  }

  lemma AuthorizedLater(w: World, events: seq<Event>, u: Uid, grant: Grant)
    requires events != [] && Possible(w, events) && Authorized(Next(w, events[0]), events[1..], u, grant)
    ensures Authorized(w, events, u, grant)
  {
    hide Next;
    hide Enabled;
    hide Run;
    hide Grants;
    var next, rest := Next(w, events[0]), events[1..];
    var i: nat :| i < |rest| && Possible(next, rest[..i]) && Grants(Run(next, rest[..i]), rest[i], u, grant);
    Later(w, events, i + 1);
  }

  lemma AuthorizedFirst(w: World, events: seq<Event>, u: Uid, grant: Grant)
    requires events != [] && Grants(w, events[0], u, grant)
    ensures Authorized(w, events, u, grant)
  {
    hide Grants;
    assert events[..0] == [];
    assert Run(w, events[..0]) == w;
  }

  /** Every grant on record was there before or was given by one transaction of the run. */
  lemma {:induction false} EveryGrantIsAuthorized(w: World, events: seq<Event>, u: Uid)
    requires WorldOk(w) && Possible(w, events) && u in Run(w, events).db.grants
    ensures var grant := Run(w, events).db.grants[u];
            (u in w.db.grants && w.db.grants[u] == grant) || Authorized(w, events, u, grant)
    decreases |events|
  {
    hide Sound;
    hide Next;
    hide Enabled;
    hide Grants;
    hide Authorized;
    if events != [] {
      var next, grant := Next(w, events[0]), Run(w, events).db.grants[u];
      StepKeeps(w, events[0]);
      StepAuthority(w, events[0], u);
      EveryGrantIsAuthorized(next, events[1..], u);
      if u in next.db.grants && next.db.grants[u] == grant {
        if Grants(w, events[0], u, grant) {
          AuthorizedFirst(w, events, u, grant);
        }
      } else {
        AuthorizedLater(w, events, u, grant);
      }
    }
  }

  /** Nobody will grant the plan any more: it is decided or forgotten. */
  predicate Settled(db: Db, u: Uid) {
    u in db.issued && (u in db.rows ==> !db.rows[u].state.Pending?)
  }

  lemma SettledStays(w: World, e: Event, u: Uid)
    requires WorldOk(w) && Enabled(w, e) && Settled(w.db, u) && u in w.db.grants
    ensures var db' := Next(w, e).db; Settled(db', u) && u in db'.grants && db'.grants[u] == w.db.grants[u]
  {
    hide Sound;
    hide Next;
    hide Enabled;
    StepKeeps(w, e);
    StepAuthority(w, e, u);
  }

  lemma {:induction false} GrantsStay(w: World, events: seq<Event>, u: Uid)
    requires WorldOk(w) && Possible(w, events) && Settled(w.db, u) && u in w.db.grants
    ensures u in Run(w, events).db.grants && Run(w, events).db.grants[u] == w.db.grants[u]
    decreases |events|
  {
    hide Sound;
    hide Next;
    hide Enabled;
    hide Settled;
    hide Follows;
    if events != [] {
      StepKeeps(w, events[0]);
      SettledStays(w, events[0], u);
      GrantsStay(Next(w, events[0]), events[1..], u);
    }
  }

  /** Whoever a plan names as its approver, unless it already did, is a manager who decided on a
      selection with that plan, during the run; the reading of the clock that found the plan in time
      is the one on record. */
  lemma {:induction false} ApprovedByAManager(w: World, events: seq<Event>, u: Uid, manager: nat)
    requires WorldOk(w) && Possible(w, events)
    requires u in Run(w, events).db.rows && Run(w, events).db.rows[u].approvedBy == Some(manager)
    requires u in w.db.rows ==> w.db.rows[u].approvedBy != Some(manager)
    ensures var db := Run(w, events).db;
            && u in db.grants && db.grants[u].user == Some(manager) && Authorized(w, events, u, db.grants[u])
    decreases |events|
  {
    hide Sound;
    hide Next;
    hide Enabled;
    hide Authorized;
    hide ManagerApproves;
    hide Follows;
    var next, rest := Next(w, events[0]), events[1..];
    StepKeeps(w, events[0]);
    StepAuthority(w, events[0], u);
    if u in next.db.rows && next.db.rows[u].approvedBy == Some(manager) {
      SettledBy(w, events[0], u, manager);
      GrantsStay(next, rest, u);
      AuthorizedFirst(w, events, u, next.db.grants[u]);
    } else {
      ApprovedByAManager(next, rest, u, manager);
      AuthorizedLater(w, events, u, Run(w, events).db.grants[u]);
    }
  }

  lemma SettledBy(w: World, e: Event, u: Uid, manager: nat)
    requires WorldOk(w) && Enabled(w, e) && u in Next(w, e).db.grants
    requires ManagerApproves(w, e, u, manager, Next(w, e).db.grants[u].at)
    ensures Settled(Next(w, e).db, u)
  {
    hide Next;
    hide Enabled;
    hide Sound;
    StepKeeps(w, e);
    SoundInv(Next(w, e).db, Next(w, e).now, Next(w, e).now);
    IssuedRow(Next(w, e).db, u);
  }

  /** A plan that was made during the run and is approved, or executed, without naming a manager was
      made by a preview under a profile that opted in. */
  lemma ApprovedByTheProfile(w: World, events: seq<Event>, u: Uid)
    requires WorldOk(w) && Possible(w, events) && u !in w.db.issued && u in Run(w, events).db.rows
    requires var row := Run(w, events).db.rows[u]; row.approvedBy.None? && (row.state.Approved? || row.state.Executed?)
    ensures u in Run(w, events).db.grants
    ensures exists i: nat :: i < |events| && Possible(w, events[..i])
                             && ProfileApproves(Run(w, events[..i]), events[i], u, Run(w, events).db.grants[u].at)
  {
    hide Run;
    hide Possible;
    hide ProfileApproves;
    RunKeeps(w, events);
    EveryGrantIsAuthorized(w, events, u);
    assert RowOk(Run(w, events).db, u);
  }
}
