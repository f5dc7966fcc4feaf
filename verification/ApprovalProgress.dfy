/** How a plan gets from its preview to its effect, with any other transactions in between. */
module ApprovalProgress {
  import opened Wrappers
  import opened Json
  import opened Actions
  import opened Approvals
  import opened ApprovalSteps
  import opened ApprovalDecisions
  import opened ApprovalRuns
  import opened ApprovalAuthority
  import opened Previews

  /** The transaction leaves plan u waiting: it is neither a manager's decision on it nor a request to
      execute it, and does not find it past its expiry. */
  ghost predicate Spares(e: Event, u: Uid, expiresAt: int) {
    match e
    case Request(ctx, access, call, params, newUid) =>
      ctx.clock(0) < expiresAt && !(call.RunChange? && Get(params, "approval_id") == Str(u))
    case Decision(ctx, decision, user, manager, uids) => !manager || u !in uids
    case Cleanup(ctx, retentionDays, overdue, finished) => ctx.clock(0) <= expiresAt
    case Business(store) => true
  }

  ghost predicate Waiting(db: Db, u: Uid) {
    u in db.rows && (db.rows[u].state.Pending? || db.rows[u].state.Approved?)
  }

  lemma RequestSpares(w: World, e: Event, u: Uid)
    requires WorldOk(w) && Enabled(w, e) && e.Request?
    requires Waiting(w.db, u) && Spares(e, u, w.db.rows[u].expiresAt)
    ensures u in Next(w, e).db.rows && Next(w, e).db.rows[u] == w.db.rows[u]
  {
    hide ChangePreview;
    hide ChangeExecute;
    hide SystemWrite;
    hide Execute;
    hide Sound;
    hide StreamsOk;
    match e.call
    case Preview =>
      PreviewInserts(w.db, e.ctx, e.access, e.params, e.newUid);
      Issued(w);
    case Status =>
      var found := ApprovalFor(w.db, e.access, e.params);
      if found.Ok? {
        RowsKept(w.db, e.ctx, [found.value], ToExpired);
      }
    case RunChange => ExecutionIsAtomic(w.db, e.ctx, e.access, e.params);
  }

  lemma DecisionSpares(w: World, e: Event, u: Uid)
    requires Enabled(w, e) && e.Decision? && u in w.db.rows && (!e.manager || u !in e.uids)
    ensures u in Next(w, e).db.rows && Next(w, e).db.rows[u] == w.db.rows[u]
  {
    hide ApproveFrom;
    hide RejectFrom;
    hide Approvable;
    hide Rejectable;
    hide Willing;
    ApprovalTakesAll(w.db, e.ctx, e.user, e.uids, 0);
    RejectionTakesAll(w.db, e.ctx, e.user, e.uids, 0);
    assert e.uids[0..] == e.uids;
  }

  lemma CleanupSpares(w: World, e: Event, u: Uid)
    requires Enabled(w, e) && e.Cleanup? && Waiting(w.db, u) && Spares(e, u, w.db.rows[u].expiresAt)
    ensures u in Next(w, e).db.rows && Next(w, e).db.rows[u] == w.db.rows[u]
  {
    hide SystemWrite;
    if Collect(w.db, e.ctx, e.overdue, e.finished).result.Ok? {
      RowsKept(w.db, e.ctx, e.overdue, ToExpired);
    }
  }

  lemma StepSpares(w: World, e: Event, u: Uid)
    requires WorldOk(w) && Enabled(w, e) && Waiting(w.db, u) && Spares(e, u, w.db.rows[u].expiresAt)
    ensures u in Next(w, e).db.rows && Next(w, e).db.rows[u] == w.db.rows[u]
  {
    hide Sound;
    hide Dispatch;
    hide Decide;
    hide Collect;
    match e
    case Request(ctx, access, call, params, newUid) => RequestSpares(w, e, u);
    case Decision(ctx, decision, user, manager, uids) => DecisionSpares(w, e, u);
    case Cleanup(ctx, retentionDays, overdue, finished) => CleanupSpares(w, e, u);
    case Business(store) =>
  }

  /** A plan that waits for a decision, or for its execution, does so unchanged until a manager decides
      on it, a request asks for its execution, or something finds it past its expiry. */
  lemma {:induction false} PlansWait(w: World, events: seq<Event>, u: Uid)
    requires WorldOk(w) && Possible(w, events) && Waiting(w.db, u)
    requires forall e :: e in events ==> Spares(e, u, w.db.rows[u].expiresAt)
    ensures u in Run(w, events).db.rows && Run(w, events).db.rows[u] == w.db.rows[u]
    decreases |events|
  {
    hide Sound;
    hide Next;
    hide Enabled;
    hide Spares;
    hide Follows;
    if events != [] {
      StepSpares(w, events[0], u);
      StepKeeps(w, events[0]);
      PlansWait(Next(w, events[0]), events[1..], u);
    }
  }

  /** The plan of a first preview: its normal form, waiting for a manager or approved by the profile. */
  lemma FirstPreview(w: World, e: Event)
    requires WorldOk(w) && Enabled(w, e) && e.Request? && e.call.Preview? && PlanOf(e.ctx.env, w.db.store, e.params).Ok?
    requires (e.access, PlanOf(e.ctx.env, w.db.store, e.params).value.key) !in w.db.keys
    ensures var plan, db' := PlanOf(e.ctx.env, w.db.store, e.params).value, Next(w, e).db;
            && db'.rows == w.db.rows[e.newUid := NewApproval(e.ctx, e.access, plan)]
            && db'.store == w.db.store && db'.journal == w.db.journal
  {
    hide PlanOf;
    hide Inv;
    hide StreamsOk;
    SoundInv(w.db, w.now, w.now);
    Issued(w);
  }

  /** A manager's approval of a selection of pending plans that are in time. */
  lemma TimelyApproval(w: World, e: Event, u: Uid)
    requires WorldOk(w) && Enabled(w, e) && e.Decision? && e.decision.Approve? && e.manager
    requires Willing(e.ctx) && Approvable(w.db, e.ctx, e.uids, 0) && u in e.uids
    ensures var db' := Next(w, e).db;
            && u in w.db.rows && u in db'.rows && db'.rows[u].state.Approved? && db'.rows[u].approvedBy == Some(e.user)
            && db'.rows[u].expiresAt == w.db.rows[u].expiresAt
            && db'.store == w.db.store && db'.journal == w.db.journal
  {
    hide ApproveFrom;
    hide Willing;
    hide Sound;
    hide Follows;
    hide Approvable;
    hide Decided;
    ApprovalTakesAll(w.db, e.ctx, e.user, e.uids, 0);
    DecidedRow(w.db, Next(w, e).db, e.ctx, e.user, e.uids, u);
    SoundLater(w.db, w.now, w.now, e.ctx.began, e.ctx.ended);
    DecideKeeps(w.db, e.ctx, e.decision, e.user, e.manager, e.uids);
  }

  lemma DecidedRow(db: Db, db': Db, ctx: Context, user: nat, uids: seq<Uid>, u: Uid)
    requires Decided(db, db', uids, 0, ApprovalOf(user, ctx)) && u in uids
    ensures u in db.rows && u in db'.rows && db'.rows[u].state.Approved? && db'.rows[u].approvedBy == Some(user)
    ensures db'.rows[u].expiresAt == db.rows[u].expiresAt
  {
  }

  /** If executing the planned request succeeds, it does what the client asked for by name. */
  lemma AskedIsDone(env: Env, store: Store, params: Object)
    requires PlanOf(env, store, params).Ok?
    ensures var plan := PlanOf(env, store, params).value;
            && Asks(params, plan.action)
            && var r := Execute(env, store, plan.action, Get(params, "payload").fields);
               r.result.Ok? ==>
                 Done(env, store, params["action"].s, params["payload"].fields, r.store, r.result.value)
  {
    hide Execute;
    hide Done;
    var plan := PlanOf(env, store, params).value;
    PlansExactly(env, store, params, plan);
    hide PlanOf;
    if Execute(env, store, plan.action, Get(params, "payload").fields).result.Ok? {
      DoneAsAsked(env, store, plan.action, Get(params, "payload").fields);
    }
  }

  lemma PlannedIsExecuted(env: Env, store: Store, params: Object)
    requires PlanOf(env, store, params).Ok?
    ensures var plan := PlanOf(env, store, params).value;
            && Get(params, "payload").Obj?
            && Execute(env, store, plan.action, plan.prepared.normalized)
               == Execute(env, store, plan.action, Get(params, "payload").fields)
  {
    hide Prepare;
    hide Execute;
    ApprovedIsExecuted(env, store, PlanOf(env, store, params).value.action, Get(params, "payload").fields);
  }

  /** The execution of an approved, intact plan that is in time: its effect if its action succeeds,
      and nothing if it fails. */
  lemma TimelyExecution(w: World, e: Event, uid: Uid)
    requires Enabled(w, e) && e.Request? && e.call.RunChange? && Willing(e.ctx) && |uid| <= 64
    requires Get(e.params, "approval_id") == Str(uid) && uid in w.db.rows
    requires var row := w.db.rows[uid];
             row.access == e.access && row.state.Approved? && row.hash == Digest(row.payload)
             && e.ctx.clock(0) < row.expiresAt
    ensures var row, db' := w.db.rows[uid], Next(w, e).db;
            var attempt := Execute(e.ctx.env, w.db.store, row.action, row.payload);
            if attempt.result.Err? then db' == w.db
            else
              && db'.store == attempt.store && uid in db'.rows
              && db'.rows[uid] == row.(state := Executed, executedAt := Some(e.ctx.clock(1)),
                                       result := Some(attempt.result.value), error := None)
              && db'.journal == w.db.journal + [Applied(uid, e.ctx.clock(0), attempt.result.value)]
  {
    hide Execute;
    hide ChangeExecute;
    hide Enabled;
    hide StreamsOk;
    ExecutesExactlyWhen(w.db, e.ctx, e.access, e.params);
  }

  /** An execution request for the plan, in time, by the plan's access, with a willing bus, under the
      policy and the data of the preview. */
  ghost predicate RunsPlan(w: World, preview: Event, wl: World, run: Event) {
    && preview.Request? && preview.call.Preview? && Enabled(wl, run)
    && run.Request? && run.call.RunChange? && run.access == preview.access
    && Get(run.params, "approval_id") == Str(preview.newUid) && |preview.newUid| <= 64
    && run.ctx.env == preview.ctx.env && wl.db.store == w.db.store && Willing(run.ctx)
    && run.ctx.clock(0) < preview.ctx.clock(0) + 60 * preview.ctx.env.profile.approvalTtlMinutes
  }

  /** What the execution of a plan must do: what executing the previewed request itself would do, and
      so what the action that the client asked for by name does with the client's payload. */
  ghost predicate RunsAsPreviewed(w: World, preview: Event, wl: World, run: Event)
    requires preview.Request? && PlanOf(preview.ctx.env, w.db.store, preview.params).Ok?
    requires Enabled(wl, run) && run.Request?
  {
    var plan := PlanOf(preview.ctx.env, w.db.store, preview.params).value;
    var attempt := Execute(preview.ctx.env, w.db.store, plan.action, Get(preview.params, "payload").fields);
    var db' := Next(wl, run).db;
    if attempt.result.Err? then db' == wl.db
    else
      && db'.store == attempt.store && preview.newUid in db'.rows && db'.rows[preview.newUid].state.Executed?
      && db'.rows[preview.newUid].result == Some(attempt.result.value)
      && db'.journal == wl.db.journal + [Applied(preview.newUid, run.ctx.clock(0), attempt.result.value)]
      && Asks(preview.params, plan.action)
      && Done(preview.ctx.env, w.db.store, preview.params["action"].s, preview.params["payload"].fields,
              db'.store, attempt.result.value)
  }

  /** Whatever happened since its preview, a plan that stands approved, by a manager or by the profile,
      does exactly what executing the previewed request would do. */
  lemma ApprovedPlansRun(w: World, preview: Event, events: seq<Event>, run: Event)
    requires WorldOk(w) && Enabled(w, preview) && preview.Request? && preview.call.Preview?
    requires PlanOf(preview.ctx.env, w.db.store, preview.params).Ok?
    requires (preview.access, PlanOf(preview.ctx.env, w.db.store, preview.params).value.key) !in w.db.keys
    requires Possible(Next(w, preview), events) && RunsPlan(w, preview, Run(Next(w, preview), events), run)
    requires var rows := Run(Next(w, preview), events).db.rows;
             preview.newUid in rows && rows[preview.newUid].state.Approved?
    ensures RunsAsPreviewed(w, preview, Run(Next(w, preview), events), run)
  {
    hide PlanOf;
    hide Next;
    hide Enabled;
    hide Possible;
    hide Run;
    hide Sound;
    hide Willing;
    hide Execute;
    hide Inv;
    var u, plan := preview.newUid, PlanOf(preview.ctx.env, w.db.store, preview.params).value;
    FirstPreview(w, preview);
    StepKeeps(w, preview);
    RunKeeps(Next(w, preview), events);
    var wl := Run(Next(w, preview), events);
    assert Legal(Next(w, preview).db.rows[u], wl.db.rows[u]);
    PlannedIsExecuted(preview.ctx.env, w.db.store, preview.params);
    TimelyExecution(wl, run, u);
    AskedIsDone(preview.ctx.env, w.db.store, preview.params);
    hide Done;
    hide Asks;
  }

  /** The way through: a previewed plan that a manager approves in time, alone or in a selection, and
      that the client then has executed in time, does exactly what executing the previewed request
      would do, whatever else happened between: other requests, decisions on other plans, cleanups and
      edits of business records that have been undone by then. */
  lemma PlansRunThrough(w: World, preview: Event, early: seq<Event>, approve: Event, late: seq<Event>, run: Event)
    requires WorldOk(w) && Enabled(w, preview) && preview.Request? && preview.call.Preview?
    requires PlanOf(preview.ctx.env, w.db.store, preview.params).Ok?
    requires var plan := PlanOf(preview.ctx.env, w.db.store, preview.params).value;
             (preview.access, plan.key) !in w.db.keys && !AutoApproved(preview.ctx.env.profile, plan)
    requires Possible(Next(w, preview), early + [approve] + late)
    requires var expiresAt := preview.ctx.clock(0) + 60 * preview.ctx.env.profile.approvalTtlMinutes;
             forall e :: e in early || e in late ==> Spares(e, preview.newUid, expiresAt)
    requires Possible(Next(w, preview), early)
    requires approve.Decision? && approve.decision.Approve? && approve.manager && Willing(approve.ctx)
    requires preview.newUid in approve.uids && Approvable(Run(Next(w, preview), early).db, approve.ctx, approve.uids, 0)
    requires RunsPlan(w, preview, Run(Next(w, preview), early + [approve] + late), run)
    ensures RunsAsPreviewed(w, preview, Run(Next(w, preview), early + [approve] + late), run)
  {
    hide PlanOf;
    hide Next;
    hide Enabled;
    hide Sound;
    hide Willing;
    hide Execute;
    hide Inv;
    hide Approvable;
    hide Spares;
    var u, first := preview.newUid, Next(w, preview);
    FirstPreview(w, preview);
    StepKeeps(w, preview);
    RunJoin(first, early, [approve] + late);
    assert early + ([approve] + late) == early + [approve] + late;
    PlansWait(first, early, u);
    RunKeeps(first, early);
    var wa := Run(first, early);
    assert ([approve] + late)[1..] == late;
    TimelyApproval(wa, approve, u);
    StepKeeps(wa, approve);
    PlansWait(Next(wa, approve), late, u);
    ApprovedPlansRun(w, preview, early + [approve] + late, run);
  }

  lemma {:induction false} RunJoin(w: World, a: seq<Event>, b: seq<Event>)
    ensures Possible(w, a + b) <==> Possible(w, a) && Possible(Run(w, a), b)
    ensures Possible(w, a + b) ==> Run(w, a + b) == Run(Run(w, a), b)
    decreases |a|
  {
    hide Next;
    hide Enabled;
    if a == [] {
      assert a + b == b;
    } else if Enabled(w, a[0]) {
      assert (a + b)[1..] == a[1..] + b;
      RunJoin(Next(w, a[0]), a[1..], b);
    }
  }
}
