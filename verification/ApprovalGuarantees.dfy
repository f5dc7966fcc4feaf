/** What the approval workflow promises over whole runs. */
module ApprovalGuarantees {
  import opened Wrappers
  import opened Json
  import opened Policies
  import opened Actions
  import opened Approvals
  import opened ApprovalSteps
  import opened ApprovalRuns
  import opened ApprovalAuthority
  import opened Previews

  lemma InitialOk(store: Store, now: int)
    ensures WorldOk(Initial(store, now))
  {
    var db := Initial(store, now).db;
    forall access: nat
      ensures StreamOk(db, access)
    {
      assert Stream([], access) == [];
    }
  }

  /** In every reachable database: no plan ever had two effects, and each had its effect after one
      transaction of the run approved it, by a manager's decision or under a profile that opted in; a
      plan that is still on file has had its effect exactly when it is executed, and then it was
      approved so, in time, and run later but still in time; no failed and no executing plan is on
      file; and every access numbered its events 1, 2, 3, ... */
  lemma EveryRunIsSafe(store: Store, now: int, events: seq<Event>)
    requires Possible(Initial(store, now), events)
    ensures var w := Initial(store, now);
            var db := Run(w, events).db;
            && AtMostOnce(db.journal)
            && (forall j :: 0 <= j < |db.journal| ==> SafeEffect(w, events, db, db.journal[j]))
            && (forall u :: u in db.rows ==> SafePlan(w, events, db, u, db.rows[u]))
            && (forall access: nat :: StreamOk(db, access))
  {
    var w := Initial(store, now);
    var db := Run(w, events).db;
    hide Run;
    hide Initial;
    hide StreamOk;
    hide Authorized;
    hide SafePlan;
    hide SafeEffect;
    InitialOk(store, now);
    RunKeeps(w, events);
    forall u | u in db.grants
      ensures Authorized(w, events, u, db.grants[u])
    {
      EveryGrantIsAuthorized(w, events, u);
      NoGrantsYet(store, now);
    }
    forall u | u in db.rows
      ensures SafePlan(w, events, db, u, db.rows[u])
    {
      SafeRow(w, events, db, u);
    }
    forall j | 0 <= j < |db.journal|
      ensures SafeEffect(w, events, db, db.journal[j])
    {
      SafeEntry(w, events, db, j);
    }
  }

  lemma NoGrantsYet(store: Store, now: int)
    ensures Initial(store, now).db.grants == map[]
  {
  }

  ghost predicate SafePlan(w: World, events: seq<Event>, db: Db, u: Uid, row: Approval) {
    && !row.state.Executing? && !row.state.Failed?
    && (row.state.Executed? <==> Journaled(db, u))
    && (row.state.Approved? || row.state.Executed? ==> Allowed(db, u, row) && Authorized(w, events, u, db.grants[u]))
    && (forall j :: 0 <= j < |db.journal| && db.journal[j].uid == u ==>
          && row.createdAt <= db.grants[u].at <= db.journal[j].at < row.expiresAt
          && row.result == Some(db.journal[j].effect))
  }

  /** An effect came after a grant, whether or not its plan is still on file. */
  ghost predicate SafeEffect(w: World, events: seq<Event>, db: Db, a: Applied) {
    a.uid in db.grants && db.grants[a.uid].at <= a.at && Authorized(w, events, a.uid, db.grants[a.uid])
  }

  lemma SafeEntry(w: World, events: seq<Event>, db: Db, j: nat)
    requires Inv(db) && j < |db.journal|
    requires forall u :: u in db.grants ==> Authorized(w, events, u, db.grants[u])
    ensures SafeEffect(w, events, db, db.journal[j])
  {
    hide Authorized;
    hide RowOk;
    hide KeyOk;
    assert EntryOk(db, db.journal[j]);
  }

  lemma SafeRow(w: World, events: seq<Event>, db: Db, u: Uid)
    requires Inv(db) && u in db.rows
    requires forall u :: u in db.grants ==> Authorized(w, events, u, db.grants[u])
    ensures SafePlan(w, events, db, u, db.rows[u])
  {
    hide Authorized;
    assert RowOk(db, u);
    forall j | 0 <= j < |db.journal| && db.journal[j].uid == u
      ensures var row := db.rows[u];
              && row.createdAt <= db.grants[u].at <= db.journal[j].at < row.expiresAt
              && row.result == Some(db.journal[j].effect)
    {
      assert EntryOk(db, db.journal[j]);
      assert Journaled(db, u);
    }
  }

  /** Between two moments of a run, a plan never returns to pending, an executed or expired one
      stays as it is, and what was to be done never changes. */
  lemma NoWayBack(w: World, events: seq<Event>, u: Uid)
    requires WorldOk(w) && Possible(w, events)
    requires u in w.db.rows && u in Run(w, events).db.rows
    ensures var a, b := w.db.rows[u], Run(w, events).db.rows[u];
            && (b.state.Pending? ==> a == b)
            && (a.state.Executed? || a.state.Expired? ==> a == b)
            && (a.state.Rejected? ==> b.state.Rejected? || b.state.Expired?)
            && (b.access, b.action, b.payload, b.hash, b.key, b.expiresAt)
               == (a.access, a.action, a.payload, a.hash, a.key, a.expiresAt)
  {
    hide Run;
    hide Possible;
    hide Inv;
    hide StreamsOk;
    hide TimesOk;
    RunKeeps(w, events);
    assert Legal(w.db.rows[u], Run(w, events).db.rows[u]);
    StatesLeft(w.db, Run(w, events).db, u);
  }

  lemma StatesLeft(db: Db, db': Db, u: Uid)
    requires Inv(db') && u in db.rows && u in db'.rows && Legal(db.rows[u], db'.rows[u])
    ensures db.rows[u].state.Rejected? ==> db'.rows[u].state.Rejected? || db'.rows[u].state.Expired?
  {
    assert RowOk(db', u);
  }

  /** A rejected or expired plan has no effect, in any future. */
  lemma DeadPlansNeverRun(w: World, events: seq<Event>, u: Uid)
    requires WorldOk(w) && Possible(w, events)
    requires u in w.db.rows && (w.db.rows[u].state.Rejected? || w.db.rows[u].state.Expired?)
    ensures !Journaled(Run(w, events).db, u)
  {
    assert RowOk(w.db, u);
    StillDead(w, events, u);
  }

  /** Had no effect, and cannot get one: forgotten, rejected or expired. */
  ghost predicate Dead(db: Db, u: Uid) {
    && u in db.issued && !Journaled(db, u)
    && (u in db.rows ==> db.rows[u].state.Rejected? || db.rows[u].state.Expired?)
  }

  lemma {:induction false} StillDead(w: World, events: seq<Event>, u: Uid)
    requires WorldOk(w) && Possible(w, events) && Dead(w.db, u)
    ensures Dead(Run(w, events).db, u)
    decreases |events|
  {
    if events != [] {
      DeadStep(w, events[0], u);
      StepKeeps(w, events[0]);
      StillDead(Next(w, events[0]), events[1..], u);
    }
  }

  lemma DeadStep(w: World, e: Event, u: Uid)
    requires WorldOk(w) && Enabled(w, e) && Dead(w.db, u)
    ensures Dead(Next(w, e).db, u)
  {
    var db, db' := w.db, Next(w, e).db;
    StepKeeps(w, e);
    hide Next;
    hide Enabled;
    hide Sound;
    hide Follows;
    hide Committed;
    SoundInv(db', Next(w, e).now, Next(w, e).now);
    if e.Business? {
      BusinessJournal(w, e);
    } else if !Quiet(db, db') {
      var uid :| Executes(w, e, uid);
      CommittedOther(db, e.ctx, uid, db', u);
    }
    DeadFollows(db, db', u);
  }

  lemma DeadFollows(db: Db, db': Db, u: Uid)
    requires Inv(db') && Follows(db, db') && Dead(db, u)
    requires db'.journal == db.journal || !Journaled(db', u)
    ensures Dead(db', u)
  {
    assert Journaled(db', u) ==> db'.journal != db.journal;
    if u in db'.rows {
      assert u in db.rows;
      StatesLeft(db, db', u);
    }
  }

  lemma BusinessJournal(w: World, e: Event)
    requires Enabled(w, e) && e.Business?
    ensures Next(w, e).db.journal == w.db.journal
  {
  }

  lemma CommittedOther(db: Db, ctx: Context, uid: Uid, db': Db, u: Uid)
    requires Committed(db, ctx, uid, db') && Dead(db, u)
    ensures !Journaled(db', u)
  {
    hide Execute;
    hide StreamsOk;
  }

  /** Once a request has executed a plan, no later request of the run executes it again. */
  lemma ExecutedOnlyOnce(w: World, e: Event, u: Uid, events: seq<Event>, e': Event)
    requires WorldOk(w) && Executes(w, e, u) && Possible(Next(w, e), events)
    ensures !Executes(Run(Next(w, e), events), e', u)
  {
    hide Next;
    hide Run;
    hide Possible;
    hide Committed;
    StepKeeps(w, e);
    var db, later := Next(w, e).db, Run(Next(w, e), events).db;
    RunKeeps(Next(w, e), events);
    CommitIsJournaled(w.db, e.ctx, u, db);
    var j :| 0 <= j < |db.journal| && db.journal[j].uid == u;
    assert later.journal[j] == db.journal[j];
    assert Journaled(later, u);
    JournaledNotApproved(later, e', u);
  }

  lemma JournaledNotApproved(db: Db, e: Event, u: Uid)
    requires Inv(db) && Journaled(db, u)
    ensures forall now :: !Executes(World(db, now), e, u)
  {
    hide Execute;
    hide Next;
    hide Enabled;
    if u in db.rows {
      assert RowOk(db, u);
    }
  }

  lemma CommitIsJournaled(db: Db, ctx: Context, uid: Uid, db': Db)
    requires Committed(db, ctx, uid, db')
    ensures Journaled(db', uid)
  {
    hide Execute;
    hide StreamsOk;
    assert db'.journal[|db.journal|].uid == uid;
  }

  /** Business records change under the connector in one way only: a request executes an approved
      plan, in time, within the policy of that moment, and the change is confined to what that plan's
      payload says. */
  lemma StoreChangesAreConfined(w: World, e: Event)
    requires WorldOk(w) && Enabled(w, e) && !e.Business?
    requires Next(w, e).db.store != w.db.store || Next(w, e).db.journal != w.db.journal
    ensures exists uid :: Executes(w, e, uid) && ConfinedTo(w.db, e.ctx, uid, Next(w, e).db)
  {
    StepKeeps(w, e);
    var uid :| Executes(w, e, uid);
    CommitConfined(w.db, e.ctx, uid, Next(w, e).db);
  }

  /** One plan, approved before and executed after, whose payload bounds the change. */
  ghost predicate ConfinedTo(db: Db, ctx: Context, uid: Uid, db': Db) {
    && uid in db.rows && uid in db'.rows && db.rows[uid].state.Approved? && db'.rows[uid].state.Executed?
    && ctx.clock(0) < db.rows[uid].expiresAt
    && |db'.journal| == |db.journal| + 1 && db'.journal[|db.journal|].uid == uid
    && var row := db.rows[uid];
       && WithinPolicy(ctx.env, row.action, row.payload)
       && Confined(ctx.env, db.store, row.action, row.payload, db'.store, db'.journal[|db.journal|].effect)
  }

  lemma CommitConfined(db: Db, ctx: Context, uid: Uid, db': Db)
    requires Committed(db, ctx, uid, db')
    ensures ConfinedTo(db, ctx, uid, db')
  {
    hide Execute;
    hide StreamsOk;
    hide Confined;
    hide WithinPolicy;
    ExecutedWithinPolicy(ctx.env, db.store, db.rows[uid].action, db.rows[uid].payload);
    ExecuteConfined(ctx.env, db.store, db.rows[uid].action, db.rows[uid].payload);
  }

  /** No committed create or update names a field that the policy of that moment does not open. */
  lemma CommittedFieldsAreOpen(w: World, e: Event, uid: Uid, value: Json, name: string)
    requires Executes(w, e, uid)
    requires var row := w.db.rows[uid];
             value in WrittenValues(row.action, row.payload) && value.Obj? && name in value.fields
    ensures var row, db' := w.db.rows[uid], Next(w, e).db;
            && |db'.journal| == |w.db.journal| + 1
            && FieldConfined(e.ctx.env, db'.journal[|w.db.journal|].effect.model,
                             if row.action == RecordCreate then Create else Write, name)
  {
    hide Execute;
    hide StreamsOk;
    hide Next;
    hide Enabled;
    hide FieldConfined;
    var row := w.db.rows[uid];
    ExecutedFields(e.ctx.env, w.db.store, row.action, row.payload, value, name);
  }

  /** What a preview must do when its key is taken: repeat the plan it denotes, or refuse. */
  ghost predicate Repeats(db: Db, plan: Plan, uid: Uid, out: Out<View>) {
    && out.db == db && uid in db.rows
    && if db.rows[uid].payload == plan.prepared.normalized
       then out.result.Ok? && Shows(out.result.value, uid, db.rows[uid]) && db.rows[uid].action == plan.action
       else out.result == Err(CONFLICT)
  }

  /** One key of one access denotes at most one plan: a preview with a key that is taken changes
      nothing, and one with a free key adds one plan. */
  lemma PreviewIsIdempotent(w: World, ctx: Context, access: nat, params: Object, newUid: Uid)
    requires WorldOk(w) && PlanOf(ctx.env, w.db.store, params).Ok? && newUid !in w.db.issued
    ensures var plan := PlanOf(ctx.env, w.db.store, params).value;
            var out := ChangePreview(w.db, ctx, access, params, newUid);
            && (forall u :: u in w.db.rows && w.db.rows[u].access == access && w.db.rows[u].key == plan.key
                  ==> Repeats(w.db, plan, u, out))
            && ((forall u :: u in w.db.rows ==> (w.db.rows[u].access, w.db.rows[u].key) != (access, plan.key))
                  ==> out.result.Ok? && out.db.rows == w.db.rows[newUid := NewApproval(ctx, access, plan)])
  {
    hide PlanOf;
    hide StreamsOk;
    var plan := PlanOf(ctx.env, w.db.store, params).value;
    PlanKeys(ctx.env, w.db.store, params);
    forall u | u in w.db.rows && w.db.rows[u].access == access && w.db.rows[u].key == plan.key
      ensures Repeats(w.db, plan, u, ChangePreview(w.db, ctx, access, params, newUid))
    {
      TakenKey(w.db, ctx, access, params, newUid, plan, u);
    }
    if forall u :: u in w.db.rows ==> (w.db.rows[u].access, w.db.rows[u].key) != (access, plan.key) {
      FreeKey(w, access, plan.key, newUid);
    }
  }

  lemma FreeKey(w: World, access: nat, key: string, newUid: Uid)
    requires WorldOk(w) && newUid !in w.db.issued
    requires forall u :: u in w.db.rows ==> (w.db.rows[u].access, w.db.rows[u].key) != (access, key)
    ensures (access, key) !in w.db.keys && newUid !in w.db.rows
  {
    Issued(w);
    forall k | k in w.db.keys
      ensures k != (access, key)
    {
      assert KeyOk(w.db, k);
    }
  }

  lemma TakenKey(db: Db, ctx: Context, access: nat, params: Object, newUid: Uid, plan: Plan, u: Uid)
    requires Inv(db) && PlanOf(ctx.env, db.store, params) == Ok(plan)
    requires plan.prepared.normalized.Keys == NormalKeys(plan.action)
    requires u in db.rows && db.rows[u].access == access && db.rows[u].key == plan.key
    ensures Repeats(db, plan, u, ChangePreview(db, ctx, access, params, newUid))
  {
    hide PlanOf;
    hide NormalKeys;
    hide EntryOk;
    hide KeyOk;
    assert RowOk(db, u);
    if db.rows[u].payload == plan.prepared.normalized {
      KeysTellActions(db.rows[u].action, plan.action);
    }
  }

  /** A client may repeat a preview at any later time: while its plan is on file, an equal normal
      form returns that plan, adds no row and asks for the same action, and any other is a conflict. */
  lemma RepeatedPreview(w: World, e: Event, events: seq<Event>, ctx: Context, params: Object, newUid: Uid)
    requires WorldOk(w) && Enabled(w, e) && e.Request? && e.call.Preview?
    requires ChangePreview(w.db, e.ctx, e.access, e.params, e.newUid).result.Ok?
    requires Possible(Next(w, e), events)
    requires var first := PlanOf(e.ctx.env, w.db.store, e.params).value;
             var later := Run(Next(w, e), events).db;
             && PlanOf(ctx.env, later.store, params).Ok? && newUid !in later.issued
             && PlanOf(ctx.env, later.store, params).value.key == first.key
             && ChangePreview(w.db, e.ctx, e.access, e.params, e.newUid).result.value.uid in later.rows
    ensures var first := PlanOf(e.ctx.env, w.db.store, e.params).value;
            var later := Run(Next(w, e), events).db;
            var again := PlanOf(ctx.env, later.store, params).value;
            var uid := ChangePreview(w.db, e.ctx, e.access, e.params, e.newUid).result.value.uid;
            var out := ChangePreview(later, ctx, e.access, params, newUid);
            && out.db == later
            && if again.prepared.normalized == first.prepared.normalized
               then out.result.Ok? && Shows(out.result.value, uid, later.rows[uid]) && again.action == first.action
               else out.result == Err(CONFLICT)
  {
    hide PlanOf;
    hide Run;
    hide Possible;
    hide Enabled;
    hide Sound;
    var first := PlanOf(e.ctx.env, w.db.store, e.params).value;
    var uid := PreviewedPlan(w, e);
    StepKeeps(w, e);
    RunKeeps(Next(w, e), events);
    var later := Run(Next(w, e), events);
    var again := PlanOf(ctx.env, later.db.store, params).value;
    PlanKeys(e.ctx.env, w.db.store, e.params);
    PlanKeys(ctx.env, later.db.store, params);
    assert Legal(Next(w, e).db.rows[uid], later.db.rows[uid]);
    SoundInv(later.db, later.now, later.now);
    TakenKey(later.db, ctx, e.access, params, newUid, again, uid);
    if again.prepared.normalized == first.prepared.normalized {
      KeysTellActions(again.action, first.action);
    }
  }

  /** The plan that a successful preview returned is on file under its key, with its normal form. */
  lemma PreviewedPlan(w: World, e: Event) returns (uid: Uid)
    requires WorldOk(w) && Enabled(w, e) && e.Request? && e.call.Preview?
    requires ChangePreview(w.db, e.ctx, e.access, e.params, e.newUid).result.Ok?
    ensures uid == ChangePreview(w.db, e.ctx, e.access, e.params, e.newUid).result.value.uid
    ensures var plan, db' := PlanOf(e.ctx.env, w.db.store, e.params), Next(w, e).db;
            && plan.Ok? && uid in db'.rows && db'.rows[uid].access == e.access && db'.rows[uid].key == plan.value.key
            && db'.rows[uid].payload == plan.value.prepared.normalized
  {
    hide PlanOf;
    hide StreamsOk;
    hide EntryOk;
    uid := ChangePreview(w.db, e.ctx, e.access, e.params, e.newUid).result.value.uid;
    var plan := PlanOf(e.ctx.env, w.db.store, e.params).value;
    if FindByKey(w.db, e.access, plan.key).Some? {
      assert KeyOk(w.db, (e.access, plan.key));
      assert RowOk(w.db, uid);
    }
  }

  /** A failing action is recorded as failed inside the request, with the store untouched; but the
      error that it raises takes the record back, so the plan stays approved. */
  lemma FailureIsNotDurable(db: Db, ctx: Context, access: nat, params: Object)
    requires ApprovalFor(db, access, params).Ok?
    requires var row := db.rows[ApprovalFor(db, access, params).value];
             && row.state.Approved? && ctx.clock(0) < row.expiresAt && row.hash == Digest(row.payload)
             && Execute(ctx.env, db.store, row.action, row.payload).result.Err?
    requires Accepted(ctx, access, Version(db, access), 2)
    ensures var uid := ApprovalFor(db, access, params).value;
            var row, out := db.rows[uid], ChangeExecute(db, ctx, access, params);
            && out.result.Err? && out.result.error == Execute(ctx.env, db.store, row.action, row.payload).result.error
            && uid in out.db.rows && out.db.rows[uid].state.Failed? && out.db.store == db.store
            && Durable(db, out).db == db && Durable(db, out).result == out.result
  {
    hide Execute;
    hide SystemWrite;
    hide Accepted;
    hide Version;
    var uid := ApprovalFor(db, access, params).value;
    var row := db.rows[uid];
    var error := Execute(ctx.env, db.store, row.action, row.payload).result.error;
    AcceptedJoin(ctx, access, Version(db, access), 1, 1);
    WriteAnnounces(db, ctx, uid, ToExecuting);
    WriteIs(db, ctx, [uid], ToExecuting);
    var started := SystemWrite(db, ctx, [uid], ToExecuting).db;
    StartedRow(db, started, uid);
    assert RunPlan(started, ctx, uid) == Out(started, Err(error));
    WriteAnnounces(started, ctx, uid, ToFailed(error));
    WriteIs(started, ctx, [uid], ToFailed(error));
  }

  predicate Live(row: Approval) {
    row.state.Pending? || row.state.Approved?
  }

  predicate Over(row: Approval) {
    row.state.Executed? || row.state.Rejected? || row.state.Expired? || row.state.Failed?
  }

  /** How old a finished plan must be before it may be forgotten: the retention, but a day at least. */
  function Retention(days: int): int {
    if days < 1 then 86400 else 86400 * days
  }

  /** The cleanup expires live plans that are overdue, and forgets plans that are past their retention
      and then over; it leaves everything else as it is. */
  lemma CleanupSparesLivePlans(w: World, e: Event, u: Uid)
    requires Enabled(w, e) && e.Cleanup? && u in w.db.rows
    ensures var row, db', now := w.db.rows[u], Next(w, e).db, e.ctx.clock(0);
            if u in db'.rows then
              db'.rows[u] == row || (db'.rows[u] == row.(state := Expired) && Live(row) && row.expiresAt < now)
            else
              row.createdAt + Retention(e.retentionDays) < now && (Over(row) || (Live(row) && row.expiresAt < now))
  {
    hide SystemWrite;
    if Collect(w.db, e.ctx, e.overdue, e.finished).result.Ok? {
      RowsKept(w.db, e.ctx, e.overdue, ToExpired);
    }
  }

  /** A cleanup that commits leaves no overdue plan live and no finished one that is past its
      retention, as far as its searches did not reach their limit. */
  lemma CleanupIsThorough(w: World, e: Event, u: Uid)
    requires Enabled(w, e) && e.Cleanup?
    requires Collect(w.db, e.ctx, e.overdue, e.finished).result.Ok? && u in Next(w, e).db.rows
    ensures var row, now := Next(w, e).db.rows[u], e.ctx.clock(0);
            && (|e.overdue| < 5000 ==> !(Live(row) && row.expiresAt < now))
            && (|e.finished| < 5000 ==> !(Over(row) && row.createdAt + Retention(e.retentionDays) < now))
  {
    hide SystemWrite;
    RowsKept(w.db, e.ctx, e.overdue, ToExpired);
  }

  /** The tests of expiry come before the stamps: a plan that was decided on too late is expired in
      the transaction that refuses it, and the refusal takes that back. */
  lemma LateApprovalIsNotDurable(db: Db, ctx: Context, user: nat, uid: Uid)
    requires uid in db.rows && db.rows[uid].state.Pending? && db.rows[uid].expiresAt <= ctx.clock(0)
    ensures var out := Decide(db, ctx, Approve, user, true, [uid]);
            && out.result.Err? && uid in out.db.rows && out.db.rows[uid].state.Expired?
            && Durable(db, out).db == db
  {
    hide SystemWrite;
    RowsKept(db, ctx, [uid], ToExpired);
  }

  /** A status or an execution that answers never shows a plan as live that is overdue, shows what is
      on file, and never shows a plan that it found approved, in time, as anything but executed. */
  lemma AnswersAreTrue(db: Db, ctx: Context, access: nat, params: Object, call: Call, newUid: Uid)
    requires call != Preview && Dispatch(db, ctx, access, call, params, newUid).result.Ok?
    ensures var out := Dispatch(db, ctx, access, call, params, newUid);
            var view := out.result.value;
            && view.uid in db.rows && view.uid in out.db.rows && Shows(view, view.uid, out.db.rows[view.uid])
            && db.rows[view.uid].access == access && Get(params, "approval_id") == Str(view.uid)
            && ((view.state.Pending? || view.state.Approved?) ==> ctx.clock(0) < view.expiresAt)
            && (call.RunChange? && db.rows[view.uid].state.Approved? ==>
                  view.state == if ctx.clock(0) < view.expiresAt then Executed else Expired)
  {
    hide SystemWrite;
    hide Execute;
    hide RunPlan;
    hide FailPlan;
    hide StreamsOk;
    var uid := ApprovalFor(db, access, params).value;
    if call.Status? {
      RowsKept(db, ctx, [uid], ToExpired);
    } else {
      ExecutionIsAtomic(db, ctx, access, params);
    }
  }

  /** The transaction raises, and is rolled back. */
  ghost predicate Fails(w: World, e: Event)
    requires Enabled(w, e)
  {
    match e
    case Request(ctx, access, call, params, newUid) => Dispatch(w.db, ctx, access, call, params, newUid).result.Err?
    case Decision(ctx, decision, user, manager, uids) => Decide(w.db, ctx, decision, user, manager, uids).result.Err?
    case Cleanup(ctx, retentionDays, overdue, finished) => Collect(w.db, ctx, overdue, finished).result.Err?
    case Business(store) => false
  }

  /** A run without the transactions that failed in it. */
  ghost function Successes(w: World, events: seq<Event>): seq<Event>
    requires Possible(w, events)
    decreases |events|
  {
    if events == [] then []
    else (if Fails(w, events[0]) then [] else [events[0]]) + Successes(Next(w, events[0]), events[1..])
  }

  /** No failure leaves a trace: every run could have gone without the transactions that failed in it,
      even from an earlier moment, and would have left the same database. */
  lemma {:induction false} FailuresLeaveNoTrace(w: World, events: seq<Event>, v: World)
    requires Possible(w, events) && v.db == w.db && v.now <= w.now
    ensures Possible(v, Successes(w, events)) && Run(v, Successes(w, events)).db == Run(w, events).db
    decreases |events|
  {
    hide Next;
    hide Enabled;
    hide Fails;
    if events != [] {
      var e, rest := events[0], Successes(Next(w, events[0]), events[1..]);
      EarlierToo(w, e, v);
      if Fails(w, e) {
        FailuresLeaveNoTrace(Next(w, e), events[1..], v);
        assert Successes(w, events) == rest;
      } else {
        FailuresLeaveNoTrace(Next(w, e), events[1..], Next(v, e));
        assert Successes(w, events)[0] == e && Successes(w, events)[1..] == rest;
      }
    }
  }

  lemma EarlierToo(w: World, e: Event, v: World)
    requires Enabled(w, e) && v.db == w.db && v.now <= w.now
    ensures Enabled(v, e) && Next(v, e).db == Next(w, e).db && Next(v, e).now <= Next(w, e).now
    ensures Fails(w, e) ==> Next(w, e).db == w.db && v.now <= Next(w, e).now
  {
    hide Dispatch;
    hide Decide;
    hide Collect;
  }
}
