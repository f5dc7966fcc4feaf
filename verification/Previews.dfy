/** What a preview makes of a client's request, in the words of the request itself. */
module Previews {
  import opened Wrappers
  import opened Json
  import opened Policies
  import opened Actions
  import opened ActionForms
  import opened Approvals

  /** What each action is called by clients. */
  function NameOf(action: Action): string {
    match action
    case RecordCreate => "record.create"
    case RecordUpdate => "record.update"
    case RecordDelete => "record.delete"
    case MessagePost => "message.post"
    case ActivitySchedule => "activity.schedule"
    case AttachmentCreate => "attachment.create"
    case MethodCall => "method.call"
  }

  lemma NamesDiffer(a: Action, b: Action)
    requires NameOf(a) == NameOf(b)
    ensures a == b
  {
    var s, t := NameOf(a), NameOf(b);
    assert |s| == |t| && (|s| > 7 ==> s[7] == t[7]);
  }

  lemma ParsedName(name: Json, action: Action)
    ensures ParseAction(name) == Ok(action) <==> name == Str(NameOf(action))
  {
    if name == Str(NameOf(action)) {
      NameParses(action);
    } else if ParseAction(name).Ok? {
      ParsesAName(name);
    }
  }

  lemma NameParses(action: Action)
    ensures ParseAction(Str(NameOf(action))) == Ok(action)
  {
    match action
    case RecordCreate =>
    case RecordUpdate => assert NameOf(action)[7] == 'u';
    case RecordDelete => assert NameOf(action)[7] == 'd';
    case _ => assert NameOf(action)[0] != 'r';
  }

  lemma ParsesAName(name: Json)
    requires ParseAction(name).Ok?
    ensures name == Str(NameOf(ParseAction(name).value))
  {
  }

  lemma NamesAre()
    ensures NameOf(RecordCreate) == "record.create" && NameOf(RecordUpdate) == "record.update"
    ensures NameOf(RecordDelete) == "record.delete" && NameOf(MessagePost) == "message.post"
    ensures NameOf(ActivitySchedule) == "activity.schedule" && NameOf(AttachmentCreate) == "attachment.create"
    ensures NameOf(MethodCall) == "method.call"
    ensures forall a, b :: NameOf(a) == NameOf(b) ==> a == b
  {
    forall a, b | NameOf(a) == NameOf(b)
      ensures a == b
    {
      NamesDiffer(a, b);
    }
  }

  /** The client asks for the action by its name, with a payload and a key of a proper length. */
  ghost predicate Asks(params: Object, action: Action) {
    && "action" in params && params["action"] == Str(NameOf(action))
    && "payload" in params && params["payload"].Obj?
    && "idempotency_key" in params && params["idempotency_key"].Str? && 8 <= |params["idempotency_key"].s| <= 128
  }

  /** A request becomes a plan exactly when it asks for one of the seven actions by its name, with a
      proper key, and that action accepts the payload; the plan is then that action's. */
  lemma PlansExactly(env: Env, store: Store, params: Object, plan: Plan)
    ensures PlanOf(env, store, params) == Ok(plan) <==>
              && Asks(params, plan.action) && params["idempotency_key"] == Str(plan.key)
              && Prepare(env, store, plan.action, params["payload"].fields) == Ok(plan.prepared)
  {
    hide Prepare;
    hide ParseAction;
    hide NameOf;
    ParsedName(Get(params, "action"), plan.action);
  }

  /** A request that asks for no known action becomes no plan, whatever else it says. */
  lemma UnknownActionsAreRefused(env: Env, store: Store, params: Object)
    requires forall action :: Get(params, "action") != Str(NameOf(action))
    ensures PlanOf(env, store, params).Err?
    ensures Get(params, "payload").Obj? && Get(params, "idempotency_key").Str?
            && 8 <= |Get(params, "idempotency_key").s| <= 128 ==>
              PlanOf(env, store, params).error
              == if Get(params, "action").Arr? || Get(params, "action").Obj? then Error("validation_error", 422)
                 else Error("unknown_action", 404)
  {
    hide Prepare;
    hide NameOf;
    NamesAre();
  }

  /** A plan on file, in the words of the request that made it. */
  ghost predicate FreshPlan(ctx: Context, access: nat, params: Object, row: Approval) {
    && Asks(params, row.action) && params["idempotency_key"] == Str(row.key) && row.access == access
    && SaysTheSame(ctx.env, row.action, params["payload"].fields, Prepared(row.payload, row.risk, row.targets))
    && "model" in params["payload"].fields && row.model == params["payload"].fields["model"]
    && row.hash == Digest(row.payload)
    && row.createdAt == ctx.began && row.expiresAt == ctx.clock(0) + 60 * ctx.env.profile.approvalTtlMinutes
    && (row.state == Pending || row.state == Approved)
    && row.approvedAt == (if row.state == Approved then Some(ctx.clock(0)) else None) && row.rejectedAt.None?
    && row.approvedBy.None? && row.rejectedBy.None? && row.executedAt.None? && row.result.None? && row.error.None?
  }

  /** Whatever a preview adds is one plan that says what the client asked for and expires when the
      profile's time to live has passed; and that plan is what the client is shown. */
  lemma PreviewedAsAsked(db: Db, ctx: Context, access: nat, params: Object, newUid: Uid)
    requires ChangePreview(db, ctx, access, params, newUid).result.Ok?
    requires ChangePreview(db, ctx, access, params, newUid).db != db
    ensures var out := ChangePreview(db, ctx, access, params, newUid);
            && newUid !in db.rows && out.db.rows.Keys == db.rows.Keys + {newUid}
            && FreshPlan(ctx, access, params, out.db.rows[newUid])
            && Shows(out.result.value, newUid, out.db.rows[newUid])
  {
    hide Prepare;
    hide PlanOf;
    hide SaysTheSame;
    hide Asks;
    var plan := PlanOf(ctx.env, db.store, params).value;
    PlansExactly(ctx.env, db.store, params, plan);
    FreshModel(ctx.env, db.store, params, plan);
  }

  lemma FreshModel(env: Env, store: Store, params: Object, plan: Plan)
    requires Asks(params, plan.action)
    requires Prepare(env, store, plan.action, params["payload"].fields) == Ok(plan.prepared)
    ensures var payload := params["payload"].fields;
            && SaysTheSame(env, plan.action, payload, plan.prepared)
            && plan.prepared == Prepared(plan.prepared.normalized, plan.prepared.risk, plan.prepared.targets)
            && "model" in payload && Get(plan.prepared.normalized, "model") == payload["model"]
  {
    NormalFormSaysTheSame(env, store, plan.action, params["payload"].fields);
    PlannedExactly(env, store, plan.action, params["payload"].fields);
    hide Prepare;
    hide Reachable;
    hide Asks;
  }

  /** A client reaches exactly the plans of its own access, by their identifiers. */
  lemma FoundByItsAccess(db: Db, access: nat, params: Object, uid: Uid)
    ensures ApprovalFor(db, access, params) == Ok(uid) <==>
              && "approval_id" in params && params["approval_id"] == Str(uid) && |uid| <= 64
              && uid in db.rows && db.rows[uid].access == access
  {
  }

  /** An answer tells of a plan what is on file. */
  ghost predicate Shows(view: View, uid: Uid, row: Approval) {
    && view.uid == uid && view.state == row.state && view.action == row.action && view.model == row.model
    && view.risk == row.risk && view.targets == row.targets && view.expiresAt == row.expiresAt
    && view.result == row.result && view.error == row.error
  }

  /** The ids that were touched are the payload's. */
  predicate Touched(payload: Object, ids: seq<nat>) {
    && "ids" in payload && payload["ids"].Arr? && Distinct(ids) && |ids| == |payload["ids"].items|
    && forall id :: id in ids ==> Int(id) in payload["ids"].items
  }

  /** What Odoo was asked to do under each name that a client can use. */
  ghost predicate Done(env: Env, store: Store, name: string, payload: Object, store': Store, effect: Effect) {
    && "model" in payload && payload["model"] == Str(effect.model)
    && (name == "record.create" ==>
          && "values" in payload
          && var items := if payload["values"].Arr? then payload["values"].items else [payload["values"]];
             env.odoo.create(store, effect.model, items) == Wrote(store', Some(effect.ids)))
    && (name == "record.update" ==>
          && "values" in payload && payload["values"].Obj? && Touched(payload, effect.ids)
          && env.odoo.write(store, effect.model, effect.ids, payload["values"].fields) == Wrote(store', Some(())))
    && (name == "record.delete" ==>
          Touched(payload, effect.ids) && env.odoo.unlink(store, effect.model, effect.ids) == Wrote(store', Some(())))
    && (name == "message.post" || name == "activity.schedule" || name == "attachment.create" ==>
          "id" in payload && |effect.ids| == 1 && payload["id"] == Int(effect.ids[0]))
    && (name != "record.create" && name != "record.update" && name != "record.delete" ==>
          exists action, plan: Prepared :: NameOf(action) == name && SaysTheSame(env, action, payload, plan)
            && env.odoo.call(store, action, plan.normalized) == Wrote(store', Some(())))
  }

  lemma DidIs(wrote: Wrote<()>, store': Store)
    requires Did(wrote, store')
    ensures wrote == Wrote(store', Some(()))
  {
    assert wrote == Wrote(store', Some(wrote.value.value)) && wrote.value.value == ();
  }

  /** An action that succeeds has Odoo do what its name says, with what the payload says. */
  lemma DoneAsAsked(env: Env, store: Store, action: Action, payload: Object)
    requires Execute(env, store, action, payload).result.Ok?
    ensures var r := Execute(env, store, action, payload);
            Done(env, store, NameOf(action), payload, r.store, r.result.value)
  {
    hide Execute;
    hide Confined;
    hide Done;
    hide NameOf;
    ExecuteConfined(env, store, action, payload);
    var r := Execute(env, store, action, payload);
    match action
    case RecordCreate =>
      CreateSaid(env, store, payload);
      CreateDone(env, store, payload, r.store, r.result.value);
    case RecordUpdate => UpdateDone(env, store, payload, r.store, r.result.value);
    case RecordDelete => DeleteDone(env, store, payload, r.store, r.result.value);
    case _ => CallDone(env, store, action, payload, r.store, r.result.value);
  }

  lemma CreateDone(env: Env, store: Store, payload: Object, store': Store, effect: Effect)
    requires Confined(env, store, RecordCreate, payload, store', effect) && "values" in payload
    ensures Done(env, store, NameOf(RecordCreate), payload, store', effect)
  {
    hide NameOf;
    hide InDomain;
    NamesAre();
  }

  lemma UpdateDone(env: Env, store: Store, payload: Object, store': Store, effect: Effect)
    requires Confined(env, store, RecordUpdate, payload, store', effect)
    ensures Done(env, store, NameOf(RecordUpdate), payload, store', effect)
  {
    hide NameOf;
    hide InDomain;
    hide Accessible;
    hide ParseIds;
    hide Touched;
    NamesAre();
    TouchedIds(env, payload, effect.ids);
    DidIs(env.odoo.write(store, effect.model, effect.ids, Get(payload, "values").fields), store');
  }

  lemma DeleteDone(env: Env, store: Store, payload: Object, store': Store, effect: Effect)
    requires Confined(env, store, RecordDelete, payload, store', effect)
    ensures Done(env, store, NameOf(RecordDelete), payload, store', effect)
  {
    hide NameOf;
    hide InDomain;
    hide Accessible;
    hide ParseIds;
    hide Touched;
    NamesAre();
    TouchedIds(env, payload, effect.ids);
    DidIs(env.odoo.unlink(store, effect.model, effect.ids), store');
  }

  lemma CallNames(action: Action)
    requires action != RecordCreate && action != RecordUpdate && action != RecordDelete
    ensures NameOf(action) != "record.create" && NameOf(action) != "record.update" && NameOf(action) != "record.delete"
    ensures action == MethodCall ==> NameOf(action) != "message.post" && NameOf(action) != "activity.schedule"
                                     && NameOf(action) != "attachment.create"
  {
    assert NameOf(action)[0] != 'r';
    assert action == MethodCall ==> NameOf(action)[1] == 'e' && NameOf(action)[2] == 't';
  }

  lemma CallDone(env: Env, store: Store, action: Action, payload: Object, store': Store, effect: Effect)
    requires action != RecordCreate && action != RecordUpdate && action != RecordDelete
    requires Confined(env, store, action, payload, store', effect)
    ensures Done(env, store, NameOf(action), payload, store', effect)
  {
    hide NameOf;
    hide InDomain;
    hide RecordIn;
    hide Accessible;
    hide ParseIds;
    hide SaysTheSame;
    hide Called;
    CallNames(action);
    CalledAsAsked(env, store, action, payload, store');
  }

  lemma CreateSaid(env: Env, store: Store, payload: Object)
    requires Execute(env, store, RecordCreate, payload).result.Ok?
    ensures "values" in payload
  {
    hide Execute;
    SucceedsExactly(env, store, RecordCreate, payload);
    NormalFormSaysTheSame(env, store, RecordCreate, payload);
  }

  lemma TouchedIds(env: Env, payload: Object, ids: seq<nat>)
    requires ParseIds(Get(payload, "ids"), env.profile.maxBatchSize, false).Ok? && Distinct(ids)
    requires AsSet(ids) == AsSet(ParseIds(Get(payload, "ids"), env.profile.maxBatchSize, false).value)
    ensures Touched(payload, ids)
  {
    var asked := ParseIds(Get(payload, "ids"), env.profile.maxBatchSize, false).value;
    SetSize(asked);
    SetSize(ids);
    hide ParseIds;
    assert payload["ids"] == Arr(Items(asked));
    forall id | id in ids
      ensures Int(id) in payload["ids"].items
    {
      assert id in AsSet(ids) && id in asked;
      ItemOf(asked, Int(id));
    }
  }

  lemma CalledAsAsked(env: Env, store: Store, action: Action, payload: Object, store': Store)
    requires Called(env, store, action, payload, store')
    ensures exists plan: Prepared :: SaysTheSame(env, action, payload, plan)
              && env.odoo.call(store, action, plan.normalized) == Wrote(store', Some(()))
  {
    NormalFormSaysTheSame(env, store, action, payload);
    hide Prepare;
    hide SaysTheSame;
    var plan := Prepare(env, store, action, payload).value;
    DidIs(env.odoo.call(store, action, plan.normalized), store');
  }
}
