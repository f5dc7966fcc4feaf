/** What the seven actions make of the client's own words: the normal form key by key, and exactly
    when executing it succeeds. */
module ActionForms {
  import opened Wrappers
  import opened Json
  import opened Policies
  import opened Actions

  /** A default for a key that the payload leaves out. */
  predicate Defaulted(form: Object, payload: Object, name: string, default: Json) {
    name in form && form[name] == if name in payload then payload[name] else default
  }

  /** A key that is taken over as it is; a missing one is null. */
  predicate Copied(form: Object, payload: Object, name: string) {
    Defaulted(form, payload, name, Null)
  }

  /** A text that is taken over up to a length; a missing one is empty. */
  predicate Shortened(form: Object, payload: Object, name: string, length: nat) {
    && name in form && form[name].Str?
    && var text := if name in payload then payload[name] else Str("");
       && text.Str? && form[name].s <= text.s
       && (|text.s| <= length ==> form[name].s == text.s) && (length < |text.s| ==> |form[name].s| == length)
  }

  /** The same ids as the payload's list names, each once. */
  ghost predicate SameIds(form: Object, payload: Object) {
    && "ids" in form && "ids" in payload && form["ids"].Arr? && payload["ids"].Arr?
    && |form["ids"].items| == |payload["ids"].items|
    && forall item :: item in form["ids"].items <==> item in payload["ids"].items
  }

  /** A plan says what its request said: every value of the normal form is the payload's value at that
      key, up to defaults, cut texts and the order of ids; and its risk and size are those of its action. */
  ghost predicate SaysTheSame(env: Env, action: Action, payload: Object, plan: Prepared) {
    var form := plan.normalized;
    && Copied(form, payload, "model")
    && match action
       case RecordCreate =>
         && plan.risk == Medium
         && "values" in form && form["values"].Arr? && "values" in payload && plan.targets == |form["values"].items|
         && form["values"].items == (if payload["values"].Arr? then payload["values"].items else [payload["values"]])
       case RecordUpdate =>
         && plan.risk == Medium && SameIds(form, payload) && plan.targets == |payload["ids"].items|
         && Copied(form, payload, "values")
       case RecordDelete =>
         plan.risk == High && SameIds(form, payload) && plan.targets == |payload["ids"].items|
       case MessagePost =>
         && plan.risk == Low && plan.targets == 1 && Copied(form, payload, "id") && Copied(form, payload, "body")
       case ActivitySchedule =>
         plan.risk == Low && plan.targets == 1 && ActivityWords(form, payload) && ActivityTexts(form, payload)
       case AttachmentCreate =>
         && plan.risk == Medium && plan.targets == 1 && Copied(form, payload, "id")
         && Copied(form, payload, "name") && Copied(form, payload, "content_base64")
         && "mimetype" in form
         && form["mimetype"] == (if "mimetype" in payload && Truthy(payload["mimetype"]) then payload["mimetype"]
                                 else Str("application/octet-stream"))
       case MethodCall =>
         MethodWords(form, payload) && MethodMeasure(env.profile.methods, form, payload, plan)
  }

  predicate ActivityWords(form: Object, payload: Object) {
    && Copied(form, payload, "id")
    && Defaulted(form, payload, "activity_type", Str("mail.mail_activity_data_todo"))
    && Copied(form, payload, "date_deadline") && Copied(form, payload, "user_id")
  }

  predicate ActivityTexts(form: Object, payload: Object) {
    Shortened(form, payload, "summary", 512) && Shortened(form, payload, "note", 20000)
  }

  predicate MethodWords(form: Object, payload: Object) {
    && Copied(form, payload, "method")
    && Defaulted(form, payload, "args", Arr([])) && Defaulted(form, payload, "kwargs", Obj(map[]))
  }

  /** The call is as risky as its method policy says, and as large as the list of its records, which is
      empty if the payload leaves it out. */
  ghost predicate MethodMeasure(methods: seq<MethodPolicy>, form: Object, payload: Object, plan: Prepared) {
    && "ids" in form && form["ids"].Arr? && plan.targets == |form["ids"].items|
    && form["ids"] == (if "ids" in payload && payload["ids"] != Null then payload["ids"] else Arr([]))
    && "model" in form && "method" in form && RiskOfMethod(methods, form["model"], form["method"], plan.risk)
  }

  ghost predicate RiskOfMethod(methods: seq<MethodPolicy>, model: Json, name: Json, risk: Risk) {
    exists m :: m in methods && m.active && Str(m.model) == model && Str(m.method_) == name && risk == m.risk
  }

  lemma NormalFormSaysTheSame(env: Env, store: Store, action: Action, payload: Object)
    requires Prepare(env, store, action, payload).Ok?
    ensures SaysTheSame(env, action, payload, Prepare(env, store, action, payload).value)
  {
    hide Admit;
    hide RecordsInPolicy;
    hide ParseIds;
    hide ValidName;
    match action
    case RecordCreate => CreateSays(env, store, payload);
    case RecordUpdate => UpdateSays(env, store, payload);
    case RecordDelete => DeleteSays(env, store, payload);
    case MessagePost => MessageSays(env, store, payload);
    case ActivitySchedule => ActivitySays(env, store, payload);
    case AttachmentCreate => AttachmentSays(env, store, payload);
    case MethodCall => MethodSays(env, store, payload);
  }

  lemma CreateSays(env: Env, store: Store, payload: Object)
    requires PrepareCreate(env, store, payload).Ok?
    ensures SaysTheSame(env, RecordCreate, payload, PrepareCreate(env, store, payload).value)
  {
    hide Admit;
    hide ValidName;
  }

  lemma UpdateSays(env: Env, store: Store, payload: Object)
    requires PrepareUpdate(env, store, payload).Ok?
    ensures SaysTheSame(env, RecordUpdate, payload, PrepareUpdate(env, store, payload).value)
  {
    hide Admit;
    hide ValidName;
    hide RecordsInPolicy;
    hide SameIds;
    BatchIds(env, store, payload, Write);
  }

  lemma DeleteSays(env: Env, store: Store, payload: Object)
    requires PrepareDelete(env, store, payload).Ok?
    ensures SaysTheSame(env, RecordDelete, payload, PrepareDelete(env, store, payload).value)
  {
    hide Admit;
    hide ValidName;
    hide RecordsInPolicy;
    hide SameIds;
    BatchIds(env, store, payload, Unlink);
  }

  /** The records found for a batch are those that the payload lists. */
  lemma BatchIds(env: Env, store: Store, payload: Object, operation: Operation)
    requires ModelName(payload).Ok? && Admitted(env, ModelName(payload).value, operation).Ok?
    requires ParseIds(Get(payload, "ids"), env.profile.maxBatchSize, false).Ok?
    requires var model := ModelName(payload).value;
             RecordsInPolicy(env, store, Admitted(env, model, operation).value, model,
                             ParseIds(Get(payload, "ids"), env.profile.maxBatchSize, false).value, operation).Ok?
    ensures var model := ModelName(payload).value;
            var ids := ParseIds(Get(payload, "ids"), env.profile.maxBatchSize, false).value;
            var policy := Admitted(env, model, operation).value;
            var found := RecordsInPolicy(env, store, policy, model, ids, operation).value;
            && payload["ids"].Arr? && |found| == |payload["ids"].items|
            && forall form: Object :: "ids" in form && form["ids"] == Arr(Items(found)) ==> SameIds(form, payload)
  {
    hide Admit;
    hide ValidName;
    var model := ModelName(payload).value;
    var ids := ParseIds(Get(payload, "ids"), env.profile.maxBatchSize, false).value;
    FoundIsAsked(env, store, Admitted(env, model, operation).value, model, ids, operation);
    var found := RecordsInPolicy(env, store, Admitted(env, model, operation).value, model, ids, operation).value;
    hide RecordsInPolicy;
    hide ParseIds;
    assert payload["ids"] == Arr(Items(ids));
    SameItems(found, ids);
  }

  lemma SameItems(a: seq<nat>, b: seq<nat>)
    requires AsSet(a) == AsSet(b)
    ensures forall item :: item in Items(a) <==> item in Items(b)
  {
    forall x: nat
      ensures x in a <==> x in b
    {
      assert x in a <==> x in AsSet(a);
      assert x in b <==> x in AsSet(b);
    }
    forall item
      ensures item in Items(a) <==> item in Items(b)
    {
      ItemOf(a, item);
      ItemOf(b, item);
    }
  }

  lemma ItemOf(ids: seq<nat>, item: Json)
    ensures item in Items(ids) <==> item.Int? && 0 <= item.n && item.n in ids
  {
    if item in Items(ids) {
      var i :| 0 <= i < |Items(ids)| && Items(ids)[i] == item;
      assert ids[i] == item.n;
    }
    if item.Int? && 0 <= item.n && item.n in ids {
      var i :| 0 <= i < |ids| && ids[i] == item.n;
      assert Items(ids)[i] == item;
    }
  }

  lemma MessageSays(env: Env, store: Store, payload: Object)
    requires PrepareMessage(env, store, payload).Ok?
    ensures SaysTheSame(env, MessagePost, payload, PrepareMessage(env, store, payload).value)
  {
    hide TargetRecord;
    TargetWords(env, store, payload);
  }

  lemma ActivitySays(env: Env, store: Store, payload: Object)
    requires PrepareActivity(env, store, payload).Ok?
    ensures SaysTheSame(env, ActivitySchedule, payload, PrepareActivity(env, store, payload).value)
  {
    hide PrepareActivity;
    ActivitySaysWords(env, store, payload);
    ActivitySaysTexts(env, store, payload);
    hide ActivityWords;
    hide ActivityTexts;
  }

  lemma ActivitySaysWords(env: Env, store: Store, payload: Object)
    requires PrepareActivity(env, store, payload).Ok?
    ensures var plan := PrepareActivity(env, store, payload).value;
            && plan.risk == Low && plan.targets == 1
            && Copied(plan.normalized, payload, "model") && ActivityWords(plan.normalized, payload)
  {
    hide TargetRecord;
    hide ActivityForm;
    hide Take;
    TargetWords(env, store, payload);
  }

  lemma ActivitySaysTexts(env: Env, store: Store, payload: Object)
    requires PrepareActivity(env, store, payload).Ok?
    ensures ActivityTexts(PrepareActivity(env, store, payload).value.normalized, payload)
  {
    hide TargetRecord;
    hide ActivityForm;
    hide Take;
    hide Shortened;
    var form := PrepareActivity(env, store, payload).value.normalized;
    Shortens(form, payload, "summary", 512);
    Shortens(form, payload, "note", 20000);
  }

  lemma Shortens(form: Object, payload: Object, name: string, length: nat)
    requires GetOr(payload, name, Str("")).Str? && name in form
    requires form[name] == Str(Take(GetOr(payload, name, Str("")).s, length))
    ensures Shortened(form, payload, name, length)
  {
  }

  lemma AttachmentSays(env: Env, store: Store, payload: Object)
    requires PrepareAttachment(env, store, payload).Ok?
    ensures SaysTheSame(env, AttachmentCreate, payload, PrepareAttachment(env, store, payload).value)
  {
    hide TargetRecord;
    TargetWords(env, store, payload);
  }

  lemma TargetWords(env: Env, store: Store, payload: Object)
    requires TargetRecord(env, store, payload).Ok?
    ensures var target := TargetRecord(env, store, payload).value;
            && "model" in payload && payload["model"] == Str(target.0)
            && "id" in payload && payload["id"] == Int(target.1)
  {
    hide Admit;
    hide RecordsInPolicy;
    hide ValidName;
  }

  lemma MethodSays(env: Env, store: Store, payload: Object)
    requires PrepareMethod(env, store, payload).Ok?
    ensures SaysTheSame(env, MethodCall, payload, PrepareMethod(env, store, payload).value)
  {
    hide PrepareMethod;
    MethodSaysWords(env, store, payload);
    MethodSaysMeasure(env, store, payload);
    hide MethodWords;
    hide MethodMeasure;
  }

  lemma MethodSaysWords(env: Env, store: Store, payload: Object)
    requires PrepareMethod(env, store, payload).Ok?
    ensures var form := PrepareMethod(env, store, payload).value.normalized;
            MethodWords(form, payload) && Copied(form, payload, "model")
  {
    hide Admit;
    hide RecordsInPolicy;
    hide ValidName;
    hide ParseIds;
    hide FindMethod;
  }

  lemma MethodSaysMeasure(env: Env, store: Store, payload: Object)
    requires PrepareMethod(env, store, payload).Ok?
    ensures var plan := PrepareMethod(env, store, payload).value;
            MethodMeasure(env.profile.methods, plan.normalized, payload, plan)
  {
    hide Admit;
    hide RecordsInPolicy;
    hide ValidName;
    hide ParseIds;
    hide FindMethod;
    var m := FindMethod(env.profile.methods, ModelName(payload).value, Get(payload, "method").s).value;
    MethodIds(payload, m.maxRecordCount);
    assert RiskOfMethod(env.profile.methods, Str(m.model), Str(m.method_), m.risk);
    hide RiskOfMethod;
  }

  lemma MethodIds(payload: Object, maxCount: nat)
    requires ParseIds(GetOr(payload, "ids", Arr([])), maxCount, true).Ok?
    ensures Arr(Items(ParseIds(GetOr(payload, "ids", Arr([])), maxCount, true).value))
            == if "ids" in payload && payload["ids"] != Null then payload["ids"] else Arr([])
  {
    var value := GetOr(payload, "ids", Arr([]));
    ParseIdsExactly(value, maxCount, true, ParseIds(value, maxCount, true).value);
  }

  /** The user that an activity is assigned to, if any, is named by a positive integer. */
  predicate UserOk(action: Action, payload: Object) {
    var user := Get(payload, "user_id");
    action == ActivitySchedule && Truthy(user) ==> user.Int? && 0 < user.n
  }

  /** What Odoo itself must still do for a plan that may run: accept the write and, for creates and
      updates, leave every written record inside the forced domain. */
  ghost predicate OdooComplies(env: Env, store: Store, action: Action, payload: Object)
    requires Prepare(env, store, action, payload).Ok?
  {
    var n := Prepare(env, store, action, payload).value.normalized;
    var model := Get(n, "model");
    && model.Str?
    && match action
       case RecordCreate =>
         var wrote := env.odoo.create(store, model.s, CreateItems(payload));
         && wrote.value.Some? && Admitted(env, model.s, Create).Ok?
         && InDomain(wrote.store, Admitted(env, model.s, Create).value, model.s, wrote.value.value)
       case RecordUpdate =>
         && Get(payload, "values").Obj? && Admitted(env, model.s, Write).Ok?
         && var ids := IdsOf(Get(n, "ids"));
            var wrote := env.odoo.write(store, model.s, ids, Get(payload, "values").fields);
            wrote.value.Some? && InDomain(wrote.store, Admitted(env, model.s, Write).value, model.s, ids)
       case RecordDelete => env.odoo.unlink(store, model.s, IdsOf(Get(n, "ids"))).value.Some?
       case _ => env.odoo.call(store, action, n).value.Some?
  }

  /** An execution succeeds exactly when its payload may be planned, an activity's user is named
      properly, and Odoo complies: it neither does too much nor refuses for any other reason. */
  lemma SucceedsExactly(env: Env, store: Store, action: Action, payload: Object)
    ensures Execute(env, store, action, payload).result.Ok? <==>
              && Prepare(env, store, action, payload).Ok? && UserOk(action, payload)
              && OdooComplies(env, store, action, payload)
  {
    hide Prepare;
    hide Execute;
    hide Ready;
    hide OdooComplies;
    hide UserOk;
    ExecuteIs(env, store, action, payload);
    if Prepare(env, store, action, payload).Err? {
      NotReady(env, store, action, payload);
    } else {
      match action
      case RecordCreate => CreateSucceeds(env, store, payload);
      case RecordUpdate => UpdateSucceeds(env, store, payload);
      case RecordDelete => DeleteSucceeds(env, store, payload);
      case MethodCall => MethodSucceeds(env, store, payload);
      case _ => TargetSucceeds(env, store, action, payload);
    }
  }

  lemma NotReady(env: Env, store: Store, action: Action, payload: Object)
    requires Prepare(env, store, action, payload).Err?
    ensures Ready(env, store, action, payload).Err?
  {
  }

  lemma CreateSucceeds(env: Env, store: Store, payload: Object)
    requires Prepare(env, store, RecordCreate, payload).Ok?
    ensures Execute(env, store, RecordCreate, payload).result.Ok?
            <==> UserOk(RecordCreate, payload) && OdooComplies(env, store, RecordCreate, payload)
  {
    hide Execute;
    hide Admit;
    hide ValidName;
    hide InDomain;
    ExecuteIs(env, store, RecordCreate, payload);
  }

  lemma UpdateSucceeds(env: Env, store: Store, payload: Object)
    requires Prepare(env, store, RecordUpdate, payload).Ok?
    ensures Execute(env, store, RecordUpdate, payload).result.Ok?
            <==> UserOk(RecordUpdate, payload) && OdooComplies(env, store, RecordUpdate, payload)
  {
    hide PrepareUpdate;
    hide Execute;
    hide RecordsInPolicy;
    hide Admit;
    hide InDomain;
    hide IdsOf;
    hide TargetsExactly;
    UpdateNormal(env, store, payload);
    var n := PrepareUpdate(env, store, payload).value.normalized;
    var found := NamedTargets(env, store, payload, Write, n);
    var model := ModelName(payload).value;
    assert Ready(env, store, RecordUpdate, payload) == Ok((Admitted(env, model, Write).value, model, found, n));
    hide Ready;
    ExecuteIs(env, store, RecordUpdate, payload);
  }

  lemma DeleteSucceeds(env: Env, store: Store, payload: Object)
    requires Prepare(env, store, RecordDelete, payload).Ok?
    ensures Execute(env, store, RecordDelete, payload).result.Ok?
            <==> UserOk(RecordDelete, payload) && OdooComplies(env, store, RecordDelete, payload)
  {
    hide PrepareDelete;
    hide Execute;
    hide RecordsInPolicy;
    hide Admit;
    hide InDomain;
    hide IdsOf;
    hide TargetsExactly;
    DeleteNormal(env, store, payload);
    var n := PrepareDelete(env, store, payload).value.normalized;
    var found := NamedTargets(env, store, payload, Unlink, n);
    var model := ModelName(payload).value;
    assert Ready(env, store, RecordDelete, payload) == Ok((Admitted(env, model, Unlink).value, model, found, n));
    hide Ready;
    ExecuteIs(env, store, RecordDelete, payload);
  }

  lemma MethodSucceeds(env: Env, store: Store, payload: Object)
    requires Prepare(env, store, MethodCall, payload).Ok?
    ensures Execute(env, store, MethodCall, payload).result.Ok?
            <==> UserOk(MethodCall, payload) && OdooComplies(env, store, MethodCall, payload)
  {
    hide Execute;
    hide Ready;
    hide PrepareMethod;
    MethodReady(env, store, payload);
    ExecuteIs(env, store, MethodCall, payload);
  }

  lemma MethodReady(env: Env, store: Store, payload: Object)
    requires PrepareMethod(env, store, payload).Ok?
    ensures var n, ready := PrepareMethod(env, store, payload).value.normalized, Ready(env, store, MethodCall, payload);
            ready.Ok? && ready.value.3 == n && Get(n, "model") == Str(ready.value.1)
  {
    hide PrepareMethod;
    hide RecordsInPolicy;
    hide Admit;
    hide ValidName;
    hide FindMethod;
    MethodNormal(env, store, payload);
    var model := ModelName(payload).value;
    var m := FindMethod(env.profile.methods, model, Get(payload, "method").s).value;
    var ids := ParseIds(GetOr(payload, "ids", Arr([])), m.maxRecordCount, true).value;
    ParseAgain(ids, m.maxRecordCount, true);
    hide ParseIds;
  }

  lemma TargetSucceeds(env: Env, store: Store, action: Action, payload: Object)
    requires action.MessagePost? || action.ActivitySchedule? || action.AttachmentCreate?
    requires Prepare(env, store, action, payload).Ok?
    ensures Execute(env, store, action, payload).result.Ok?
            <==> UserOk(action, payload) && OdooComplies(env, store, action, payload)
  {
    hide Prepare;
    hide Execute;
    hide TargetRecord;
    hide RecordsInPolicy;
    hide Admit;
    hide ValidName;
    TargetNormal(env, store, action, payload);
    TargetFound(env, store, payload);
    if action.ActivitySchedule? {
      SameUser(env, store, action, payload);
    }
    ExecuteIs(env, store, action, payload);
  }

  lemma SameUser(env: Env, store: Store, action: Action, payload: Object)
    requires Prepare(env, store, action, payload).Ok? && action.ActivitySchedule?
    ensures Get(Prepare(env, store, action, payload).value.normalized, "user_id") == Get(payload, "user_id")
  {
    hide TargetRecord;
    hide ActivityForm;
  }
}
