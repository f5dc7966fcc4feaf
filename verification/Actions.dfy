/** The seven change actions of service.py: how a payload is normalized for approval, and what
    executing it does.

    Odoo itself is behind oracles: access rights and record rules answer yes or no, models describe
    their fields, and a write to the database yields any new store or fails.  What the connector
    decides itself is here, in Policies and in FieldAllowlist. */
module Actions {
  import opened Wrappers
  import opened Json
  import opened Policies
  import opened FieldAllowlist
  import opened Records

  datatype Action =
    | RecordCreate | RecordUpdate | RecordDelete
    | MessagePost | ActivitySchedule | AttachmentCreate | MethodCall

  type Store = map<string, seq<Row>>

  /** What Odoo answers while one request runs. */
  datatype Odoo = Odoo(
    modelAcl: (string, Operation) -> bool,
    recordAcl: (Store, string, Operation, nat) -> bool,
    fieldsGet: string -> map<string, Description>,
    fields: string -> map<string, Field>,
    fieldAccess: (string, string) -> bool,
    hasMethod: (string, string) -> bool,
    isBlank: string -> bool,
    decodedSize: string -> Option<nat>,
    canonicalSize: Json -> nat,
    create: (Store, string, seq<Json>) -> Wrote<seq<nat>>,
    write: (Store, string, seq<nat>, Object) -> Wrote<()>,
    unlink: (Store, string, seq<nat>) -> Wrote<()>,
    call: (Store, Action, Object) -> Wrote<()>)

  /** A field as the model's registry has it. */
  datatype Field = Field(readonly: bool)

  /** The store after a write to the database; a write that fails may leave it half changed. */
  datatype Wrote<T> = Wrote(store: Store, value: Option<T>)

  datatype Env = Env(profile: Profile, catalogue: Catalogue, odoo: Odoo, maxBinaryBytes: nat)

  datatype Prepared = Prepared(normalized: Object, risk: Risk, targets: nat)

  /** The model and the record ids of an executed action, as its result reports them. */
  datatype Effect = Effect(model: string, ids: seq<nat>)

  const DEFAULT_ACTIVITY := "mail.mail_activity_data_todo"
  const DEFAULT_MIMETYPE := "application/octet-stream"

  function Table(store: Store, model: string): seq<Row> {
    if model in store then store[model] else []
  }

  function Admitted(env: Env, model: string, operation: Operation): Result<Policy, Error> {
    Admit(env.profile, env.catalogue, env.odoo.modelAcl, model, operation)
  }

  function ModelName(payload: Object): Result<string, Error> {
    var name := Get(payload, "model");
    if name.Str? && ValidName(name.s) then Ok(name.s) else Err(Error("invalid_model", 400))
  }

  predicate IdItem(j: Json) {
    j.Int? && j.n > 0
  }

  function Ids(items: seq<Json>): (ids: seq<nat>)
    requires forall i :: 0 <= i < |items| ==> IdItem(items[i])
    ensures |ids| == |items| && forall i :: 0 <= i < |ids| ==> items[i] == Int(ids[i]) && 0 < ids[i]
  {
    if items == [] then [] else assert IdItem(items[0]); [items[0].n] + Ids(items[1..])
  }

  function Items(ids: seq<nat>): (items: seq<Json>)
    ensures |items| == |ids| && forall i :: 0 <= i < |ids| ==> items[i] == Int(ids[i])
  {
    seq(|ids|, i requires 0 <= i < |ids| => Int(ids[i]))
  }

  /** _parse_ids, with its tests in the source's order. */
  function ParseIds(value: Json, maxCount: nat, allowEmpty: bool): (r: Result<seq<nat>, Error>)
    ensures r.Ok? ==> Distinct(r.value) && |r.value| <= maxCount && (forall id :: id in r.value ==> 0 < id)
    ensures r.Ok? && !allowEmpty ==> r.value != []
    ensures r.Ok? && value.Arr? ==> value == Arr(Items(r.value))
  {
    if value.Null? && allowEmpty then Ok([])
    else if !value.Arr? then Err(Error("invalid_ids", 400))
    else if value.items == [] && !allowEmpty then Err(Error("invalid_ids", 400))
    else if |value.items| > maxCount then Err(Error("batch_too_large", 413))
    else if exists i :: 0 <= i < |value.items| && !IdItem(value.items[i]) then Err(Error("invalid_ids", 400))
    else if !Distinct(value.items) then Err(Error("invalid_ids", 400))
    else
      var ids := Ids(value.items);
      assert Items(ids) == value.items;
      Ok(ids)
  }

  /** The records of a model with the given ids, inside the forced domain. */
  function Scope(ids: seq<nat>, policy: Policy): Domain {
    var forced := ForcedDomain(policy);
    (id: nat, values: Object) => id in ids && forced(id, values)
  }

  function Take<T>(xs: seq<T>, n: nat): seq<T> {
    if n < |xs| then xs[..n] else xs
  }

  function AsSet<T>(xs: seq<T>): set<T> {
    set x | x in xs
  }

  /** _records_in_policy: all the ids must be found inside the forced domain and be accessible. */
  function RecordsInPolicy(env: Env, store: Store, policy: Policy, model: string, ids: seq<nat>, operation: Operation)
      : Result<seq<nat>, Error>
  {
    var found := Take(Matching(Table(store, model), Scope(ids, policy)), |ids|);
    if AsSet(found) != AsSet(ids) then Err(ACCESS_DENIED)
    else if exists id :: id in found && !env.odoo.recordAcl(store, model, operation, id) then Err(ACCESS_DENIED)
    else Ok(found)
  }

  /** The checks _write_values makes of each field after the allowlist. */
  predicate FieldWritable(env: Env, model: string, name: string) {
    && name in env.odoo.fields(model) && env.odoo.fieldAccess(model, name) && !env.odoo.fields(model)[name].readonly
  }

  /** _write_values returns the values it accepts unchanged. */
  function WriteValues(env: Env, policy: Policy, model: string, value: Json, operation: Operation)
      : (r: Result<Object, Error>)
    ensures r.Ok? ==> value == Obj(r.value)
  {
    if !value.Obj? || value.fields == map[] then Err(Error("invalid_values", 400))
    else if !(value.fields.Keys <= AllowedFieldNames(policy, operation, env.odoo.fieldsGet(model)))
            || value.fields.Keys * WRITE_MAGIC_FIELDS != {} then Err(Error("field_denied", 403))
    else if exists name :: name in value.fields && !FieldWritable(env, model, name) then
      Err(Error("field_denied", 403))
    else Ok(value.fields)
  }

  /** One field that a client may write: described and open under the policy, never a magic or
      read-only one, and writable for the user. */
  ghost predicate MayWrite(env: Env, policy: Policy, model: string, operation: Operation, name: string) {
    var described := env.odoo.fieldsGet(model);
    && name in described && FieldOpen(policy, operation, name, described[name])
    && name !in WRITE_MAGIC_FIELDS && name in env.odoo.fields(model) && !env.odoo.fields(model)[name].readonly
    && env.odoo.fieldAccess(model, name)
  }

  /** Values that may be written: not empty, and nothing but fields that may. */
  ghost predicate Writable(env: Env, policy: Policy, model: string, operation: Operation, value: Json) {
    value.Obj? && value.fields != map[]
    && forall name :: name in value.fields ==> MayWrite(env, policy, model, operation, name)
  }

  /** Values are accepted exactly when each field, looked at by itself, may be written. */
  lemma AcceptedExactly(env: Env, policy: Policy, model: string, value: Json, operation: Operation)
    ensures WriteValues(env, policy, model, value, operation).Ok? <==> Writable(env, policy, model, operation, value)
  {
    hide AllowedFieldNames;
    hide FieldOpen;
    if value.Obj? {
      var described := env.odoo.fieldsGet(model);
      forall name | name in value.fields
        ensures name in AllowedFieldNames(policy, operation, described)
                <==> name in described && FieldOpen(policy, operation, name, described[name])
        ensures name in WRITE_MAGIC_FIELDS <==> name in value.fields.Keys * WRITE_MAGIC_FIELDS
      {
        AllowedExactly(policy, operation, described, name);
      }
    }
  }

  function WriteValuesList(env: Env, policy: Policy, model: string, values: seq<Json>): (r: Result<seq<Json>, Error>)
    ensures r.Ok? ==> r.value == values && forall v :: v in values ==> WriteValues(env, policy, model, v, Create).Ok?
  {
    if values == [] then Ok([])
    else
      var first :- WriteValues(env, policy, model, values[0], Create);
      var rest :- WriteValuesList(env, policy, model, values[1..]);
      Ok([Obj(first)] + rest)
  }

  function PrepareCreate(env: Env, store: Store, payload: Object): Result<Prepared, Error> {
    var model :- ModelName(payload);
    var policy :- Admitted(env, model, Create);
    var value := Get(payload, "values");
    var values := if value.Arr? then value.items else [value];
    if values == [] || exists v :: v in values && !v.Obj? then Err(Error("invalid_values", 400))
    else if |values| > env.profile.maxBatchSize then Err(Error("batch_too_large", 413))
    else
      var normalized :- WriteValuesList(env, policy, model, values);
      Ok(Prepared(map["model" := Str(model), "values" := Arr(normalized)], Medium, |values|))
  }

  function PrepareUpdate(env: Env, store: Store, payload: Object): Result<Prepared, Error> {
    var model :- ModelName(payload);
    var policy :- Admitted(env, model, Write);
    var ids :- ParseIds(Get(payload, "ids"), env.profile.maxBatchSize, false);
    var values :- WriteValues(env, policy, model, Get(payload, "values"), Write);
    var records :- RecordsInPolicy(env, store, policy, model, ids, Write);
    Ok(Prepared(map["model" := Str(model), "ids" := Arr(Items(records)), "values" := Obj(values)], Medium, |records|))
  }

  function PrepareDelete(env: Env, store: Store, payload: Object): Result<Prepared, Error> {
    var model :- ModelName(payload);
    var policy :- Admitted(env, model, Unlink);
    var ids :- ParseIds(Get(payload, "ids"), env.profile.maxBatchSize, false);
    var records :- RecordsInPolicy(env, store, policy, model, ids, Unlink);
    Ok(Prepared(map["model" := Str(model), "ids" := Arr(Items(records))], High, |records|))
  }

  /** The single writable record that a message, an activity or an attachment goes to. */
  function TargetRecord(env: Env, store: Store, payload: Object): Result<(string, nat), Error> {
    var model :- ModelName(payload);
    var policy :- Admitted(env, model, Write);
    var id :- PositiveInt(Get(payload, "id"));
    var records :- RecordsInPolicy(env, store, policy, model, [id], Write);
    Ok((model, id))
  }

  function PrepareMessage(env: Env, store: Store, payload: Object): Result<Prepared, Error> {
    if !env.profile.allowChatter then Err(POLICY_DENIED)
    else
      var target :- TargetRecord(env, store, payload);
      var body := Get(payload, "body");
      if !env.odoo.hasMethod(target.0, "message_post") then Err(Error("unsupported_model", 400))
      else if !body.Str? || env.odoo.isBlank(body.s) || |body.s| > 20000 then Err(Error("invalid_message", 400))
      else Ok(Prepared(map["model" := Str(target.0), "id" := Int(target.1), "body" := body], Low, 1))
  }

  function PrepareActivity(env: Env, store: Store, payload: Object): Result<Prepared, Error> {
    if !env.profile.allowActivities then Err(POLICY_DENIED)
    else
      var target :- TargetRecord(env, store, payload);
      var kind := GetOr(payload, "activity_type", Str(DEFAULT_ACTIVITY));
      var summary, note := GetOr(payload, "summary", Str("")), GetOr(payload, "note", Str(""));
      if !env.odoo.hasMethod(target.0, "activity_schedule") then Err(Error("unsupported_model", 400))
      else if !kind.Str? || '.' !in kind.s then Err(Error("invalid_activity", 400))
      else if !summary.Str? || !note.Str? then Err(Error("invalid_activity", 400))
      else
        Ok(Prepared(ActivityForm(target.0, target.1, kind, Take(summary.s, 512), Take(note.s, 20000),
                                 Get(payload, "date_deadline"), Get(payload, "user_id")), Low, 1))
  }

  function ActivityForm(model: string, id: nat, kind: Json, summary: string, note: string, deadline: Json, user: Json)
      : (form: Object)
    ensures form.Keys == {"model", "id", "activity_type", "summary", "note", "date_deadline", "user_id"}
    ensures Get(form, "model") == Str(model) && Get(form, "id") == Int(id)
    ensures form["activity_type"] == kind && form["summary"] == Str(summary) && form["note"] == Str(note)
    ensures form["date_deadline"] == deadline && form["user_id"] == user
  {
    map["model" := Str(model), "id" := Int(id), "activity_type" := kind, "summary" := Str(summary),
        "note" := Str(note), "date_deadline" := deadline, "user_id" := user]
  }

  function PrepareAttachment(env: Env, store: Store, payload: Object): Result<Prepared, Error> {
    if !env.profile.allowAttachments then Err(POLICY_DENIED)
    else
      var target :- TargetRecord(env, store, payload);
      var name, content, mimetype := Get(payload, "name"), Get(payload, "content_base64"), Get(payload, "mimetype");
      if !name.Str? || env.odoo.isBlank(name.s) || |name.s| > 255 then Err(Error("invalid_attachment", 400))
      else if !content.Str? then Err(Error("invalid_attachment", 400))
      else if env.odoo.decodedSize(content.s).None? then Err(Error("invalid_base64", 400))
      else if env.odoo.decodedSize(content.s).value > env.maxBinaryBytes then Err(Error("payload_too_large", 413))
      else
        Ok(Prepared(
             map["model" := Str(target.0), "id" := Int(target.1), "name" := name,
                 "mimetype" := if Truthy(mimetype) then mimetype else Str(DEFAULT_MIMETYPE),
                 "content_base64" := content],
             Medium, 1))
  }

  /** The first active policy for a method. */
  function FindMethod(methods: seq<MethodPolicy>, model: string, name: string): (m: Option<MethodPolicy>)
    ensures m.Some? ==> m.value in methods && m.value.active && m.value.model == model && m.value.method_ == name
    ensures m.None? ==> forall n :: n in methods && n.active && n.model == model ==> n.method_ != name
  {
    if methods == [] then None
    else if methods[0].active && methods[0].model == model && methods[0].method_ == name then Some(methods[0])
    else FindMethod(methods[1..], model, name)
  }

  function PrepareMethod(env: Env, store: Store, payload: Object): Result<Prepared, Error> {
    var model :- ModelName(payload);
    var name := Get(payload, "method");
    if !name.Str? || (name.s != "" && name.s[0] == '_') then Err(POLICY_DENIED)
    else if FindMethod(env.profile.methods, model, name.s).None? then Err(POLICY_DENIED)
    else
      var m := FindMethod(env.profile.methods, model, name.s).value;
      var policy :- Admitted(env, model, Read);
      var ids :- ParseIds(GetOr(payload, "ids", Arr([])), m.maxRecordCount, true);
      var records :- if ids == [] then Ok([]) else RecordsInPolicy(env, store, policy, model, ids, Read);
      var args, kwargs := GetOr(payload, "args", Arr([])), GetOr(payload, "kwargs", Obj(map[]));
      if !env.odoo.hasMethod(model, name.s) then Err(Error("not_found", 404))
      else if !args.Arr? || !kwargs.Obj? then Err(Error("invalid_arguments", 400))
      else if ids == [] && !m.allowModelMethod then Err(POLICY_DENIED)
      else if args.items != [] && !m.allowPositional then Err(POLICY_DENIED)
      else if !(kwargs.fields.Keys <= m.keywords) then Err(POLICY_DENIED)
      else if env.odoo.canonicalSize(Obj(map["args" := args, "kwargs" := kwargs])) > m.maxArgumentBytes then
        Err(Error("payload_too_large", 413))
      else
        Ok(Prepared(
             map["model" := Str(model), "ids" := Arr(Items(ids)), "method" := name, "args" := args, "kwargs" := kwargs],
             m.risk, |ids|))
  }

  /** _prepare_action. */
  function Prepare(env: Env, store: Store, action: Action, payload: Object): Result<Prepared, Error> {
    match action
    case RecordCreate => PrepareCreate(env, store, payload)
    case RecordUpdate => PrepareUpdate(env, store, payload)
    case RecordDelete => PrepareDelete(env, store, payload)
    case MessagePost => PrepareMessage(env, store, payload)
    case ActivitySchedule => PrepareActivity(env, store, payload)
    case AttachmentCreate => PrepareAttachment(env, store, payload)
    case MethodCall => PrepareMethod(env, store, payload)
  }

  /** The keys of each action's normal form. */
  function NormalKeys(action: Action): set<string> {
    match action
    case RecordCreate => {"model", "values"}
    case RecordUpdate => {"model", "ids", "values"}
    case RecordDelete => {"model", "ids"}
    case MessagePost => {"model", "id", "body"}
    case ActivitySchedule => {"model", "id", "activity_type", "summary", "note", "date_deadline", "user_id"}
    case AttachmentCreate => {"model", "id", "name", "mimetype", "content_base64"}
    case MethodCall => {"model", "ids", "method", "args", "kwargs"}
  }

  lemma NormalFormKeys(env: Env, store: Store, action: Action, payload: Object)
    ensures Prepare(env, store, action, payload).Ok? ==>
              Prepare(env, store, action, payload).value.normalized.Keys == NormalKeys(action)
  {
    hide RecordsInPolicy;
    hide ParseIds;
    hide WriteValues;
    hide WriteValuesList;
    hide Admit;
  }

  lemma KeysTellActions(a: Action, b: Action)
    requires NormalKeys(a) == NormalKeys(b)
    ensures a == b
  {
    assert ("values" in NormalKeys(a)) == ("values" in NormalKeys(b));
    assert ("ids" in NormalKeys(a)) == ("ids" in NormalKeys(b));
    assert ("body" in NormalKeys(a)) == ("body" in NormalKeys(b));
    assert ("note" in NormalKeys(a)) == ("note" in NormalKeys(b));
    assert ("name" in NormalKeys(a)) == ("name" in NormalKeys(b));
    assert ("method" in NormalKeys(a)) == ("method" in NormalKeys(b));
  }

  /** Two requests with equal normal forms ask for the same action. */
  lemma SameFormSameAction(env: Env, store: Store, a: Action, p: Object, env': Env, store': Store, b: Action, q: Object)
    requires Prepare(env, store, a, p).Ok? && Prepare(env', store', b, q).Ok?
    requires Prepare(env, store, a, p).value.normalized == Prepare(env', store', b, q).value.normalized
    ensures a == b
  {
    NormalFormKeys(env, store, a, p);
    NormalFormKeys(env', store', b, q);
    KeysTellActions(a, b);
  }

  /** A sequence has as many elements as its set exactly when none is repeated. */
  lemma {:induction false} SetSize<T>(xs: seq<T>)
    ensures |AsSet(xs)| <= |xs|
    ensures Distinct(xs) <==> |AsSet(xs)| == |xs|
  {
    if xs != [] {
      var rest := xs[1..];
      SetSize(rest);
      assert AsSet(xs) == {xs[0]} + AsSet(rest);
      if xs[0] in rest {
        assert AsSet(xs) == AsSet(rest);
        var j :| 0 <= j < |rest| && rest[j] == xs[0];
        assert xs[j + 1] == xs[0];
      } else {
        assert Distinct(xs) <==> Distinct(rest) by {
          if Distinct(xs) {
            assert forall i, j :: 0 <= i < j < |rest| ==> rest[i] == xs[i + 1] && rest[j] == xs[j + 1];
          }
        }
      }
    }
  }

  lemma {:induction false} SameMatches(rows: seq<Row>, d: Domain, d': Domain)
    requires forall id, values :: d(id, values) == d'(id, values)
    ensures Matching(rows, d) == Matching(rows, d')
  {
    if rows != [] {
      SameMatches(rows[1..], d, d');
    }
  }

  /** What is found is the asked-for set, without repetition, inside the forced domain, and open to the
      user's own access rights. */
  lemma FoundIsAsked(env: Env, store: Store, policy: Policy, model: string, ids: seq<nat>, operation: Operation)
    requires Distinct(ids) && RecordsInPolicy(env, store, policy, model, ids, operation).Ok?
    ensures var found := RecordsInPolicy(env, store, policy, model, ids, operation).value;
            && AsSet(found) == AsSet(ids) && |found| == |ids| && Distinct(found)
            && InDomain(store, policy, model, found) && Accessible(env, store, model, operation, found)
  {
    var all := Matching(Table(store, model), Scope(ids, policy));
    var found := Take(all, |ids|);
    SetSize(ids);
    SetSize(found);
    forall id | id in found
      ensures RecordIn(store, policy, model, id)
    {
      assert id in all;
    }
  }

  /** Odoo grants the user an operation on each of these records. */
  predicate Accessible(env: Env, store: Store, model: string, operation: Operation, ids: seq<nat>) {
    forall id :: id in ids ==> env.odoo.recordAcl(store, model, operation, id)
  }

  /** Record id of a model exists, and is inside the forced domain if the policy is an explicit one. */
  ghost predicate RecordIn(store: Store, policy: Policy, model: string, id: nat) {
    exists i :: 0 <= i < |Table(store, model)|
      && Table(store, model)[i].id == id
      && (policy.Explicit? ==> policy.policy.forcedDomain(id, Table(store, model)[i].values))
  }

  ghost predicate InDomain(store: Store, policy: Policy, model: string, ids: seq<nat>) {
    forall id :: id in ids ==> RecordIn(store, policy, model, id)
  }

  /** Looking again for what was found finds it again, in the same order. */
  lemma FindAgain(env: Env, store: Store, policy: Policy, model: string, ids: seq<nat>, operation: Operation)
    requires Distinct(ids) && RecordsInPolicy(env, store, policy, model, ids, operation).Ok?
    ensures var found := RecordsInPolicy(env, store, policy, model, ids, operation).value;
            RecordsInPolicy(env, store, policy, model, found, operation) == Ok(found)
  {
    var found := RecordsInPolicy(env, store, policy, model, ids, operation).value;
    FoundIsAsked(env, store, policy, model, ids, operation);
    forall id: nat, values: Object
      ensures Scope(ids, policy)(id, values) == Scope(found, policy)(id, values)
    {
      assert id in AsSet(ids) <==> id in AsSet(found);
    }
    SameMatches(Table(store, model), Scope(ids, policy), Scope(found, policy));
  }

  /** A normalized list of ids is accepted as it is. */
  lemma ParseAgain(ids: seq<nat>, maxCount: nat, allowEmpty: bool)
    requires Distinct(ids) && |ids| <= maxCount && (forall id :: id in ids ==> 0 < id) && (ids != [] || allowEmpty)
    ensures ParseIds(Arr(Items(ids)), maxCount, allowEmpty) == Ok(ids)
  {
    var items := Items(ids);
    forall i | 0 <= i < |items|
      ensures IdItem(items[i])
    {
      assert ids[i] in ids;
    }
    assert Distinct(items);
    assert Ids(items) == ids;
  }

  /** Ids that _parse_ids may return. */
  predicate Acceptable(ids: seq<nat>, maxCount: nat, allowEmpty: bool) {
    Distinct(ids) && |ids| <= maxCount && (forall id :: id in ids ==> 0 < id) && (ids != [] || allowEmpty)
  }

  /** Exactly the lists of distinct positive ids within the bounds are accepted, as they are, and a
      missing list where none is needed. */
  lemma ParseIdsExactly(value: Json, maxCount: nat, allowEmpty: bool, ids: seq<nat>)
    ensures ParseIds(value, maxCount, allowEmpty) == Ok(ids) <==>
              || (Acceptable(ids, maxCount, allowEmpty) && value == Arr(Items(ids)))
              || (value.Null? && allowEmpty && ids == [])
  {
    if Acceptable(ids, maxCount, allowEmpty) && value == Arr(Items(ids)) {
      ParseAgain(ids, maxCount, allowEmpty);
    }
  }

  /** Preparing is idempotent, action by action: the normal form of a payload is its own normal
      form, so what execution re-prepares is what was hashed and approved. */
  lemma PreparedAgain(env: Env, store: Store, action: Action, payload: Object)
    requires Prepare(env, store, action, payload).Ok?
    ensures Prepare(env, store, action, Prepare(env, store, action, payload).value.normalized)
            == Prepare(env, store, action, payload)
  {
    match action
    case RecordCreate => CreateAgain(env, store, payload);
    case RecordUpdate => UpdateAgain(env, store, payload);
    case RecordDelete => DeleteAgain(env, store, payload);
    case MessagePost => MessageAgain(env, store, payload);
    case ActivitySchedule => ActivityAgain(env, store, payload);
    case AttachmentCreate => AttachmentAgain(env, store, payload);
    case MethodCall => MethodAgain(env, store, payload);
  }

  lemma CreateAgain(env: Env, store: Store, payload: Object)
    requires PrepareCreate(env, store, payload).Ok?
    ensures PrepareCreate(env, store, PrepareCreate(env, store, payload).value.normalized)
            == PrepareCreate(env, store, payload)
  {
  }

  lemma UpdateAgain(env: Env, store: Store, payload: Object)
    requires PrepareUpdate(env, store, payload).Ok?
    ensures PrepareUpdate(env, store, PrepareUpdate(env, store, payload).value.normalized)
            == PrepareUpdate(env, store, payload)
  {
    var model := ModelName(payload).value;
    var policy := Admitted(env, model, Write).value;
    var ids := ParseIds(Get(payload, "ids"), env.profile.maxBatchSize, false).value;
    RefindIds(env, store, policy, model, ids, env.profile.maxBatchSize, Write);
  }

  /** Normalized ids are parsed and found again unchanged. */
  lemma RefindIds(env: Env, store: Store, policy: Policy, model: string, ids: seq<nat>, maxCount: nat,
                  operation: Operation)
    requires Distinct(ids) && ids != [] && |ids| <= maxCount && (forall id :: id in ids ==> 0 < id)
    requires RecordsInPolicy(env, store, policy, model, ids, operation).Ok?
    ensures var found := RecordsInPolicy(env, store, policy, model, ids, operation).value;
            && ParseIds(Arr(Items(found)), maxCount, false) == Ok(found)
            && RecordsInPolicy(env, store, policy, model, found, operation) == Ok(found)
  {
    var found := RecordsInPolicy(env, store, policy, model, ids, operation).value;
    FoundIsAsked(env, store, policy, model, ids, operation);
    FindAgain(env, store, policy, model, ids, operation);
    forall id | id in found
      ensures 0 < id
    {
      assert id in AsSet(found);
      assert id in AsSet(ids);
    }
    ParseAgain(found, maxCount, false);
  }

  lemma DeleteAgain(env: Env, store: Store, payload: Object)
    requires PrepareDelete(env, store, payload).Ok?
    ensures PrepareDelete(env, store, PrepareDelete(env, store, payload).value.normalized)
            == PrepareDelete(env, store, payload)
  {
    var model := ModelName(payload).value;
    var policy := Admitted(env, model, Unlink).value;
    var ids := ParseIds(Get(payload, "ids"), env.profile.maxBatchSize, false).value;
    RefindIds(env, store, policy, model, ids, env.profile.maxBatchSize, Unlink);
  }

  lemma MessageAgain(env: Env, store: Store, payload: Object)
    requires PrepareMessage(env, store, payload).Ok?
    ensures PrepareMessage(env, store, PrepareMessage(env, store, payload).value.normalized)
            == PrepareMessage(env, store, payload)
  {
    hide RecordsInPolicy;
    hide Admit;
  }

  lemma ActivityAgain(env: Env, store: Store, payload: Object)
    requires PrepareActivity(env, store, payload).Ok?
    ensures PrepareActivity(env, store, PrepareActivity(env, store, payload).value.normalized)
            == PrepareActivity(env, store, payload)
  {
    hide RecordsInPolicy;
    hide Admit;
    hide ActivityForm;
  }

  lemma AttachmentAgain(env: Env, store: Store, payload: Object)
    requires PrepareAttachment(env, store, payload).Ok?
    ensures PrepareAttachment(env, store, PrepareAttachment(env, store, payload).value.normalized)
            == PrepareAttachment(env, store, payload)
  {
    hide RecordsInPolicy;
    hide Admit;
  }

  lemma MethodAgain(env: Env, store: Store, payload: Object)
    requires PrepareMethod(env, store, payload).Ok?
    ensures PrepareMethod(env, store, PrepareMethod(env, store, payload).value.normalized)
            == PrepareMethod(env, store, payload)
  {
    hide RecordsInPolicy;
    hide Admit;
    hide FindMethod;
    hide ParseIds;
    var model := ModelName(payload).value;
    var m := FindMethod(env.profile.methods, model, Get(payload, "method").s).value;
    ParseAgain(ParseIds(GetOr(payload, "ids", Arr([])), m.maxRecordCount, true).value, m.maxRecordCount, true);
  }

  function ItemsOf(j: Json): seq<Json> {
    if j.Arr? then j.items else []
  }

  function IdsOf(j: Json): seq<nat> {
    if forall i :: 0 <= i < |ItemsOf(j)| ==> IdItem(ItemsOf(j)[i]) then Ids(ItemsOf(j)) else []
  }

  const ORM_FAILURE := Error("internal_error", 500)
  const OUT_OF_SCOPE := Error("policy_postcondition_failed", 403)

  /** What running an action left behind, whether or not it succeeded. */
  datatype Attempt = Attempt(store: Store, result: Result<Effect, Error>)

  /** _enforce_forced_domain_postcondition: filtering by the forced domain drops none of the records. */
  predicate KeepsAll(store: Store, policy: Policy, model: string, ids: seq<nat>) {
    AsSet(Matching(Table(store, model), Scope(ids, policy))) == AsSet(ids)
  }

  lemma KeptExactly(store: Store, policy: Policy, model: string, ids: seq<nat>)
    ensures KeepsAll(store, policy, model, ids) <==> InDomain(store, policy, model, ids)
  {
    var kept := Matching(Table(store, model), Scope(ids, policy));
    forall id | id in ids
      ensures id in kept <==> RecordIn(store, policy, model, id)
    {
    }
    assert forall id :: id in AsSet(kept) <==> id in kept;
    assert forall id :: id in AsSet(ids) <==> id in ids;
  }

  /** A database failure, or the postcondition that every target is still in the forced domain. */
  function Checked<T>(wrote: Wrote<T>, policy: Policy, effect: Effect): Attempt {
    Attempt(wrote.store,
            if wrote.value.None? then Err(ORM_FAILURE)
            else if !KeepsAll(wrote.store, policy, effect.model, effect.ids) then Err(OUT_OF_SCOPE)
            else Ok(effect))
  }

  /** What the checks after a write come to, said of each record by itself. */
  ghost function Ended<T>(wrote: Wrote<T>, policy: Policy, effect: Effect): Attempt {
    Attempt(wrote.store,
            if wrote.value.None? then Err(ORM_FAILURE)
            else if !InDomain(wrote.store, policy, effect.model, effect.ids) then Err(OUT_OF_SCOPE)
            else Ok(effect))
  }

  lemma CheckedExactly<T>(wrote: Wrote<T>, policy: Policy, effect: Effect)
    ensures Checked(wrote, policy, effect) == Ended(wrote, policy, effect)
  {
    hide KeepsAll;
    hide InDomain;
    KeptExactly(wrote.store, policy, effect.model, effect.ids);
  }

  function Unchecked(wrote: Wrote<()>, effect: Effect): Attempt {
    Attempt(wrote.store, if wrote.value.None? then Err(ORM_FAILURE) else Ok(effect))
  }

  /** Every check _execute_action makes before it writes: the payload is prepared afresh, and the
      policy and the records are looked up again.  It yields the policy, the model, the records the
      action is about to touch and the normal form. */
  function Ready(env: Env, store: Store, action: Action, payload: Object)
      : Result<(Policy, string, seq<nat>, Object), Error>
  {
    var prepared :- Prepare(env, store, action, payload);
    var n := prepared.normalized;
    var model :- ModelName(n);
    match action
    case RecordCreate =>
      var policy :- Admitted(env, model, Create);
      Ok((policy, model, [], n))
    case RecordUpdate =>
      var policy :- Admitted(env, model, Write);
      var records :- RecordsInPolicy(env, store, policy, model, IdsOf(Get(n, "ids")), Write);
      Ok((policy, model, records, n))
    case RecordDelete =>
      var policy :- Admitted(env, model, Unlink);
      var records :- RecordsInPolicy(env, store, policy, model, IdsOf(Get(n, "ids")), Unlink);
      Ok((policy, model, records, n))
    case MethodCall =>
      var policy :- Admitted(env, model, Read);
      var ids := IdsOf(Get(n, "ids"));
      var records :- if ids == [] then Ok([]) else RecordsInPolicy(env, store, policy, model, ids, Read);
      Ok((policy, model, records, n))
    case _ =>
      var policy :- Admitted(env, model, Write);
      var id :- PositiveInt(Get(n, "id"));
      var records :- RecordsInPolicy(env, store, policy, model, [id], Write);
      var _ :- if action.ActivitySchedule? && Truthy(Get(n, "user_id")) then PositiveInt(Get(n, "user_id")) else Ok(1);
      Ok((policy, model, [id], n))
  }

  /** _execute_action. */
  function Execute(env: Env, store: Store, action: Action, payload: Object): Attempt {
    match Ready(env, store, action, payload)
    case Err(e) => Attempt(store, Err(e))
    case Ok((policy, model, records, n)) =>
      var values := Get(n, "values");
      match action
      case RecordCreate =>
        var wrote := env.odoo.create(store, model, ItemsOf(values));
        Checked(wrote, policy, Effect(model, if wrote.value.Some? then wrote.value.value else []))
      case RecordUpdate =>
        Checked(env.odoo.write(store, model, records, if values.Obj? then values.fields else map[]),
                policy, Effect(model, records))
      case RecordDelete => Unchecked(env.odoo.unlink(store, model, records), Effect(model, records))
      case _ => Unchecked(env.odoo.call(store, action, n), Effect(model, records))
  }

  lemma ExecuteIs(env: Env, store: Store, action: Action, payload: Object)
    ensures var ready := Ready(env, store, action, payload);
            Execute(env, store, action, payload) ==
            if ready.Err? then Attempt(store, Err(ready.error))
            else
              var (policy, model, records, n) := ready.value;
              var values := Get(n, "values");
              match action
              case RecordCreate =>
                var wrote := env.odoo.create(store, model, ItemsOf(values));
                Ended(wrote, policy, Effect(model, if wrote.value.Some? then wrote.value.value else []))
              case RecordUpdate =>
                Ended(env.odoo.write(store, model, records, if values.Obj? then values.fields else map[]),
                         policy, Effect(model, records))
              case RecordDelete => Unchecked(env.odoo.unlink(store, model, records), Effect(model, records))
              case _ => Unchecked(env.odoo.call(store, action, n), Effect(model, records))
  {
    hide Ready;
    hide Checked;
    hide Ended;
    var ready := Ready(env, store, action, payload);
    if ready.Ok? {
      var (policy, model, records, n) := ready.value;
      var values := Get(n, "values");
      if action == RecordCreate {
        var wrote := env.odoo.create(store, model, ItemsOf(values));
        CheckedExactly(wrote, policy, Effect(model, if wrote.value.Some? then wrote.value.value else []));
      } else if action == RecordUpdate {
        CheckedExactly(env.odoo.write(store, model, records, if values.Obj? then values.fields else map[]),
                       policy, Effect(model, records));
      }
    }
  }

  /** What a successful execution did, in terms of the payload alone. */
  ghost predicate Confined(env: Env, store: Store, action: Action, payload: Object, store': Store, effect: Effect) {
    && Get(payload, "model") == Str(effect.model)
    && match action
       case RecordCreate =>
         && Admitted(env, effect.model, Create).Ok?
         && env.odoo.create(store, effect.model, CreateItems(payload)) == Wrote(store', Some(effect.ids))
         && InDomain(store', Admitted(env, effect.model, Create).value, effect.model, effect.ids)
       case RecordUpdate =>
         && Admitted(env, effect.model, Write).Ok? && Get(payload, "values").Obj?
         && TargetsExactly(env, store, Admitted(env, effect.model, Write).value, payload, effect, Write)
         && Did(env.odoo.write(store, effect.model, effect.ids, Get(payload, "values").fields), store')
         && InDomain(store', Admitted(env, effect.model, Write).value, effect.model, effect.ids)
       case RecordDelete =>
         && Admitted(env, effect.model, Unlink).Ok?
         && TargetsExactly(env, store, Admitted(env, effect.model, Unlink).value, payload, effect, Unlink)
         && Did(env.odoo.unlink(store, effect.model, effect.ids), store')
       case MethodCall =>
         && Called(env, store, action, payload, store')
         && Admitted(env, effect.model, Read).Ok? && Get(payload, "method").Str?
         && InDomain(store, Admitted(env, effect.model, Read).value, effect.model, effect.ids)
         && Accessible(env, store, effect.model, Read, effect.ids)
         && var m := FindMethod(env.profile.methods, effect.model, Get(payload, "method").s);
            && m.Some?
            && var ids := ParseIds(GetOr(payload, "ids", Arr([])), m.value.maxRecordCount, true);
               && ids.Ok? && AsSet(effect.ids) == AsSet(ids.value)
       case _ =>
         && Admitted(env, effect.model, Write).Ok? && |effect.ids| == 1
         && Get(payload, "id") == Int(effect.ids[0])
         && RecordIn(store, Admitted(env, effect.model, Write).value, effect.model, effect.ids[0])
         && env.odoo.recordAcl(store, effect.model, Write, effect.ids[0])
         && Called(env, store, action, payload, store')
  }

  /** The foreign code ran once, on the normal form of the payload. */
  ghost predicate Called(env: Env, store: Store, action: Action, payload: Object, store': Store) {
    var prepared := Prepare(env, store, action, payload);
    prepared.Ok? && Did(env.odoo.call(store, action, prepared.value.normalized), store')
  }

  predicate Did(wrote: Wrote<()>, store': Store) {
    wrote.store == store' && wrote.value.Some?
  }

  function CreateItems(payload: Object): seq<Json> {
    var value := Get(payload, "values");
    if value.Arr? then value.items else [value]
  }

  /** The touched records are the payload's id set, each once, all inside the forced domain and open to
      the user beforehand. */
  ghost predicate TargetsExactly(env: Env, store: Store, policy: Policy, payload: Object, effect: Effect,
                                 operation: Operation)
  {
    && ParseIds(Get(payload, "ids"), env.profile.maxBatchSize, false).Ok?
    && AsSet(effect.ids) == AsSet(ParseIds(Get(payload, "ids"), env.profile.maxBatchSize, false).value)
    && Distinct(effect.ids) && InDomain(store, policy, effect.model, effect.ids)
    && Accessible(env, store, effect.model, operation, effect.ids)
  }

  /** A call within the bounds of its method policy. */
  ghost predicate CallAllowed(env: Env, m: MethodPolicy, payload: Object) {
    var args, kwargs := GetOr(payload, "args", Arr([])), GetOr(payload, "kwargs", Obj(map[]));
    var ids := ParseIds(GetOr(payload, "ids", Arr([])), m.maxRecordCount, true);
    && m.active && Get(payload, "model") == Str(m.model) && Get(payload, "method") == Str(m.method_)
    && (m.method_ == "" || m.method_[0] != '_')
    && ids.Ok? && (ids.value == [] ==> m.allowModelMethod)
    && args.Arr? && (args.items != [] ==> m.allowPositional) && kwargs.Obj? && kwargs.fields.Keys <= m.keywords
    && env.odoo.canonicalSize(Obj(map["args" := args, "kwargs" := kwargs])) <= m.maxArgumentBytes
  }

  /** What the profile lets a client ask for at all. */
  ghost predicate WithinPolicy(env: Env, action: Action, payload: Object) {
    var model := Get(payload, "model");
    && model.Str?
    && match action
       case RecordCreate =>
         && 1 <= |CreateItems(payload)| <= env.profile.maxBatchSize
         && Admitted(env, model.s, Create).Ok?
         && forall v :: v in CreateItems(payload) ==>
              Writable(env, Admitted(env, model.s, Create).value, model.s, Create, v)
       case RecordUpdate =>
         && ParseIds(Get(payload, "ids"), env.profile.maxBatchSize, false).Ok?
         && Admitted(env, model.s, Write).Ok?
         && Writable(env, Admitted(env, model.s, Write).value, model.s, Write, Get(payload, "values"))
       case RecordDelete => ParseIds(Get(payload, "ids"), env.profile.maxBatchSize, false).Ok?
       case MessagePost =>
         var body := Get(payload, "body");
         && env.profile.allowChatter && env.odoo.hasMethod(model.s, "message_post")
         && body.Str? && !env.odoo.isBlank(body.s) && |body.s| <= 20000
       case ActivitySchedule =>
         var kind := GetOr(payload, "activity_type", Str(DEFAULT_ACTIVITY));
         && env.profile.allowActivities && env.odoo.hasMethod(model.s, "activity_schedule")
         && kind.Str? && '.' in kind.s
         && GetOr(payload, "summary", Str("")).Str? && GetOr(payload, "note", Str("")).Str?
       case AttachmentCreate =>
         var name, content := Get(payload, "name"), Get(payload, "content_base64");
         && env.profile.allowAttachments
         && name.Str? && !env.odoo.isBlank(name.s) && |name.s| <= 255
         && content.Str? && env.odoo.decodedSize(content.s).Some?
         && env.odoo.decodedSize(content.s).value <= env.maxBinaryBytes
       case MethodCall =>
         var name := Get(payload, "method");
         && name.Str? && env.odoo.hasMethod(model.s, name.s)
         && var m := FindMethod(env.profile.methods, model.s, name.s);
            m.Some? && CallAllowed(env, m.value, payload)
  }

  /** The right that an action needs on its model and on its records. */
  function OperationOf(action: Action): Operation {
    match action
    case RecordCreate => Create
    case RecordDelete => Unlink
    case MethodCall => Read
    case _ => Write
  }

  /** The id of a payload for one record. */
  function SingleId(payload: Object): Result<seq<nat>, Error> {
    var id := Get(payload, "id");
    if id.Int? && 0 < id.n then Ok([id.n]) else Err(Error("invalid_integer", 400))
  }

  /** The ids that a payload names, parsed as its action parses them. */
  function NamedIds(env: Env, action: Action, payload: Object): Result<seq<nat>, Error> {
    match action
    case RecordCreate => Ok([])
    case MethodCall =>
      var model, name := Get(payload, "model"), Get(payload, "method");
      var m := if model.Str? && name.Str? then FindMethod(env.profile.methods, model.s, name.s) else None;
      if m.None? then Err(POLICY_DENIED) else ParseIds(GetOr(payload, "ids", Arr([])), m.value.maxRecordCount, true)
    case RecordUpdate => ParseIds(Get(payload, "ids"), env.profile.maxBatchSize, false)
    case RecordDelete => ParseIds(Get(payload, "ids"), env.profile.maxBatchSize, false)
    case _ => SingleId(payload)
  }

  /** The model is open to the action, and each record that the payload names is there for it. */
  ghost predicate Reachable(env: Env, store: Store, action: Action, payload: Object) {
    var model, ids := Get(payload, "model"), NamedIds(env, action, payload);
    && model.Str? && ids.Ok? && Admitted(env, model.s, OperationOf(action)).Ok?
    && var policy := Admitted(env, model.s, OperationOf(action)).value;
       ids.value == [] || RecordsInPolicy(env, store, policy, model.s, ids.value, OperationOf(action)).Ok?
  }

  predicate UniqueIds(rows: seq<Row>) {
    forall i, j :: 0 <= i < j < |rows| ==> rows[i].id != rows[j].id
  }

  lemma {:induction false} MatchesDistinct(rows: seq<Row>, domain: Domain)
    requires UniqueIds(rows)
    ensures Distinct(Matching(rows, domain))
  {
    if rows != [] {
      var rest := rows[1..];
      assert forall i, j :: 0 <= i < j < |rest| ==> rest[i] == rows[i + 1] && rest[j] == rows[j + 1];
      MatchesDistinct(rest, domain);
      forall id | id in Matching(rest, domain)
        ensures id != rows[0].id
      {
        var i :| 0 <= i < |rest| && rest[i].id == id && domain(id, rest[i].values);
        assert rows[i + 1].id == id;
      }
      DistinctCons(rows[0].id, Matching(rest, domain));
    }
  }

  lemma DistinctCons<T>(x: T, xs: seq<T>)
    requires Distinct(xs) && forall y :: y in xs ==> y != x
    ensures Distinct([x] + xs)
  {
    var all := [x] + xs;
    forall i, j | 0 <= i < j < |all|
      ensures all[i] != all[j]
    {
      assert all[j] == xs[j - 1] && xs[j - 1] in xs;
      assert 0 < i ==> all[i] == xs[i - 1];
    }
  }

  lemma SmallerSet<T>(a: set<T>, b: set<T>)
    requires a <= b
    ensures |a| <= |b|
  {
    assert b == a + (b - a);
  }

  /** Records are found exactly when each of them, looked at by itself, is inside the forced domain and
      open to the user; a table's ids are unique. */
  lemma RecordsFoundExactly(env: Env, store: Store, policy: Policy, model: string, ids: seq<nat>, operation: Operation)
    requires Distinct(ids) && UniqueIds(Table(store, model))
    ensures RecordsInPolicy(env, store, policy, model, ids, operation).Ok?
            <==> InDomain(store, policy, model, ids) && Accessible(env, store, model, operation, ids)
  {
    var all := Matching(Table(store, model), Scope(ids, policy));
    MatchesDistinct(Table(store, model), Scope(ids, policy));
    SetSize(all);
    SetSize(ids);
    SmallerSet(AsSet(all), AsSet(ids));
    assert Take(all, |ids|) == all;
    forall id | id in ids
      ensures id in all <==> RecordIn(store, policy, model, id)
    {
    }
    assert AsSet(all) == AsSet(ids) <==> InDomain(store, policy, model, ids) by {
      assert forall id :: id in AsSet(ids) <==> id in ids;
      assert forall id :: id in AsSet(all) <==> id in all;
    }
  }

  /** A request becomes a plan exactly when the policy of that moment permits it and everything it
      names can be reached; an execution prepares its payload again, so that nothing else is executed
      either, not even when the profile became stricter after the approval. */
  lemma PlannedExactly(env: Env, store: Store, action: Action, payload: Object)
    ensures Prepare(env, store, action, payload).Ok?
            <==> WithinPolicy(env, action, payload) && Reachable(env, store, action, payload)
  {
    match action
    case RecordCreate => CreatePlanned(env, store, payload);
    case RecordUpdate => UpdatePlanned(env, store, payload);
    case RecordDelete => DeletePlanned(env, store, payload);
    case MethodCall => MethodPlanned(env, store, payload);
    case _ => TargetPlanned(env, store, action, payload);
  }

  lemma ExecutedWithinPolicy(env: Env, store: Store, action: Action, payload: Object)
    requires Execute(env, store, action, payload).result.Ok?
    ensures WithinPolicy(env, action, payload)
  {
    hide Prepare;
    hide WithinPolicy;
    hide Reachable;
    PlannedExactly(env, store, action, payload);
  }

  /** The objects of values that a create or an update writes. */
  function WrittenValues(action: Action, payload: Object): seq<Json> {
    match action
    case RecordCreate => CreateItems(payload)
    case RecordUpdate => [Get(payload, "values")]
    case _ => []
  }

  /** A field that a write may name: through the fallback no sensitive, binary, magic or read-only one;
      through an explicit policy a configured one, and a binary one only if the policy says so. */
  ghost predicate FieldConfined(env: Env, model: string, operation: Operation, name: string) {
    var described := env.odoo.fieldsGet(model);
    && Admitted(env, model, operation).Ok? && name in described && name in env.odoo.fields(model)
    && name !in WRITE_MAGIC_FIELDS && !env.odoo.fields(model)[name].readonly && env.odoo.fieldAccess(model, name)
    && match Admitted(env, model, operation).value
       case Fallback(_) => !Sensitive(name) && described[name].kind != "binary" && !described[name].readonly
       case Explicit(p) => name in p.writeFields && (described[name].kind == "binary" ==> p.allowBinaryWrite)
  }

  /** Every field that an executed create or update wrote is one that the policy of that moment opens. */
  lemma ExecutedFields(env: Env, store: Store, action: Action, payload: Object, value: Json, name: string)
    requires Execute(env, store, action, payload).result.Ok?
    requires value in WrittenValues(action, payload) && value.Obj? && name in value.fields
    ensures var model := Execute(env, store, action, payload).result.value.model;
            FieldConfined(env, model, if action == RecordCreate then Create else Write, name)
  {
    hide Execute;
    hide Admit;
    hide Sensitive;
    ExecutedWithinPolicy(env, store, action, payload);
    ExecutedModel(env, store, action, payload);
    var model := Get(payload, "model").s;
    var operation := if action == RecordCreate then Create else Write;
    assert Writable(env, Admitted(env, model, operation).value, model, operation, value);
    assert MayWrite(env, Admitted(env, model, operation).value, model, operation, name);
  }

  lemma ExecutedModel(env: Env, store: Store, action: Action, payload: Object)
    requires Execute(env, store, action, payload).result.Ok?
    ensures Get(payload, "model") == Str(Execute(env, store, action, payload).result.value.model)
  {
    hide Execute;
    hide TargetsExactly;
    hide InDomain;
    hide Called;
    ExecuteConfined(env, store, action, payload);
  }

  lemma {:induction false} ListAccepted(env: Env, policy: Policy, model: string, values: seq<Json>)
    ensures WriteValuesList(env, policy, model, values).Ok?
            <==> forall v :: v in values ==> WriteValues(env, policy, model, v, Create).Ok?
  {
    hide WriteValues;
    if values != [] {
      ListAccepted(env, policy, model, values[1..]);
      assert values == [values[0]] + values[1..];
    }
  }

  /** Whatever model enforcement admits has a proper name. */
  lemma ProperName(env: Env, payload: Object, operation: Operation)
    ensures var model := Get(payload, "model");
            model.Str? && Admitted(env, model.s, operation).Ok? ==> ModelName(payload) == Ok(model.s)
  {
  }

  lemma CreatePlanned(env: Env, store: Store, payload: Object)
    ensures PrepareCreate(env, store, payload).Ok?
            <==> WithinPolicy(env, RecordCreate, payload) && Reachable(env, store, RecordCreate, payload)
  {
    hide Admit;
    hide WriteValues;
    hide WriteValuesList;
    hide Writable;
    hide RecordsInPolicy;
    hide ValidName;
    ProperName(env, payload, Create);
    var model := ModelName(payload);
    if model.Ok? && Admitted(env, model.value, Create).Ok? {
      var policy := Admitted(env, model.value, Create).value;
      ListAccepted(env, policy, model.value, CreateItems(payload));
      forall v | v in CreateItems(payload)
        ensures WriteValues(env, policy, model.value, v, Create).Ok? <==> Writable(env, policy, model.value, Create, v)
        ensures Writable(env, policy, model.value, Create, v) ==> v.Obj?
      {
        AcceptedExactly(env, policy, model.value, v, Create);
        WritableIsObject(env, policy, model.value, Create, v);
      }
    }
  }

  lemma WritableIsObject(env: Env, policy: Policy, model: string, operation: Operation, value: Json)
    ensures Writable(env, policy, model, operation, value) ==> value.Obj?
  {
  }

  lemma UpdatePlanned(env: Env, store: Store, payload: Object)
    ensures PrepareUpdate(env, store, payload).Ok?
            <==> WithinPolicy(env, RecordUpdate, payload) && Reachable(env, store, RecordUpdate, payload)
  {
    hide Admit;
    hide RecordsInPolicy;
    hide ParseIds;
    hide WriteValues;
    hide Writable;
    hide ValidName;
    ProperName(env, payload, Write);
    var model := ModelName(payload);
    if model.Ok? && Admitted(env, model.value, Write).Ok? {
      AcceptedExactly(env, Admitted(env, model.value, Write).value, model.value, Get(payload, "values"), Write);
    }
  }

  lemma DeletePlanned(env: Env, store: Store, payload: Object)
    ensures PrepareDelete(env, store, payload).Ok?
            <==> WithinPolicy(env, RecordDelete, payload) && Reachable(env, store, RecordDelete, payload)
  {
    hide Admit;
    hide RecordsInPolicy;
    hide ParseIds;
    hide ValidName;
    ProperName(env, payload, Unlink);
  }

  lemma MethodPlanned(env: Env, store: Store, payload: Object)
    ensures PrepareMethod(env, store, payload).Ok?
            <==> WithinPolicy(env, MethodCall, payload) && Reachable(env, store, MethodCall, payload)
  {
    hide Admit;
    hide RecordsInPolicy;
    hide ParseIds;
    hide ValidName;
    ProperName(env, payload, Read);
  }

  lemma TargetReachable(env: Env, store: Store, action: Action, payload: Object)
    requires action.MessagePost? || action.ActivitySchedule? || action.AttachmentCreate?
    ensures var target := TargetRecord(env, store, payload);
            && (target.Ok? <==> Reachable(env, store, action, payload))
            && (target.Ok? ==> Get(payload, "model") == Str(target.value.0))
  {
    hide Admit;
    hide RecordsInPolicy;
    hide ParseIds;
    hide ValidName;
    ProperName(env, payload, Write);
  }

  lemma TargetPlanned(env: Env, store: Store, action: Action, payload: Object)
    requires action.MessagePost? || action.ActivitySchedule? || action.AttachmentCreate?
    ensures Prepare(env, store, action, payload).Ok?
            <==> WithinPolicy(env, action, payload) && Reachable(env, store, action, payload)
  {
    hide TargetRecord;
    hide Reachable;
    hide ActivityForm;
    TargetReachable(env, store, action, payload);
  }

  /** The records that a create or an update has written. */
  function WrittenIds(env: Env, store: Store, action: Action, ready: (Policy, string, seq<nat>, Object)): seq<nat> {
    if action == RecordCreate then
      var created := env.odoo.create(store, ready.1, ItemsOf(Get(ready.3, "values"))).value;
      if created.Some? then created.value else []
    else ready.2
  }

  /** The one check that comes after a write is the domain postcondition of creates and updates.  So
      an execution that fails and leaves another store had passed every check before its write, and
      failed in the database or, as a create or an update, in that postcondition, which then is
      false of the store it left. */
  lemma OnlyThePostconditionComesLate(env: Env, store: Store, action: Action, payload: Object)
    requires var r := Execute(env, store, action, payload); r.result.Err? && r.store != store
    ensures var r, ready := Execute(env, store, action, payload), Ready(env, store, action, payload);
            && ready.Ok?
            && (r.result.error == ORM_FAILURE
                || (&& r.result.error == OUT_OF_SCOPE && (action == RecordCreate || action == RecordUpdate)
                    && !InDomain(r.store, ready.value.0, ready.value.1, WrittenIds(env, store, action, ready.value))))
  {
    hide Ready;
    hide InDomain;
    hide Execute;
    ExecuteIs(env, store, action, payload);
  }

  /** A profile with one explicit policy, which lets clients create records of model "m" with the one
      field "f", and keeps every record out of its forced domain; and an Odoo that creates record 1. */
  function ClosedDomain(): Env {
    var policy := ModelPolicy("m", true, false, true, false, false, false, 0,
                              (id: nat, values: Object) => false, {}, {"f"}, false, false);
    var profile := Profile([policy], [], ExplicitOnly, false, false, false, false, false, false, false, 1, 1, 1);
    var odoo := Odoo(
      (m: string, o: Operation) => true,
      (s: Store, m: string, o: Operation, id: nat) => true,
      (m: string) => map["f" := Description("char", false)],
      (m: string) => map["f" := Field(false)],
      (m: string, f: string) => true,
      (m: string, f: string) => false,
      (text: string) => false,
      (text: string) => None,
      (j: Json) => 0,
      (s: Store, m: string, values: seq<Json>) => Wrote(map["m" := [Row(1, map[])]], Some([1])),
      (s: Store, m: string, ids: seq<nat>, values: Object) => Wrote(s, None),
      (s: Store, m: string, ids: seq<nat>) => Wrote(s, None),
      (s: Store, action: Action, form: Object) => Wrote(s, None));
    Env(profile, Catalogue(map[], {"m"}), odoo, 0)
  }

  /** The postcondition does come late: here a create is refused after the store has changed, and
      what undoes it is the caller's savepoint. */
  lemma PostconditionFailsAfterTheWrite()
    ensures var payload := map["model" := Str("m"), "values" := Obj(map["f" := Int(1)])];
            Execute(ClosedDomain(), map[], RecordCreate, payload)
            == Attempt(map["m" := [Row(1, map[])]], Err(OUT_OF_SCOPE))
  {
    var env, values := ClosedDomain(), Obj(map["f" := Int(1)]);
    var payload := map["model" := Str("m"), "values" := values];
    var policy := Explicit(env.profile.policies[0]);
    assert ModelName(payload) == Ok("m");
    assert Admitted(env, "m", Create) == Ok(policy);
    WrittenOnce(env, policy, values);
    var normal := map["model" := Str("m"), "values" := Arr([values])];
    assert PrepareCreate(env, map[], payload) == Ok(Prepared(normal, Medium, 1));
    assert ModelName(normal) == Ok("m");
    assert Ready(env, map[], RecordCreate, payload) == Ok((policy, "m", [], normal));
    OutOfDomain(policy);
    hide Execute;
    hide Ready;
    ExecuteIs(env, map[], RecordCreate, payload);
  }

  lemma WrittenOnce(env: Env, policy: Policy, values: Json)
    requires env == ClosedDomain() && policy == Explicit(env.profile.policies[0])
    requires values == Obj(map["f" := Int(1)])
    ensures WriteValuesList(env, policy, "m", [values]) == Ok([values])
  {
    assert MayWrite(env, policy, "m", Create, "f");
    assert values.fields != map[] by {
      assert "f" in values.fields;
    }
    assert Writable(env, policy, "m", Create, values);
    AcceptedExactly(env, policy, "m", values, Create);
    ListAccepted(env, policy, "m", [values]);
  }

  lemma OutOfDomain(policy: Policy)
    requires policy == Explicit(ClosedDomain().profile.policies[0])
    ensures !InDomain(map["m" := [Row(1, map[])]], policy, "m", [1])
  {
    assert 1 in [1 as nat];
  }

  /** Executing the approved normal form is executing the request it came from, as long as policy
      and data have not changed in between. */
  lemma ApprovedIsExecuted(env: Env, store: Store, action: Action, payload: Object)
    requires Prepare(env, store, action, payload).Ok?
    ensures Execute(env, store, action, Prepare(env, store, action, payload).value.normalized)
            == Execute(env, store, action, payload)
  {
    hide Ready;
    ReadyAgain(env, store, action, payload);
  }

  lemma ReadyAgain(env: Env, store: Store, action: Action, payload: Object)
    requires Prepare(env, store, action, payload).Ok?
    ensures Ready(env, store, action, Prepare(env, store, action, payload).value.normalized)
            == Ready(env, store, action, payload)
  {
    hide Prepare;
    hide Admitted;
    hide RecordsInPolicy;
    hide IdsOf;
    hide ModelName;
    PreparedAgain(env, store, action, payload);
  }

  /** Confinement of every action on every input; what method.call does inside Odoo is not confined
      afterwards, since the source checks no postcondition there. */
  lemma ExecuteConfined(env: Env, store: Store, action: Action, payload: Object)
    requires Execute(env, store, action, payload).result.Ok?
    ensures var r := Execute(env, store, action, payload);
            Confined(env, store, action, payload, r.store, r.result.value)
  {
    match action
    case RecordCreate => CreateConfined(env, store, payload);
    case RecordUpdate => UpdateConfined(env, store, payload);
    case RecordDelete => DeleteConfined(env, store, payload);
    case MethodCall => MethodConfined(env, store, payload);
    case _ => TargetConfined(env, store, action, payload);
  }

  lemma CreateConfined(env: Env, store: Store, payload: Object)
    requires Execute(env, store, RecordCreate, payload).result.Ok?
    ensures var r := Execute(env, store, RecordCreate, payload);
            Confined(env, store, RecordCreate, payload, r.store, r.result.value)
  {
    hide InDomain;
    hide WriteValuesList;
    hide Execute;
    ExecuteIs(env, store, RecordCreate, payload);
  }

  lemma UpdateNormal(env: Env, store: Store, payload: Object)
    requires PrepareUpdate(env, store, payload).Ok?
    ensures var n := PrepareUpdate(env, store, payload).value.normalized;
            && Get(payload, "values").Obj? && Get(n, "values") == Get(payload, "values")
            && NamesRecords(env, store, payload, Write, n)
  {
    hide RecordsInPolicy;
    hide Admit;
    hide ParseIds;
  }

  lemma DeleteNormal(env: Env, store: Store, payload: Object)
    requires PrepareDelete(env, store, payload).Ok?
    ensures NamesRecords(env, store, payload, Unlink, PrepareDelete(env, store, payload).value.normalized)
  {
    hide RecordsInPolicy;
    hide Admit;
    hide ParseIds;
  }

  /** The normal forms of batch actions name the records that the payload's ids were found to be. */
  ghost predicate NamesRecords(env: Env, store: Store, payload: Object, operation: Operation, n: Object) {
    var ids := ParseIds(Get(payload, "ids"), env.profile.maxBatchSize, false);
    && ModelName(payload).Ok? && ids.Ok?
    && var model := ModelName(payload).value;
       && Get(n, "model") == Str(model) && Get(payload, "model") == Str(model) && ModelName(n) == Ok(model)
       && Admitted(env, model, operation).Ok?
       && var policy := Admitted(env, model, operation).value;
          var records := RecordsInPolicy(env, store, policy, model, ids.value, operation);
          records.Ok? && Get(n, "ids") == Arr(Items(records.value))
  }

  /** Looking the named records up again yields them, and they are exactly the payload's targets. */
  lemma NamedTargets(env: Env, store: Store, payload: Object, operation: Operation, n: Object) returns (found: seq<nat>)
    requires NamesRecords(env, store, payload, operation, n)
    ensures var model := ModelName(payload).value;
            var policy := Admitted(env, model, operation).value;
            && IdsOf(Get(n, "ids")) == found
            && RecordsInPolicy(env, store, policy, model, found, operation) == Ok(found)
            && TargetsExactly(env, store, policy, payload, Effect(model, found), operation)
  {
    hide RecordsInPolicy;
    hide Admit;
    hide InDomain;
    hide IdsOf;
    hide AsSet;
    var ids := ParseIds(Get(payload, "ids"), env.profile.maxBatchSize, false).value;
    hide ParseIds;
    var model := ModelName(payload).value;
    var policy := Admitted(env, model, operation).value;
    ReparsedIds(env, store, policy, model, ids, env.profile.maxBatchSize, operation);
    found := RecordsInPolicy(env, store, policy, model, ids, operation).value;
  }

  lemma UpdateConfined(env: Env, store: Store, payload: Object)
    requires Execute(env, store, RecordUpdate, payload).result.Ok?
    ensures var r := Execute(env, store, RecordUpdate, payload);
            Confined(env, store, RecordUpdate, payload, r.store, r.result.value)
  {
    hide PrepareUpdate;
    hide RecordsInPolicy;
    hide Admit;
    hide InDomain;
    hide IdsOf;
    hide TargetsExactly;
    UpdateNormal(env, store, payload);
    var n := PrepareUpdate(env, store, payload).value.normalized;
    var found := NamedTargets(env, store, payload, Write, n);
    var model := ModelName(payload).value;
    var policy := Admitted(env, model, Write).value;
    assert Ready(env, store, RecordUpdate, payload) == Ok((policy, model, found, n));
    hide Execute;
    ExecuteIs(env, store, RecordUpdate, payload);
    assert Execute(env, store, RecordUpdate, payload)
           == Ended(env.odoo.write(store, model, found, Get(payload, "values").fields), policy, Effect(model, found));
  }

  lemma DeleteConfined(env: Env, store: Store, payload: Object)
    requires Execute(env, store, RecordDelete, payload).result.Ok?
    ensures var r := Execute(env, store, RecordDelete, payload);
            Confined(env, store, RecordDelete, payload, r.store, r.result.value)
  {
    hide PrepareDelete;
    hide RecordsInPolicy;
    hide Admit;
    hide InDomain;
    hide IdsOf;
    hide TargetsExactly;
    DeleteNormal(env, store, payload);
    var n := PrepareDelete(env, store, payload).value.normalized;
    var found := NamedTargets(env, store, payload, Unlink, n);
    var model := ModelName(payload).value;
    assert Ready(env, store, RecordDelete, payload) == Ok((Admitted(env, model, Unlink).value, model, found, n));
    assert Execute(env, store, RecordDelete, payload)
           == Unchecked(env.odoo.unlink(store, model, found), Effect(model, found));
  }

  lemma ReparsedIds(env: Env, store: Store, policy: Policy, model: string, ids: seq<nat>, maxCount: nat,
                    operation: Operation)
    requires Distinct(ids) && ids != [] && |ids| <= maxCount && (forall id :: id in ids ==> 0 < id)
    requires RecordsInPolicy(env, store, policy, model, ids, operation).Ok?
    ensures var found := RecordsInPolicy(env, store, policy, model, ids, operation).value;
            && IdsOf(Arr(Items(found))) == found
            && RecordsInPolicy(env, store, policy, model, found, operation) == Ok(found)
            && AsSet(found) == AsSet(ids) && Distinct(found) && InDomain(store, policy, model, found)
            && Accessible(env, store, model, operation, found)
  {
    RefindIds(env, store, policy, model, ids, maxCount, operation);
    FoundIsAsked(env, store, policy, model, ids, operation);
  }

  lemma MethodNormal(env: Env, store: Store, payload: Object)
    requires PrepareMethod(env, store, payload).Ok?
    ensures var n, model := PrepareMethod(env, store, payload).value.normalized, ModelName(payload);
            && model.Ok? && Get(n, "model") == Str(model.value) && Get(payload, "method").Str?
            && Admitted(env, model.value, Read).Ok?
            && var m := FindMethod(env.profile.methods, model.value, Get(payload, "method").s);
               && m.Some?
               && var ids := ParseIds(GetOr(payload, "ids", Arr([])), m.value.maxRecordCount, true);
                  && ids.Ok? && Get(n, "ids") == Arr(Items(ids.value))
                  && (ids.value != [] ==>
                        RecordsInPolicy(env, store, Admitted(env, model.value, Read).value, model.value, ids.value,
                                        Read).Ok?)
  {
    hide RecordsInPolicy;
    hide Admit;
    hide ParseIds;
  }

  lemma MethodConfined(env: Env, store: Store, payload: Object)
    requires Execute(env, store, MethodCall, payload).result.Ok?
    ensures var r := Execute(env, store, MethodCall, payload);
            Confined(env, store, MethodCall, payload, r.store, r.result.value)
  {
    hide PrepareMethod;
    hide Admit;
    hide RecordsInPolicy;
    hide InDomain;
    MethodNormal(env, store, payload);
    var model := ModelName(payload).value;
    var m := FindMethod(env.profile.methods, model, Get(payload, "method").s).value;
    var ids := ParseIds(GetOr(payload, "ids", Arr([])), m.maxRecordCount, true).value;
    ParseAgain(ids, m.maxRecordCount, true);
    hide ParseIds;
    if ids != [] {
      FoundIsAsked(env, store, Admitted(env, model, Read).value, model, ids, Read);
    } else {
      NoneInDomain(store, Admitted(env, model, Read).value, model);
    }
  }

  lemma NoneInDomain(store: Store, policy: Policy, model: string)
    ensures InDomain(store, policy, model, [])
  {
  }

  /** The normal forms of single-record actions name the record they were checked against. */
  ghost predicate NamesTarget(env: Env, store: Store, payload: Object, n: Object) {
    var t := TargetRecord(env, store, payload);
    t.Ok? && Get(n, "model") == Str(t.value.0) && Get(n, "id") == Int(t.value.1)
  }

  lemma MessageNormal(env: Env, store: Store, payload: Object)
    requires PrepareMessage(env, store, payload).Ok?
    ensures NamesTarget(env, store, payload, PrepareMessage(env, store, payload).value.normalized)
  {
    hide TargetRecord;
  }

  lemma ActivityNormal(env: Env, store: Store, payload: Object)
    requires PrepareActivity(env, store, payload).Ok?
    ensures NamesTarget(env, store, payload, PrepareActivity(env, store, payload).value.normalized)
  {
    hide TargetRecord;
    hide ActivityForm;
  }

  lemma AttachmentNormal(env: Env, store: Store, payload: Object)
    requires PrepareAttachment(env, store, payload).Ok?
    ensures NamesTarget(env, store, payload, PrepareAttachment(env, store, payload).value.normalized)
  {
    hide TargetRecord;
  }

  lemma TargetNormal(env: Env, store: Store, action: Action, payload: Object)
    requires action.MessagePost? || action.ActivitySchedule? || action.AttachmentCreate?
    requires Prepare(env, store, action, payload).Ok?
    ensures NamesTarget(env, store, payload, Prepare(env, store, action, payload).value.normalized)
  {
    match action
    case MessagePost => MessageNormal(env, store, payload);
    case ActivitySchedule => ActivityNormal(env, store, payload);
    case AttachmentCreate => AttachmentNormal(env, store, payload);
  }

  lemma TargetConfined(env: Env, store: Store, action: Action, payload: Object)
    requires action.MessagePost? || action.ActivitySchedule? || action.AttachmentCreate?
    requires Execute(env, store, action, payload).result.Ok?
    ensures var r := Execute(env, store, action, payload);
            Confined(env, store, action, payload, r.store, r.result.value)
  {
    hide Prepare;
    hide TargetRecord;
    hide RecordsInPolicy;
    hide Admit;
    hide RecordIn;
    TargetNormal(env, store, action, payload);
    TargetFound(env, store, payload);
  }

  /** The target of a single-record action is one record inside the forced domain. */
  lemma TargetFound(env: Env, store: Store, payload: Object)
    requires TargetRecord(env, store, payload).Ok?
    ensures var target := TargetRecord(env, store, payload).value;
            && Get(payload, "model") == Str(target.0) && Get(payload, "id") == Int(target.1) && 0 < target.1
            && ValidName(target.0) && Admitted(env, target.0, Write).Ok?
            && var policy := Admitted(env, target.0, Write).value;
               && RecordsInPolicy(env, store, policy, target.0, [target.1], Write).Ok?
               && RecordIn(store, policy, target.0, target.1) && env.odoo.recordAcl(store, target.0, Write, target.1)
  {
    hide Admit;
    var target := TargetRecord(env, store, payload).value;
    var policy := Admitted(env, target.0, Write).value;
    FoundIsAsked(env, store, policy, target.0, [target.1], Write);
    var found := RecordsInPolicy(env, store, policy, target.0, [target.1], Write).value;
    assert target.1 in AsSet([target.1]) && target.1 in AsSet(found);
  }
}
