/** The policy lookups of profile.py, their enforcement and their advertisement in service.py. */
module Policies {
  import opened Wrappers
  import opened Json

  datatype Operation = Read | Create | Write | Unlink | Aggregate

  const OPERATIONS: seq<Operation> := [Read, Create, Write, Unlink, Aggregate]

  datatype DefaultAccess = ExplicitOnly | ReadAny | WriteAny

  datatype Risk = Low | Medium | High | Critical

  /** A forced domain, as the set of records it admits. */
  type Domain = (nat, Object) -> bool

  datatype ModelPolicy = ModelPolicy(
    model: string,
    active: bool,
    allowRead: bool,
    allowCreate: bool,
    allowWrite: bool,
    allowUnlink: bool,
    allowAggregate: bool,
    maxRecords: nat,
    forcedDomain: Domain,
    readFields: set<string>,
    writeFields: set<string>,
    allowBinaryRead: bool,
    allowBinaryWrite: bool)

  datatype MethodPolicy = MethodPolicy(
    model: string,
    method_: string,
    active: bool,
    risk: Risk,
    maxRecordCount: nat,
    allowModelMethod: bool,
    allowPositional: bool,
    keywords: set<string>,
    maxArgumentBytes: nat)

  datatype Profile = Profile(
    policies: seq<ModelPolicy>,
    methods: seq<MethodPolicy>,
    defaultAccess: DefaultAccess,
    allowGlobalCreate: bool,
    allowGlobalUnlink: bool,
    allowAggregate: bool,
    allowChatter: bool,
    allowActivities: bool,
    allowAttachments: bool,
    autoApproveLowRisk: bool,
    maxRecordsPerCall: nat,
    maxBatchSize: nat,
    approvalTtlMinutes: nat)

  /** The rows of ir.model with their transient flag, and the models the registry can load. */
  datatype Catalogue = Catalogue(transient: map<string, bool>, installed: set<string>)

  /** The policy that governs a model: an explicit one, or the profile-wide fallback. */
  datatype Policy = Explicit(policy: ModelPolicy) | Fallback(model: string)

  datatype Error = Error(code: string, status: nat)

  /** _positive_int. */
  function PositiveInt(value: Json): Result<nat, Error> {
    if value.Int? && value.n > 0 then Ok(value.n) else Err(Error("invalid_integer", 400))
  }

  const POLICY_DENIED := Error("policy_denied", 403)
  const ACCESS_DENIED := Error("access_denied", 403)

  const BLOCKED_POLICY_MODELS := {
    "ir.config_parameter", "res.users.apikeys", "connect.mcp.profile", "connect.mcp.model.policy",
    "connect.mcp.method.policy", "connect.mcp.access", "connect.mcp.approval",
    "connect.mcp.audit.log", "connect.mcp.event.ticket"
  }

  const GLOBAL_ACCESS_BLOCKED_MODELS := BLOCKED_POLICY_MODELS + {
    "base.automation", "ir.actions.server", "ir.cron", "ir.mail_server", "ir.model.access",
    "ir.rule", "ir.ui.view", "res.groups"
  }

  const GLOBAL_ACCESS_READONLY_MODELS := {"res.users"}

  predicate NameChar(c: char) {
    'a' <= c <= 'z' || 'A' <= c <= 'Z' || '0' <= c <= '9' || c == '_' || c == '.'
  }

  /** A full match of MODEL_NAME_RE. */
  predicate ValidName(name: string) {
    name != "" && forall i :: 0 <= i < |name| ==> NameChar(name[i])
  }

  /** The first active explicit policy for a model. */
  function FindPolicy(policies: seq<ModelPolicy>, name: string): (p: Option<ModelPolicy>)
    ensures p.Some? ==> p.value in policies && p.value.active && p.value.model == name
    ensures p.None? ==> forall q :: q in policies && q.active ==> q.model != name
  {
    if policies == [] then None
    else if policies[0].active && policies[0].model == name then Some(policies[0])
    else FindPolicy(policies[1..], name)
  }

  /** _allows, of both kinds of policy. */
  predicate Allows(profile: Profile, policy: Policy, operation: Operation) {
    match policy
    case Explicit(p) =>
      (match operation
       case Read => p.allowRead
       case Create => p.allowCreate
       case Write => p.allowWrite
       case Unlink => p.allowUnlink
       case Aggregate => p.allowAggregate && profile.allowAggregate)
    case Fallback(model) =>
      var writable := model !in GLOBAL_ACCESS_READONLY_MODELS;
      (match operation
       case Read => !profile.defaultAccess.ExplicitOnly?
       case Create => profile.allowGlobalCreate && writable
       case Write => profile.defaultAccess.WriteAny? && writable
       case Unlink => profile.allowGlobalUnlink && writable
       case Aggregate => !profile.defaultAccess.ExplicitOnly? && profile.allowAggregate)
  }

  /** The profile's cap on the records of one call, or a smaller one of the policy; none is zero. */
  function RecordLimit(profile: Profile, policy: Policy): (limit: nat)
    ensures limit <= profile.maxRecordsPerCall
    ensures policy.Explicit? && 0 < policy.policy.maxRecords ==> limit <= policy.policy.maxRecords
    ensures limit == profile.maxRecordsPerCall
            || (policy.Explicit? && limit == policy.policy.maxRecords && 0 < policy.policy.maxRecords)
  {
    match policy
    case Fallback(_) => profile.maxRecordsPerCall
    case Explicit(p) =>
      if p.maxRecords == 0 || p.maxRecords > profile.maxRecordsPerCall then profile.maxRecordsPerCall
      else p.maxRecords
  }

  function ForcedDomain(policy: Policy): Domain {
    match policy
    case Explicit(p) => p.forcedDomain
    case Fallback(_) => (id: nat, values: Object) => true
  }

  /** The policy that would govern a model, before the operation is considered. */
  function Governing(profile: Profile, catalogue: Catalogue, name: string): Option<Policy> {
    match FindPolicy(profile.policies, name)
    case Some(p) => Some(Explicit(p))
    case None =>
      if name in catalogue.transient && !catalogue.transient[name] && name !in GLOBAL_ACCESS_BLOCKED_MODELS
      then Some(Fallback(name)) else None
  }

  /** _get_policy with required=False: an invalid name raises even then. */
  function GetPolicy(profile: Profile, catalogue: Catalogue, name: string, operation: Operation)
      : Result<Option<Policy>, Error>
  {
    if !ValidName(name) then Err(Error("validation_error", 422))
    else
      match Governing(profile, catalogue, name)
      case Some(policy) => Ok(if Allows(profile, policy, operation) then Some(policy) else None)
      case None => Ok(None)
  }

  /** The right an operation needs in Odoo itself. */
  function AclOperation(operation: Operation): Operation {
    if operation == Aggregate then Read else operation
  }

  /** _model_policy: what every operation on a model must pass. */
  function Admit(profile: Profile, catalogue: Catalogue, acl: (string, Operation) -> bool,
                 name: string, operation: Operation): Result<Policy, Error>
  {
    match GetPolicy(profile, catalogue, name, operation)
    case Err(_) => Err(POLICY_DENIED)
    case Ok(None) => Err(POLICY_DENIED)
    case Ok(Some(policy)) =>
      if name !in catalogue.installed then Err(Error("unknown_model", 404))
      else if !acl(name, AclOperation(operation)) then Err(ACCESS_DENIED)
      else Ok(policy)
  }

  /** The flag of an explicit policy that lets an operation through. */
  predicate Flagged(profile: Profile, p: ModelPolicy, operation: Operation) {
    && (operation == Read ==> p.allowRead)
    && (operation == Create ==> p.allowCreate)
    && (operation == Write ==> p.allowWrite)
    && (operation == Unlink ==> p.allowUnlink)
    && (operation == Aggregate ==> p.allowAggregate && profile.allowAggregate)
  }

  /** What the profile lets be done to every model without a policy of its own. */
  predicate GloballyOpen(profile: Profile, name: string, operation: Operation) {
    && (operation == Read ==> profile.defaultAccess == ReadAny || profile.defaultAccess == WriteAny)
    && (operation == Create ==> profile.allowGlobalCreate && name !in GLOBAL_ACCESS_READONLY_MODELS)
    && (operation == Write ==> profile.defaultAccess == WriteAny && name !in GLOBAL_ACCESS_READONLY_MODELS)
    && (operation == Unlink ==> profile.allowGlobalUnlink && name !in GLOBAL_ACCESS_READONLY_MODELS)
    && (operation == Aggregate ==>
          profile.allowAggregate && (profile.defaultAccess == ReadAny || profile.defaultAccess == WriteAny))
  }

  /** The first active policy for a model is the one at place i. */
  predicate FirstAt(policies: seq<ModelPolicy>, name: string, i: nat) {
    && i < |policies| && policies[i].active && policies[i].model == name
    && forall j :: 0 <= j < i ==> !(policies[j].active && policies[j].model == name)
  }

  predicate NoPolicy(policies: seq<ModelPolicy>, name: string) {
    forall j :: 0 <= j < |policies| ==> !(policies[j].active && policies[j].model == name)
  }

  /** A policy opens the operation on the model: the model's own first one by its flag or, where there
      is none, the profile for every ordinary model. */
  ghost predicate Permits(profile: Profile, catalogue: Catalogue, name: string, operation: Operation, policy: Policy) {
    match policy
    case Explicit(p) =>
      exists i: nat :: FirstAt(profile.policies, name, i) && profile.policies[i] == p && Flagged(profile, p, operation)
    case Fallback(model) =>
      && model == name && NoPolicy(profile.policies, name)
      && name in catalogue.transient && !catalogue.transient[name] && name !in GLOBAL_ACCESS_BLOCKED_MODELS
      && GloballyOpen(profile, name, operation)
  }

  /** Enforcement, exactly: a request on a model passes with a policy if and only if that policy permits
      it, the name is proper, the model is installed and Odoo grants the right; otherwise the error
      tells the first of these that fails. */
  lemma AdmittedExactly(profile: Profile, catalogue: Catalogue, acl: (string, Operation) -> bool,
                        name: string, operation: Operation, policy: Policy)
    ensures var right := if operation == Aggregate then Read else operation;
            var r := Admit(profile, catalogue, acl, name, operation);
            && (r == Ok(policy) <==>
                  && ValidName(name) && Permits(profile, catalogue, name, operation, policy)
                  && name in catalogue.installed && acl(name, right))
            && (ValidName(name) && Permits(profile, catalogue, name, operation, policy) ==>
                  && (name !in catalogue.installed <==> r == Err(Error("unknown_model", 404)))
                  && (name in catalogue.installed && !acl(name, right) <==> r == Err(Error("access_denied", 403))))
            && (r.Err? && r.error != Error("unknown_model", 404) && r.error != Error("access_denied", 403) ==>
                  r.error == Error("policy_denied", 403))
  {
    FoundFirst(profile.policies, name);
    if policy.Explicit? && Permits(profile, catalogue, name, operation, policy) {
      var i: nat :| FirstAt(profile.policies, name, i) && profile.policies[i] == policy.policy;
      assert FindPolicy(profile.policies, name) == Some(policy.policy);
    }
  }

  /** So whatever is denied as a matter of policy is permitted by no policy, or has no proper name. */
  lemma DeniedExactly(profile: Profile, catalogue: Catalogue, acl: (string, Operation) -> bool,
                      name: string, operation: Operation)
    ensures Admit(profile, catalogue, acl, name, operation) == Err(Error("policy_denied", 403)) <==>
              !ValidName(name) || forall policy :: !Permits(profile, catalogue, name, operation, policy)
  {
    FoundFirst(profile.policies, name);
    forall policy
      ensures Permits(profile, catalogue, name, operation, policy) && ValidName(name) ==>
                Admit(profile, catalogue, acl, name, operation) != Err(Error("policy_denied", 403))
    {
      AdmittedExactly(profile, catalogue, acl, name, operation, policy);
    }
    var governing := Governing(profile, catalogue, name);
    if governing.Some? && Allows(profile, governing.value, operation) {
      assert Permits(profile, catalogue, name, operation, governing.value);
    }
  }

  lemma {:induction false} FoundFirst(policies: seq<ModelPolicy>, name: string)
    ensures FindPolicy(policies, name).None? <==> NoPolicy(policies, name)
    ensures FindPolicy(policies, name).Some? ==>
              exists i: nat :: FirstAt(policies, name, i) && policies[i] == FindPolicy(policies, name).value
    ensures forall i: nat :: FirstAt(policies, name, i) ==> FindPolicy(policies, name) == Some(policies[i])
  {
    if policies != [] {
      var rest := policies[1..];
      FoundFirst(rest, name);
      if policies[0].active && policies[0].model == name {
        assert FirstAt(policies, name, 0);
      } else {
        forall i: nat | FirstAt(rest, name, i)
          ensures FirstAt(policies, name, i + 1)
        {
          assert forall j :: 0 < j < i + 1 ==> policies[j] == rest[j - 1];
        }
        forall i: nat | FirstAt(policies, name, i)
          ensures 0 < i && FirstAt(rest, name, i - 1)
        {
          assert forall j :: 0 <= j < i - 1 ==> rest[j] == policies[j + 1];
        }
        if FindPolicy(rest, name).Some? {
          var i: nat :| FirstAt(rest, name, i) && rest[i] == FindPolicy(rest, name).value;
          assert policies[i + 1] == rest[i];
        }
      }
    }
  }

  predicate HasGlobalModelAccess(profile: Profile) {
    !profile.defaultAccess.ExplicitOnly? || profile.allowGlobalCreate || profile.allowGlobalUnlink
  }

  /** The models models.list looks at. */
  predicate Candidate(profile: Profile, catalogue: Catalogue, name: string) {
    || (exists i :: 0 <= i < |profile.policies| && profile.policies[i].active && profile.policies[i].model == name)
    || (HasGlobalModelAccess(profile) && name in catalogue.transient && !catalogue.transient[name])
  }

  datatype Listing = Listing(model: string, operations: seq<Operation>, maxRecords: nat)

  /** What models.list says about one installed model; nothing is said when no operation is open. */
  function Advertised(profile: Profile, catalogue: Catalogue, acl: (string, Operation) -> bool,
                      name: string, operations: seq<Operation>): (r: seq<Operation>)
    ensures forall op :: op in r <==> op in operations && Open(profile, catalogue, acl, name, op)
  {
    if operations == [] then []
    else
      (if Open(profile, catalogue, acl, name, operations[0]) then [operations[0]] else [])
      + Advertised(profile, catalogue, acl, name, operations[1..])
  }

  /** The listing's own test: a policy allows the operation and Odoo grants the right. */
  predicate Open(profile: Profile, catalogue: Catalogue, acl: (string, Operation) -> bool,
                 name: string, operation: Operation)
  {
    var policy := GetPolicy(profile, catalogue, name, operation);
    policy.Ok? && policy.value.Some? && acl(name, AclOperation(operation))
  }

  /** Whether a list of models says that an operation may be used. */
  predicate Advertises(listings: seq<Listing>, name: string, operation: Operation) {
    exists i :: 0 <= i < |listings| && listings[i].model == name && operation in listings[i].operations
  }

  /** A model that enforcement admits is one the listing looks at. */
  lemma AdmittedIsCandidate(profile: Profile, catalogue: Catalogue, acl: (string, Operation) -> bool,
                            name: string, operation: Operation)
    requires Admit(profile, catalogue, acl, name, operation).Ok?
    ensures Candidate(profile, catalogue, name) && name in catalogue.installed
    ensures Open(profile, catalogue, acl, name, operation)
  {
    match FindPolicy(profile.policies, name)
    case Some(p) =>
      var i :| 0 <= i < |profile.policies| && profile.policies[i] == p;
      assert profile.policies[i].active && profile.policies[i].model == name;
    case None =>
  }

  /** On an installed model with a proper name, the listing's test and enforcement are one. */
  lemma OpenIsAdmitted(profile: Profile, catalogue: Catalogue, acl: (string, Operation) -> bool,
                       name: string, operation: Operation)
    requires ValidName(name) && name in catalogue.installed
    ensures var policy := GetPolicy(profile, catalogue, name, operation);
            var admitted := Admit(profile, catalogue, acl, name, operation);
            && policy.Ok? && (Open(profile, catalogue, acl, name, operation) <==> admitted.Ok?)
            && (admitted.Ok? ==> policy.value == Some(admitted.value))
  {
  }

  /** The inner loop of models.list: the operations open on one model, and the record limit of the
      policy behind the first of them. */
  method OperationsOn(profile: Profile, catalogue: Catalogue, acl: (string, Operation) -> bool, name: string)
      returns (operations: seq<Operation>, limit: nat)
    requires ValidName(name) && name in catalogue.installed
    ensures operations == Advertised(profile, catalogue, acl, name, OPERATIONS)
    ensures forall op :: op in operations ==> Admit(profile, catalogue, acl, name, op).Ok?
    ensures operations != [] ==>
              && Admit(profile, catalogue, acl, name, operations[0]).Ok?
              && limit == RecordLimit(profile, Admit(profile, catalogue, acl, name, operations[0]).value)
  {
    hide GetPolicy;
    hide Admit;
    hide RecordLimit;
    hide ValidName;
    operations, limit := [], 0;
    for o := 0 to |OPERATIONS|
      invariant operations == Advertised(profile, catalogue, acl, name, OPERATIONS[..o])
      invariant forall op :: op in operations ==> Admit(profile, catalogue, acl, name, op).Ok?
      invariant operations != [] ==>
                  && Admit(profile, catalogue, acl, name, operations[0]).Ok?
                  && limit == RecordLimit(profile, Admit(profile, catalogue, acl, name, operations[0]).value)
    {
      var operation := OPERATIONS[o];
      OpenIsAdmitted(profile, catalogue, acl, name, operation);
      var policy := GetPolicy(profile, catalogue, name, operation);
      AdvertisedSnoc(profile, catalogue, acl, name, OPERATIONS[..o], operation);
      assert OPERATIONS[..o + 1] == OPERATIONS[..o] + [operation];
      if policy.value.Some? && acl(name, AclOperation(operation)) {
        if operations == [] {
          limit := RecordLimit(profile, policy.value.value);
        }
        operations := operations + [operation];
      }
    }
    assert OPERATIONS[..|OPERATIONS|] == OPERATIONS;
  }

  /** models.list, over the candidate models in name order as the ORM sorts them.  It fails as a
      whole when an installed candidate has a malformed name; otherwise it advertises an
      operation exactly when enforcement would admit it. */
  method ModelsList(profile: Profile, catalogue: Catalogue, acl: (string, Operation) -> bool, names: seq<string>)
      returns (r: Result<seq<Listing>, Error>)
    requires forall n :: n in names <==> Candidate(profile, catalogue, n)
    requires forall i, j :: 0 <= i < j < |names| ==> names[i] != names[j]
    ensures r.Err? <==> exists n :: n in names && n in catalogue.installed && !ValidName(n)
    ensures r.Ok? ==>
              && (forall n, op :: Advertises(r.value, n, op) <==> Admit(profile, catalogue, acl, n, op).Ok?)
              && (forall i :: 0 <= i < |r.value| ==> ListedOk(profile, catalogue, acl, r.value[i]))
              && (forall i, j :: 0 <= i < j < |r.value| ==> r.value[i].model != r.value[j].model)
  {
    hide GetPolicy;
    hide Admit;
    hide RecordLimit;
    hide ValidName;
    var listings: seq<Listing> := [];
    var k := 0;
    while k < |names|
      invariant k <= |names|
      invariant forall n :: n in names[..k] && n in catalogue.installed ==> ValidName(n)
      invariant forall i :: 0 <= i < |listings| ==>
                  listings[i].model in names[..k] && ListedOk(profile, catalogue, acl, listings[i])
      invariant forall n :: n in names[..k] ==> Covered(profile, catalogue, acl, listings, n)
      invariant forall i, j :: 0 <= i < j < |listings| ==> listings[i].model != listings[j].model
    {
      var name := names[k];
      ghost var before := listings;
      assert names[..k + 1] == names[..k] + [name];
      if name in catalogue.installed {
        if !ValidName(name) {
          return Err(Error("validation_error", 422));
        }
        var operations, limit := OperationsOn(profile, catalogue, acl, name);
        if operations != [] {
          listings := listings + [Listing(name, operations, limit)];
          assert listings[|before|] == Listing(name, operations, limit);
        }
      }
      forall n | n in names[..k + 1]
        ensures Covered(profile, catalogue, acl, listings, n)
      {
        if n in names[..k] {
          CoveredStays(profile, catalogue, acl, before, listings, n);
        } else {
          CoveredNow(profile, catalogue, acl, listings, n);
        }
      }
      k := k + 1;
    }
    assert names[..k] == names;
    forall n, op
      ensures Advertises(listings, n, op) <==> Admit(profile, catalogue, acl, n, op).Ok?
    {
      if Admit(profile, catalogue, acl, n, op).Ok? {
        AdmittedIsCandidate(profile, catalogue, acl, n, op);
        assert Covered(profile, catalogue, acl, listings, n);
      }
    }
    r := Ok(listings);
  }

  /** An entry speaks of one installed model, lists at least one operation, in the fixed order, and
      gives the record limit of the policy behind the first. */
  ghost predicate ListedOk(profile: Profile, catalogue: Catalogue, acl: (string, Operation) -> bool, l: Listing) {
    && l.model in catalogue.installed && ValidName(l.model) && l.operations != []
    && l.operations == Advertised(profile, catalogue, acl, l.model, OPERATIONS)
    && (forall op :: op in l.operations ==> Admit(profile, catalogue, acl, l.model, op).Ok?)
    && l.maxRecords == RecordLimit(profile, Admit(profile, catalogue, acl, l.model, l.operations[0]).value)
  }

  ghost predicate Covered(profile: Profile, catalogue: Catalogue, acl: (string, Operation) -> bool,
                          listings: seq<Listing>, name: string)
  {
    forall op :: Admit(profile, catalogue, acl, name, op).Ok? ==> Advertises(listings, name, op)
  }

  /** A model whose last listing is complete, or which has nothing to list, is covered. */
  lemma CoveredNow(profile: Profile, catalogue: Catalogue, acl: (string, Operation) -> bool,
                   listings: seq<Listing>, name: string)
    requires
      || name !in catalogue.installed
      || Advertised(profile, catalogue, acl, name, OPERATIONS) == []
      || (&& listings != [] && listings[|listings| - 1].model == name
          && listings[|listings| - 1].operations == Advertised(profile, catalogue, acl, name, OPERATIONS))
    ensures Covered(profile, catalogue, acl, listings, name)
  {
    forall op | Admit(profile, catalogue, acl, name, op).Ok?
      ensures Advertises(listings, name, op)
    {
      AdmittedIsCandidate(profile, catalogue, acl, name, op);
      EveryOperation(op);
      assert op in Advertised(profile, catalogue, acl, name, OPERATIONS);
    }
  }

  lemma EveryOperation(op: Operation)
    ensures op in OPERATIONS
  {
    match op
    case Read => assert OPERATIONS[0] == op;
    case Create => assert OPERATIONS[1] == op;
    case Write => assert OPERATIONS[2] == op;
    case Unlink => assert OPERATIONS[3] == op;
    case Aggregate => assert OPERATIONS[4] == op;
  }

  lemma CoveredStays(profile: Profile, catalogue: Catalogue, acl: (string, Operation) -> bool,
                     before: seq<Listing>, after: seq<Listing>, name: string)
    requires before <= after && Covered(profile, catalogue, acl, before, name)
    ensures Covered(profile, catalogue, acl, after, name)
  {
    forall op | Admit(profile, catalogue, acl, name, op).Ok?
      ensures Advertises(after, name, op)
    {
      assert Advertises(before, name, op);
      var i :| 0 <= i < |before| && before[i].model == name && op in before[i].operations;
      assert after[i] == before[i];
    }
  }

  lemma AdvertisedCons(profile: Profile, catalogue: Catalogue, acl: (string, Operation) -> bool,
                       name: string, op: Operation, rest: seq<Operation>)
    ensures Advertised(profile, catalogue, acl, name, [op] + rest) ==
              (if Open(profile, catalogue, acl, name, op) then [op] else [])
              + Advertised(profile, catalogue, acl, name, rest)
  {
    hide Open;
    assert ([op] + rest)[1..] == rest;
  }

  lemma {:induction false} AdvertisedSnoc(profile: Profile, catalogue: Catalogue, acl: (string, Operation) -> bool,
                                          name: string, ops: seq<Operation>, op: Operation)
    ensures Advertised(profile, catalogue, acl, name, ops + [op]) ==
              Advertised(profile, catalogue, acl, name, ops)
              + (if Open(profile, catalogue, acl, name, op) then [op] else [])
  {
    hide Open;
    if ops == [] {
      AdvertisedCons(profile, catalogue, acl, name, op, []);
      assert [] + [op] == [op] + [];
    } else {
      hide Advertised;
      var first, rest := ops[0], ops[1..];
      var head := if Open(profile, catalogue, acl, name, first) then [first] else [];
      var last := if Open(profile, catalogue, acl, name, op) then [op] else [];
      Associate(head, Advertised(profile, catalogue, acl, name, rest), last);
      AdvertisedCons(profile, catalogue, acl, name, first, rest);
      AdvertisedSnoc(profile, catalogue, acl, name, rest, op);
      AdvertisedCons(profile, catalogue, acl, name, first, rest + [op]);
      assert [first] + rest == ops && [first] + (rest + [op]) == ops + [op];
    }
  }
}
