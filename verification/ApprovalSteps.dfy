/** What the operations of the approval workflow amount to once their savepoints have been taken:
    each transaction is one atomic step or nothing. */
module ApprovalSteps {
  import opened Wrappers
  import opened Json
  import opened Actions
  import opened Approvals
  import opened Uris

  /** The notices of one access in order of their publication. */
  function Stream(bus: seq<Notice>, access: nat): seq<Notice> {
    if bus == [] then []
    else
      var last := bus[|bus| - 1];
      Stream(bus[..|bus| - 1], access) + (if last.access == access then [last] else [])
  }

  lemma StreamSnoc(bus: seq<Notice>, n: Notice, access: nat)
    ensures Stream(bus + [n], access) == Stream(bus, access) + (if n.access == access then [n] else [])
  {
    assert (bus + [n])[..|bus|] == bus;
  }

  /** Every access numbers its own notices 1, 2, 3, ... without a gap, up to its stored version. */
  ghost predicate StreamOk(db: Db, access: nat) {
    && |Stream(db.bus, access)| == Version(db, access)
    && forall i :: 0 <= i < |Stream(db.bus, access)| ==> Stream(db.bus, access)[i].version == i + 1
  }

  ghost predicate StreamsOk(db: Db) {
    && (forall access: nat :: StreamOk(db, access))
    && (forall i :: 0 <= i < |db.bus| ==> OdooUri(db.bus[i].uri))
  }

  lemma PublishKeepsStream(db: Db, ctx: Context, access: nat, uri: string, a: nat)
    requires StreamOk(db, a) && Publish(db, ctx, access, uri).result.Ok?
    ensures StreamOk(Publish(db, ctx, access, uri).db, a)
  {
    hide Stream;
    hide OdooUri;
    StreamSnoc(db.bus, Notice(access, uri, Version(db, access) + 1), a);
  }

  lemma PublishKeepsStreams(db: Db, ctx: Context, access: nat, uri: string)
    requires StreamsOk(db) && Publish(db, ctx, access, uri).result.Ok?
    ensures StreamsOk(Publish(db, ctx, access, uri).db)
  {
    hide StreamOk;
    hide OdooUri;
    forall a: nat
      ensures StreamOk(Publish(db, ctx, access, uri).db, a)
    {
      assert StreamOk(db, a);
      PublishKeepsStream(db, ctx, access, uri, a);
    }
  }

  lemma {:induction false} PublishAllKeepsStreams(db: Db, ctx: Context, notices: seq<(nat, string)>)
    requires StreamsOk(db) && PublishAll(db, ctx, notices).result.Ok?
    ensures StreamsOk(PublishAll(db, ctx, notices).db)
    ensures db.bus <= PublishAll(db, ctx, notices).db.bus
    decreases |notices|
  {
    hide StreamsOk;
    if notices != [] {
      PublishKeepsStreams(db, ctx, notices[0].0, notices[0].1);
      PublishAllKeepsStreams(Publish(db, ctx, notices[0].0, notices[0].1).db, ctx, notices[1..]);
    }
  }

  /** A state write that is complete: the rows, and the announcement of each. */
  ghost predicate Written(db: Db, uids: seq<Uid>, change: Change, db': Db) {
    && OnlyAnnounced(db.(rows := Assigned(db.rows, uids, change)), db')
    && db.bus <= db'.bus && (StreamsOk(db) ==> StreamsOk(db'))
  }

  lemma WriteIs(db: Db, ctx: Context, uids: seq<Uid>, change: Change)
    requires forall u :: u in uids ==> u in db.rows
    requires SystemWrite(db, ctx, uids, change).result.Ok?
    ensures Written(db, uids, change, SystemWrite(db, ctx, uids, change).db)
  {
    hide Assigned;
    hide PublishAll;
    hide StreamsOk;
    var written, notices := db.(rows := Assigned(db.rows, uids, change)), ApprovalNotices(db.rows, uids);
    PublishingOnly(written, ctx, notices);
    BusPrefix(written, ctx, notices);
    StreamsFrame(db, written);
    if StreamsOk(db) {
      PublishAllKeepsStreams(written, ctx, notices);
    }
  }

  lemma StreamsFrame(db: Db, db': Db)
    requires db'.bus == db.bus && db'.versions == db.versions
    ensures StreamsOk(db) <==> StreamsOk(db')
  {
    forall access: nat
      ensures StreamOk(db, access) <==> StreamOk(db', access)
    {
      assert Version(db, access) == Version(db', access);
    }
  }

  lemma {:induction false} BusPrefix(db: Db, ctx: Context, notices: seq<(nat, string)>)
    ensures db.bus <= PublishAll(db, ctx, notices).db.bus
    decreases |notices|
  {
    if notices != [] {
      BusPrefix(Publish(db, ctx, notices[0].0, notices[0].1).db, ctx, notices[1..]);
    }
  }

  /** A committed execution, as one step: the plan's effect enters the store and the journal, the
      plan becomes executed, and nothing else changes but the announcements. */
  ghost predicate Committed(db: Db, ctx: Context, uid: Uid, db': Db) {
    && uid in db.rows && db.rows[uid].state.Approved? && ctx.clock(0) < db.rows[uid].expiresAt
    && db.rows[uid].hash == Digest(db.rows[uid].payload)
    && var row := db.rows[uid];
       var attempt := Execute(ctx.env, db.store, row.action, row.payload);
       && attempt.result.Ok?
       && OnlyAnnounced(
            db.(rows := Assigned(db.rows, [uid], ToExecuted(ctx.clock(1), attempt.result.value)),
                store := attempt.store,
                journal := db.journal + [Applied(uid, ctx.clock(0), attempt.result.value)]),
            db')
       && db.bus <= db'.bus && (StreamsOk(db) ==> StreamsOk(db'))
  }

  /** The executing state that is written first leaves no trace in the final row. */
  lemma ExecutedOver(rows: map<Uid, Approval>, uid: Uid, at: int, effect: Effect)
    ensures Assigned(Assigned(rows, [uid], ToExecuting), [uid], ToExecuted(at, effect))
            == Assigned(rows, [uid], ToExecuted(at, effect))
  {
  }

  lemma RunIs(db: Db, ctx: Context, uid: Uid)
    requires uid in db.rows && RunPlan(db, ctx, uid).result.Ok?
    ensures var row, db' := db.rows[uid], RunPlan(db, ctx, uid).db;
            var attempt := Execute(ctx.env, db.store, row.action, row.payload);
            && attempt.result.Ok?
            && OnlyAnnounced(
                 db.(rows := Assigned(db.rows, [uid], ToExecuted(ctx.clock(1), attempt.result.value)),
                     store := attempt.store,
                     journal := db.journal + [Applied(uid, ctx.clock(0), attempt.result.value)]),
                 db')
            && db.bus <= db'.bus && (StreamsOk(db) ==> StreamsOk(db'))
  {
    hide SystemWrite;
    hide PublishAll;
    hide Execute;
    hide Assigned;
    hide StreamsOk;
    var row := db.rows[uid];
    var attempt := Execute(ctx.env, db.store, row.action, row.payload);
    var effect := attempt.result.value;
    var applied := db.(store := attempt.store, journal := db.journal + [Applied(uid, ctx.clock(0), effect)]);
    StreamsFrame(db, applied);
    WriteIs(applied, ctx, [uid], ToExecuted(ctx.clock(1), effect));
    var written := SystemWrite(applied, ctx, [uid], ToExecuted(ctx.clock(1), effect)).db;
    var notices := RecordNotices(row.access, effect.model, effect.ids);
    PublishingOnly(written, ctx, notices);
    BusPrefix(written, ctx, notices);
    if StreamsOk(db) {
      PublishAllKeepsStreams(written, ctx, notices);
    }
  }

  /** Nested savepoints, the executing and failed states and three rounds of publishing refine this:
      an execution commits as one step, or expires an overdue plan, or changes nothing; and every
      error leaves the database as it was. */
  lemma ExecutionIsAtomic(db: Db, ctx: Context, access: nat, params: Object)
    ensures var o := Durable(db, ChangeExecute(db, ctx, access, params));
            var found := ApprovalFor(db, access, params);
            && (o.result.Err? ==> o.db == db)
            && (o.result.Ok? ==>
                  && found.Ok? && var uid := found.value;
                     && uid in o.db.rows && o.result.value == PublicDict(uid, o.db.rows[uid])
                     && var row := db.rows[uid];
                        if row.state.Executed? then o.db == db
                        else if row.expiresAt <= ctx.clock(0) then Written(db, [uid], ToExpired, o.db)
                        else if !row.state.Approved? then o.db == db
                        else Committed(db, ctx, uid, o.db))
  {
    hide SystemWrite;
    hide RunPlan;
    hide FailPlan;
    hide Execute;
    hide Assigned;
    hide StreamsOk;
    var out := ChangeExecute(db, ctx, access, params);
    if out.result.Ok? {
      var uid := ApprovalFor(db, access, params).value;
      var row := db.rows[uid];
      if row.state.Executed? {
      } else if row.expiresAt <= ctx.clock(0) {
        WriteIs(db, ctx, [uid], ToExpired);
        RowsKept(db, ctx, [uid], ToExpired);
      } else if row.state.Approved? {
        RowsKept(db, ctx, [uid], ToExecuting);
        WriteIs(db, ctx, [uid], ToExecuting);
        var started := SystemWrite(db, ctx, [uid], ToExecuting).db;
        PlanKeepsRows(started, ctx, uid);
        RunIs(started, ctx, uid);
        StartedRow(db, started, uid);
        ExecutedOver(db.rows, uid, ctx.clock(1), Execute(ctx.env, db.store, row.action, row.payload).result.value);
      }
    }
  }

  lemma StartedRow(db: Db, started: Db, uid: Uid)
    requires uid in db.rows && Written(db, [uid], ToExecuting, started)
    ensures uid in started.rows && started.rows[uid] == db.rows[uid].(state := Executing)
  {
  }

  /** The bus takes the next n versions of an access. */
  predicate Accepted(ctx: Context, access: nat, version: nat, n: nat) {
    forall k: nat :: version < k <= version + n ==> ctx.accepts(access, k)
  }

  /** The notices an access sends next, numbered from the version after the given one. */
  function Stamped(access: nat, version: nat, uris: seq<string>): seq<Notice> {
    seq(|uris|, i requires 0 <= i < |uris| => Notice(access, uris[i], version + 1 + i))
  }

  function For(access: nat, uris: seq<string>): seq<(nat, string)> {
    seq(|uris|, i requires 0 <= i < |uris| => (access, uris[i]))
  }

  lemma AcceptedJoin(ctx: Context, access: nat, version: nat, m: nat, n: nat)
    ensures Accepted(ctx, access, version, m + n)
            <==> Accepted(ctx, access, version, m) && Accepted(ctx, access, version + m, n)
  {
  }

  lemma AcceptedOne(ctx: Context, access: nat, version: nat)
    ensures Accepted(ctx, access, version, 1) <==> ctx.accepts(access, version + 1)
  {
    assert version < version + 1 <= version + 1;
  }

  lemma StampedJoin(access: nat, version: nat, a: seq<string>, b: seq<string>)
    ensures Stamped(access, version, a + b) == Stamped(access, version, a) + Stamped(access, version + |a|, b)
  {
  }

  lemma PublishIs(db: Db, ctx: Context, access: nat, uri: string)
    requires OdooUri(uri)
    ensures var out, v := Publish(db, ctx, access, uri), Version(db, access);
            && (out.result.Ok? <==> Accepted(ctx, access, v, 1))
            && (out.result.Ok? ==> Version(out.db, access) == v + 1 && out.db.bus == db.bus + Stamped(access, v, [uri]))
  {
    AcceptedOne(ctx, access, Version(db, access));
    assert Stamped(access, Version(db, access), [uri]) == [Notice(access, uri, Version(db, access) + 1)];
  }

  /** Publishing a list succeeds exactly when the bus takes as many versions, and then they are
      consecutive and in the list's order. */
  lemma {:induction false} PublishAllIs(db: Db, ctx: Context, access: nat, uris: seq<string>)
    requires forall i :: 0 <= i < |uris| ==> OdooUri(uris[i])
    ensures var out, v := PublishAll(db, ctx, For(access, uris)), Version(db, access);
            && (out.result.Ok? <==> Accepted(ctx, access, v, |uris|))
            && (out.result.Ok? ==>
                  Version(out.db, access) == v + |uris| && out.db.bus == db.bus + Stamped(access, v, uris))
    decreases |uris|
  {
    hide Publish;
    hide Version;
    hide OdooUri;
    hide For;
    if uris == [] {
      hide PublishAll;
      PublishNone(db, ctx, access);
    } else {
      hide Accepted;
      hide Stamped;
      hide PublishAll;
      var v, first := Version(db, access), Publish(db, ctx, access, uris[0]);
      PublishCons(db, ctx, access, uris);
      PublishIs(db, ctx, access, uris[0]);
      AcceptedJoin(ctx, access, v, 1, |uris| - 1);
      if first.result.Ok? {
        PublishAllIs(first.db, ctx, access, uris[1..]);
        StampedCons(access, v, uris);
        Associate(db.bus, Stamped(access, v, [uris[0]]), Stamped(access, v + 1, uris[1..]));
      }
    }
  }

  lemma StampedCons(access: nat, version: nat, uris: seq<string>)
    requires uris != []
    ensures Stamped(access, version, [uris[0]]) + Stamped(access, version + 1, uris[1..])
            == Stamped(access, version, uris)
  {
  }

  lemma PublishNone(db: Db, ctx: Context, access: nat)
    ensures PublishAll(db, ctx, For(access, [])) == Out(db, Ok(()))
    ensures Accepted(ctx, access, Version(db, access), 0) && Stamped(access, Version(db, access), []) == []
  {
    assert For(access, []) == [];
  }

  lemma PublishCons(db: Db, ctx: Context, access: nat, uris: seq<string>)
    requires uris != []
    ensures var first := Publish(db, ctx, access, uris[0]);
            PublishAll(db, ctx, For(access, uris)) ==
            if first.result.Err? then Out(first.db, Err(first.result.error))
            else PublishAll(first.db, ctx, For(access, uris[1..]))
  {
    hide Publish;
    assert For(access, uris)[0] == (access, uris[0]);
    assert For(access, uris)[1..] == For(access, uris[1..]);
  }

  /** The resources that an execution announces after the approval itself. */
  function RecordUris(model: string, ids: seq<nat>): (uris: seq<string>)
    ensures forall i :: 0 <= i < |uris| ==> OdooUri(uris[i])
  {
    if ids == [] then []
    else (if ids[0] > 0 then [RecordUri(model, ids[0])] else []) + RecordUris(model, ids[1..])
  }

  lemma {:induction false} RecordNoticesAre(access: nat, model: string, ids: seq<nat>)
    ensures RecordNotices(access, model, ids) == For(access, RecordUris(model, ids))
  {
    if ids != [] {
      RecordNoticesAre(access, model, ids[1..]);
    }
  }

  lemma WriteAnnounces(db: Db, ctx: Context, uid: Uid, change: Change)
    requires uid in db.rows
    ensures var access := db.rows[uid].access;
            var out, v := SystemWrite(db, ctx, [uid], change), Version(db, access);
            && (out.result.Ok? <==> Accepted(ctx, access, v, 1))
            && (out.result.Ok? ==>
                  Version(out.db, access) == v + 1 && out.db.bus == db.bus + Stamped(access, v, [ApprovalUri(uid)]))
  {
    hide Assigned;
    hide PublishAll;
    hide Accepted;
    hide Stamped;
    var access, uris := db.rows[uid].access, [ApprovalUri(uid)];
    assert ApprovalNotices(db.rows, [uid]) == For(access, uris);
    PublishAllIs(db.(rows := Assigned(db.rows, [uid], change)), ctx, access, uris);
  }

  /** An approved, intact plan that is still in time is executed exactly when its action succeeds
      and the bus takes every announcement; the announcements are then the plan twice and each
      record once, with consecutive versions. */
  lemma ExecutesExactlyWhen(db: Db, ctx: Context, access: nat, params: Object)
    requires ApprovalFor(db, access, params).Ok?
    requires var row := db.rows[ApprovalFor(db, access, params).value];
             row.state.Approved? && ctx.clock(0) < row.expiresAt && row.hash == Digest(row.payload)
    ensures var uid := ApprovalFor(db, access, params).value;
            var row, out, v := db.rows[uid], ChangeExecute(db, ctx, access, params), Version(db, access);
            var attempt := Execute(ctx.env, db.store, row.action, row.payload);
            && (out.result.Ok? <==>
                  && attempt.result.Ok?
                  && Accepted(ctx, access, v, 2 + |EffectUris(attempt.result.value)|))
            && (out.result.Ok? ==>
                  && Committed(db, ctx, uid, out.db)
                  && out.db.bus == db.bus + Stamped(access, v, [ApprovalUri(uid), ApprovalUri(uid)]
                                                               + EffectUris(attempt.result.value)))
  {
    hide SystemWrite;
    hide Execute;
    hide Assigned;
    hide StreamsOk;
    hide FailPlan;
    hide PublishAll;
    hide Committed;
    hide RunPlan;
    hide Accepted;
    hide Stamped;
    hide Version;
    var uid := ApprovalFor(db, access, params).value;
    var row, v := db.rows[uid], Version(db, access);
    var attempt := Execute(ctx.env, db.store, row.action, row.payload);
    ExecutionIsAtomic(db, ctx, access, params);
    WriteAnnounces(db, ctx, uid, ToExecuting);
    RowsKept(db, ctx, [uid], ToExecuting);
    var started := SystemWrite(db, ctx, [uid], ToExecuting);
    PlanKeepsRows(started.db, ctx, uid);
    if attempt.result.Ok? {
      var uris := EffectUris(attempt.result.value);
      AcceptedJoin(ctx, access, v, 1, 1 + |uris|);
      StampedJoin(access, v, [ApprovalUri(uid)], [ApprovalUri(uid)] + uris);
      assert [ApprovalUri(uid)] + ([ApprovalUri(uid)] + uris) == [ApprovalUri(uid), ApprovalUri(uid)] + uris;
    }
    if started.result.Ok? {
      WriteIs(db, ctx, [uid], ToExecuting);
      StartedRow(db, started.db, uid);
      RunAnnounces(started.db, ctx, uid);
    }
  }

  function EffectUris(effect: Effect): (uris: seq<string>)
    ensures forall i :: 0 <= i < |uris| ==> OdooUri(uris[i])
  {
    RecordUris(effect.model, effect.ids)
  }

  /** The try block's share of the announcements. */
  lemma RunAnnounces(db: Db, ctx: Context, uid: Uid)
    requires uid in db.rows
    ensures var row, out := db.rows[uid], RunPlan(db, ctx, uid);
            var attempt, v := Execute(ctx.env, db.store, row.action, row.payload), Version(db, row.access);
            && (out.result.Ok? <==>
                  attempt.result.Ok? && Accepted(ctx, row.access, v, 1 + |EffectUris(attempt.result.value)|))
            && (out.result.Ok? ==>
                  out.db.bus == db.bus + Stamped(row.access, v, [ApprovalUri(uid)] + EffectUris(attempt.result.value)))
  {
    hide SystemWrite;
    hide PublishAll;
    hide Execute;
    hide Assigned;
    hide Accepted;
    hide Stamped;
    hide RecordNotices;
    hide RecordUris;
    var row := db.rows[uid];
    var attempt, v := Execute(ctx.env, db.store, row.action, row.payload), Version(db, row.access);
    if attempt.result.Ok? {
      var effect := attempt.result.value;
      var uris := EffectUris(effect);
      var applied := db.(store := attempt.store, journal := db.journal + [Applied(uid, ctx.clock(0), effect)]);
      var written := SystemWrite(applied, ctx, [uid], ToExecuted(ctx.clock(1), effect));
      WriteAnnounces(applied, ctx, uid, ToExecuted(ctx.clock(1), effect));
      RecordNoticesAre(row.access, effect.model, effect.ids);
      PublishAllIs(written.db, ctx, row.access, uris);
      AcceptedJoin(ctx, row.access, v, 1, |uris|);
      StampedJoin(row.access, v, [ApprovalUri(uid)], uris);
    }
  }
}
