/** Every run of the approval workflow: requests, decisions, cleanups and other people's edits of
    the business records, one transaction after another on a clock that never goes back. */
module ApprovalRuns {
  import opened Wrappers
  import opened Json
  import opened Policies
  import opened Actions
  import opened Approvals
  import opened ApprovalSteps

  datatype Event =
    | Request(ctx: Context, access: nat, call: Call, params: Object, newUid: Uid)
    | Decision(ctx: Context, decision: Decision, user: nat, manager: bool, uids: seq<Uid>)
    | Cleanup(ctx: Context, retentionDays: int, overdue: seq<Uid>, finished: seq<Uid>)
    | Business(store: Store)

  datatype World = World(db: Db, now: int)

  /** The transaction reads a clock that does not go back; the profile's time to live is positive,
      as its table constraint says. */
  ghost predicate InTime(now: int, ctx: Context) {
    && now <= ctx.began <= ctx.ended && 0 < ctx.env.profile.approvalTtlMinutes
    && (forall i: nat :: ctx.began <= ctx.clock(i) <= ctx.ended)
    && (forall i: nat, j: nat :: i <= j ==> ctx.clock(i) <= ctx.clock(j))
  }

  ghost predicate Enabled(w: World, e: Event) {
    match e
    case Request(ctx, access, call, params, newUid) => InTime(w.now, ctx) && newUid !in w.db.issued
    case Decision(ctx, decision, user, manager, uids) => InTime(w.now, ctx)
    case Cleanup(ctx, retentionDays, overdue, finished) =>
      && InTime(w.now, ctx) && Found(w.db.rows, overdue, Overdue(ctx.clock(0)))
      && var expired := SystemWrite(w.db, ctx, overdue, ToExpired);
         expired.result.Ok? ==> Found(expired.db.rows, finished, Finished(Cutoff(ctx.clock(0), retentionDays)))
    case Business(store) => true
  }

  ghost function Next(w: World, e: Event): World
    requires Enabled(w, e)
  {
    match e
    case Request(ctx, access, call, params, newUid) =>
      World(Durable(w.db, Dispatch(w.db, ctx, access, call, params, newUid)).db, ctx.ended)
    case Decision(ctx, decision, user, manager, uids) =>
      World(Durable(w.db, Decide(w.db, ctx, decision, user, manager, uids)).db, ctx.ended)
    case Cleanup(ctx, retentionDays, overdue, finished) =>
      World(Durable(w.db, Collect(w.db, ctx, overdue, finished)).db, ctx.ended)
    case Business(store) => w.(db := w.db.(store := store))
  }

  function Initial(store: Store, now: int): World {
    World(Db(map[], map[], store, map[], [], {}, map[], []), now)
  }

  ghost predicate Possible(w: World, events: seq<Event>)
    decreases |events|
  {
    events != [] ==> Enabled(w, events[0]) && Possible(Next(w, events[0]), events[1..])
  }

  ghost function Run(w: World, events: seq<Event>): World
    requires Possible(w, events)
    decreases |events|
  {
    if events == [] then w else Run(Next(w, events[0]), events[1..])
  }

  /** A plan's effect is in the store. */
  ghost predicate Journaled(db: Db, u: Uid) {
    exists j :: 0 <= j < |db.journal| && db.journal[j].uid == u
  }

  /** The plan was approved before it expired: by the manager it names, or, as a low-risk message
      or activity, by nobody. */
  ghost predicate Allowed(db: Db, u: Uid, row: Approval) {
    && u in db.grants && row.createdAt <= db.grants[u].at < row.expiresAt
    && db.grants[u].user == row.approvedBy
    && (row.approvedBy.None? ==> row.risk == Low && (row.action == MessagePost || row.action == ActivitySchedule))
  }

  ghost predicate RowOk(db: Db, u: Uid)
    requires u in db.rows
  {
    var row := db.rows[u];
    && row.hash == Digest(row.payload) && row.payload.Keys == NormalKeys(row.action)
    && u in db.issued && (row.access, row.key) in db.keys && db.keys[(row.access, row.key)] == u
    && !row.state.Executing? && !row.state.Failed?
    && (row.state.Executed? <==> Journaled(db, u))
    && (row.state.Approved? || row.state.Executed? ==> Allowed(db, u, row))
  }

  /** An effect came after its plan's approval and before its expiry, and is the one the row reports. */
  ghost predicate EntryOk(db: Db, a: Applied) {
    && a.uid in db.issued && a.uid in db.grants && db.grants[a.uid].at <= a.at
    && (a.uid in db.rows ==> a.at < db.rows[a.uid].expiresAt && db.rows[a.uid].result == Some(a.effect))
  }

  ghost predicate KeyOk(db: Db, k: (nat, string))
    requires k in db.keys
  {
    db.keys[k] in db.rows && (db.rows[db.keys[k]].access, db.rows[db.keys[k]].key) == k
  }

  predicate AtMostOnce(journal: seq<Applied>) {
    forall i, j :: 0 <= i < j < |journal| ==> journal[i].uid != journal[j].uid
  }

  ghost predicate Inv(db: Db) {
    && (forall u :: u in db.rows ==> RowOk(db, u))
    && (forall j :: 0 <= j < |db.journal| ==> EntryOk(db, db.journal[j]))
    && (forall k :: k in db.keys ==> KeyOk(db, k))
    && AtMostOnce(db.journal) && db.grants.Keys <= db.issued
  }

  ghost predicate TimesOk(db: Db, created: int, granted: int) {
    && (forall u :: u in db.rows ==> db.rows[u].createdAt <= created)
    && (forall u :: u in db.grants ==> db.grants[u].at <= granted)
  }

  /** Every invariant, with every plan made by one time and every approval given by another. */
  ghost predicate Sound(db: Db, created: int, granted: int) {
    Inv(db) && TimesOk(db, created, granted) && StreamsOk(db)
  }

  ghost predicate WorldOk(w: World) {
    Sound(w.db, w.now, w.now)
  }

  function Rank(s: State): nat {
    match s
    case Pending => 0
    case Approved => 1
    case Rejected => 2
    case _ => 3
  }

  /** What may become of one row: its plan never changes; its state only rises, executed and
      expired are final, and a rejected plan is not executed. */
  predicate Legal(a: Approval, b: Approval) {
    && b == a.(state := b.state, approvedBy := b.approvedBy, approvedAt := b.approvedAt, rejectedBy := b.rejectedBy,
               rejectedAt := b.rejectedAt, executedAt := b.executedAt, result := b.result, error := b.error)
    && (a.state == b.state ==> a == b)
    && (a.state != b.state ==> Rank(a.state) < Rank(b.state))
    && (b.state.Executed? ==> !a.state.Rejected?)
  }

  /** What any later database has in common with an earlier one. */
  ghost predicate Follows(db: Db, db': Db) {
    && (forall u :: u in db.rows && u in db'.rows ==> Legal(db.rows[u], db'.rows[u]))
    && (forall u :: u in db'.rows && u !in db.rows ==> u !in db.issued)
    && db.issued <= db'.issued && db.journal <= db'.journal && db.bus <= db'.bus
  }

  lemma FollowsSelf(db: Db)
    ensures Follows(db, db)
  {
  }

  lemma FollowsOn(a: Db, b: Db, c: Db)
    requires Follows(a, b) && Follows(b, c)
    requires forall u :: u in a.rows ==> u in a.issued
    ensures Follows(a, c)
  {
    hide Legal;
    forall u | u in a.rows && u in c.rows
      ensures Legal(a.rows[u], c.rows[u])
    {
      assert u in b.rows;
      LegalOn(a.rows[u], b.rows[u], c.rows[u]);
    }
  }

  lemma LegalOn(a: Approval, b: Approval, c: Approval)
    requires Legal(a, b) && Legal(b, c)
    ensures Legal(a, c)
  {
  }

  /** When a change may be written. */
  ghost predicate May(db: Db, u: Uid, change: Change) {
    && u in db.rows
    && var row := db.rows[u];
       match change
       case ToApproved(user, at) =>
         && row.state.Pending? && u in db.grants && row.createdAt <= db.grants[u].at < row.expiresAt
         && db.grants[u].user == Some(user)
       case ToRejected(user, at) => row.state.Pending? || row.state.Approved?
       case ToExpired => !row.state.Executed?
       case _ => false
  }

  lemma AssignLegal(db: Db, u: Uid, change: Change)
    requires May(db, u, change)
    requires !db.rows[u].state.Executing? && !db.rows[u].state.Failed?
    ensures Legal(db.rows[u], Assign(db.rows[u], change))
  {
  }

  lemma WriteKeepsRow(db: Db, uids: seq<Uid>, change: Change, db': Db, u: Uid)
    requires Written(db, uids, change, db') && u in db.rows && RowOk(db, u)
    requires u in uids ==> May(db, u, change)
    ensures u in db'.rows && RowOk(db', u) && Legal(db.rows[u], db'.rows[u])
  {
    hide StreamsOk;
    if u in uids {
      AssignLegal(db, u, change);
    }
    assert Journaled(db', u) <==> Journaled(db, u);
  }

  /** The unique index stays right while no row's key changes and no row is lost. */
  lemma KeysFrame(db: Db, db': Db)
    requires Inv(db) && db'.keys == db.keys
    requires forall u :: u in db.rows ==>
               u in db'.rows && db'.rows[u].access == db.rows[u].access && db'.rows[u].key == db.rows[u].key
    ensures forall k :: k in db'.keys ==> KeyOk(db', k)
  {
    hide RowOk;
    hide EntryOk;
    forall k | k in db'.keys
      ensures KeyOk(db', k)
    {
      assert KeyOk(db, k);
    }
  }

  lemma WriteKeeps(db: Db, uids: seq<Uid>, change: Change, db': Db)
    requires Inv(db) && Written(db, uids, change, db')
    requires forall u :: u in uids ==> May(db, u, change)
    ensures Inv(db') && Follows(db, db')
  {
    hide StreamsOk;
    hide RowOk;
    hide EntryOk;
    hide KeyOk;
    forall u | u in db'.rows
      ensures RowOk(db', u) && Legal(db.rows[u], db'.rows[u])
    {
      WriteKeepsRow(db, uids, change, db', u);
    }
    forall j | 0 <= j < |db'.journal|
      ensures EntryOk(db', db'.journal[j])
    {
      EntryKept(db, uids, change, db', j);
    }
    KeysFrame(db, db');
  }

  lemma EntryKept(db: Db, uids: seq<Uid>, change: Change, db': Db, j: nat)
    requires Inv(db) && Written(db, uids, change, db') && j < |db.journal|
    requires forall u :: u in uids ==> May(db, u, change)
    ensures EntryOk(db', db.journal[j])
  {
    hide StreamsOk;
    var u := db.journal[j].uid;
    assert EntryOk(db, db.journal[j]);
    assert Journaled(db, u);
    if u in db.rows {
      assert RowOk(db, u);
    }
  }

  /** Deciding on a pending plan is the only thing that records a grant for an existing one. */
  lemma GrantKeeps(db: Db, u: Uid, g: Grant)
    requires Inv(db) && u in db.rows && db.rows[u].state.Pending?
    ensures Inv(Granted(db, u, g)) && Follows(db, Granted(db, u, g))
  {
    hide RowOk;
    hide EntryOk;
    hide KeyOk;
    var db' := Granted(db, u, g);
    forall v | v in db'.rows
      ensures RowOk(db', v)
    {
      GrantKeepsRow(db, u, g, v);
    }
    forall j | 0 <= j < |db'.journal|
      ensures EntryOk(db', db'.journal[j])
    {
      GrantKeepsEntry(db, u, g, j);
    }
    KeysFrame(db, db');
    IssuedRow(db, u);
  }

  lemma IssuedRow(db: Db, u: Uid)
    requires Inv(db) && u in db.rows
    ensures u in db.issued
  {
    assert RowOk(db, u);
  }

  lemma GrantKeepsRow(db: Db, u: Uid, g: Grant, v: Uid)
    requires u in db.rows && db.rows[u].state.Pending? && v in db.rows && RowOk(db, v)
    ensures RowOk(Granted(db, u, g), v)
  {
    assert Journaled(Granted(db, u, g), v) <==> Journaled(db, v);
  }

  lemma GrantKeepsEntry(db: Db, u: Uid, g: Grant, j: nat)
    requires Inv(db) && u in db.rows && db.rows[u].state.Pending? && j < |db.journal|
    ensures EntryOk(Granted(db, u, g), db.journal[j])
  {
    hide KeyOk;
    assert EntryOk(db, db.journal[j]);
    assert RowOk(db, u) && Journaled(db, db.journal[j].uid);
  }

  lemma CommitKeepsRow(db: Db, ctx: Context, uid: Uid, db': Db, u: Uid)
    requires Committed(db, ctx, uid, db') && u in db.rows && RowOk(db, u) && RowOk(db, uid)
    ensures u in db'.rows && RowOk(db', u) && Legal(db.rows[u], db'.rows[u])
  {
    hide StreamsOk;
    hide Execute;
    hide NormalKeys;
    assert db'.journal[|db.journal|].uid == uid;
    assert Journaled(db', u) <==> Journaled(db, u) || u == uid by {
      forall j | 0 <= j < |db.journal|
        ensures db'.journal[j] == db.journal[j]
      {
      }
    }
  }

  lemma CommitKeepsEntry(db: Db, ctx: Context, uid: Uid, db': Db, j: nat)
    requires Inv(db) && Committed(db, ctx, uid, db') && j < |db'.journal|
    requires uid in db.grants ==> db.grants[uid].at <= ctx.clock(0)
    ensures EntryOk(db', db'.journal[j])
    ensures j < |db.journal| ==> db'.journal[j].uid != uid
  {
    hide StreamsOk;
    hide Execute;
    hide NormalKeys;
    assert RowOk(db, uid);
    if j < |db.journal| {
      assert EntryOk(db, db.journal[j]);
      assert Journaled(db, db.journal[j].uid);
    }
  }

  /** A committed execution keeps every invariant: above all, this plan had no effect before. */
  lemma CommitKeeps(db: Db, ctx: Context, uid: Uid, db': Db)
    requires Inv(db) && Committed(db, ctx, uid, db')
    requires uid in db.grants ==> db.grants[uid].at <= ctx.clock(0)
    ensures Inv(db') && Follows(db, db')
  {
    hide StreamsOk;
    hide Execute;
    hide NormalKeys;
    hide RowOk;
    hide EntryOk;
    hide KeyOk;
    hide Legal;
    forall u | u in db'.rows
      ensures RowOk(db', u) && Legal(db.rows[u], db'.rows[u])
    {
      CommitKeepsRow(db, ctx, uid, db', u);
    }
    forall j | 0 <= j < |db'.journal|
      ensures EntryOk(db', db'.journal[j]) && (j < |db.journal| ==> db'.journal[j].uid != uid)
    {
      CommitKeepsEntry(db, ctx, uid, db', j);
    }
    KeysFrame(db, db');
  }

  /** A new plan has a key and an identifier that no other has, and is pending unless it needs nobody. */
  lemma InsertKeeps(db: Db, ctx: Context, access: nat, plan: Plan, u: Uid)
    requires Inv(db) && u !in db.issued && plan.prepared.normalized.Keys == NormalKeys(plan.action)
    requires 0 < ctx.env.profile.approvalTtlMinutes && ctx.began <= ctx.clock(0)
    requires Insert(db, u, NewApproval(ctx, access, plan), ctx.clock(0)).result.Ok?
    ensures var db' := Insert(db, u, NewApproval(ctx, access, plan), ctx.clock(0)).db;
            Inv(db') && Follows(db, db')
    ensures var row, optIn := NewApproval(ctx, access, plan), ctx.env.profile.autoApproveLowRisk;
            && (row.state.Pending? || row.state.Approved?) && row.approvedBy.None?
            && (row.state.Approved? <==>
                  optIn && row.risk == Low && (row.action == MessagePost || row.action == ActivitySchedule))
  {
    hide NormalKeys;
    hide RowOk;
    hide EntryOk;
    hide KeyOk;
    hide NewApproval;
    ApprovedAtOnce(ctx, access, plan);
    var row := NewApproval(ctx, access, plan);
    var db' := Insert(db, u, row, ctx.clock(0)).db;
    forall v | v in db'.rows
      ensures RowOk(db', v)
    {
      InsertKeepsRow(db, ctx, access, plan, u, v);
    }
    forall j | 0 <= j < |db'.journal|
      ensures EntryOk(db', db'.journal[j])
    {
      assert EntryOk(db, db.journal[j]);
      InsertKeepsEntry(db, u, row, ctx.clock(0), db.journal[j]);
    }
    forall k | k in db'.keys
      ensures KeyOk(db', k)
    {
      InsertKeepsKey(db, u, row, ctx.clock(0), k);
    }
  }

  lemma ApprovedAtOnce(ctx: Context, access: nat, plan: Plan)
    ensures var row := NewApproval(ctx, access, plan);
            && (row.state.Pending? || row.state.Approved?) && row.approvedBy.None?
            && (row.state.Approved? <==>
                  && ctx.env.profile.autoApproveLowRisk && row.risk == Low
                  && (row.action == MessagePost || row.action == ActivitySchedule))
  {
  }

  lemma InsertKeepsEntry(db: Db, u: Uid, row: Approval, now: int, a: Applied)
    requires EntryOk(db, a) && u !in db.issued && Insert(db, u, row, now).result.Ok?
    ensures EntryOk(Insert(db, u, row, now).db, a)
  {
  }

  lemma InsertKeepsKey(db: Db, u: Uid, row: Approval, now: int, k: (nat, string))
    requires Insert(db, u, row, now).result.Ok?
    requires k in db.keys ==> KeyOk(db, k)
    requires k in Insert(db, u, row, now).db.keys
    ensures KeyOk(Insert(db, u, row, now).db, k)
  {
  }

  lemma InsertKeepsRow(db: Db, ctx: Context, access: nat, plan: Plan, u: Uid, v: Uid)
    requires Inv(db) && u !in db.issued && plan.prepared.normalized.Keys == NormalKeys(plan.action)
    requires 0 < ctx.env.profile.approvalTtlMinutes && ctx.began <= ctx.clock(0)
    requires Insert(db, u, NewApproval(ctx, access, plan), ctx.clock(0)).result.Ok?
    requires v in db.rows || v == u
    ensures RowOk(Insert(db, u, NewApproval(ctx, access, plan), ctx.clock(0)).db, v)
  {
    hide NormalKeys;
    hide KeyOk;
    var db' := Insert(db, u, NewApproval(ctx, access, plan), ctx.clock(0)).db;
    assert Journaled(db', v) <==> Journaled(db, v);
    if v == u {
      forall j | 0 <= j < |db.journal|
        ensures db.journal[j].uid != u
      {
        assert EntryOk(db, db.journal[j]);
      }
    } else {
      assert RowOk(db, v);
    }
  }

  /** Cleaning up forgets rows, never effects. */
  lemma UnlinkKeeps(db: Db, uids: seq<Uid>)
    requires Inv(db)
    ensures Inv(Unlinked(db, uids)) && Follows(db, Unlinked(db, uids))
  {
    hide RowOk;
    hide EntryOk;
    hide KeyOk;
    var db' := Unlinked(db, uids);
    forall v | v in db'.rows
      ensures RowOk(db', v)
    {
      UnlinkKeepsRow(db, uids, v);
    }
    forall j | 0 <= j < |db'.journal|
      ensures EntryOk(db', db'.journal[j])
    {
      assert EntryOk(db, db.journal[j]);
      UnlinkKeepsEntry(db, uids, db.journal[j]);
    }
    forall k | k in db'.keys
      ensures KeyOk(db', k)
    {
      assert KeyOk(db, k);
      UnlinkKeepsKey(db, uids, k);
    }
  }

  lemma UnlinkKeepsRow(db: Db, uids: seq<Uid>, v: Uid)
    requires v in db.rows && RowOk(db, v) && v !in uids
    ensures RowOk(Unlinked(db, uids), v)
  {
    hide NormalKeys;
    assert Journaled(Unlinked(db, uids), v) <==> Journaled(db, v);
  }

  lemma UnlinkKeepsEntry(db: Db, uids: seq<Uid>, a: Applied)
    requires EntryOk(db, a)
    ensures EntryOk(Unlinked(db, uids), a)
  {
  }

  lemma UnlinkKeepsKey(db: Db, uids: seq<Uid>, k: (nat, string))
    requires k in Unlinked(db, uids).keys && KeyOk(db, k)
    ensures KeyOk(Unlinked(db, uids), k)
  {
  }

  /** A lawful step that has no business effect. */
  ghost predicate Quiet(db: Db, db': Db) {
    Follows(db, db') && db'.store == db.store && db'.journal == db.journal
  }

  lemma QuietOn(a: Db, b: Db, c: Db)
    requires Inv(a) && Quiet(a, b) && Quiet(b, c)
    ensures Quiet(a, c)
  {
    hide Follows;
    hide EntryOk;
    hide KeyOk;
    FollowsOn(a, b, c);
  }

  lemma SoundLater(db: Db, created: int, granted: int, created': int, granted': int)
    requires Sound(db, created, granted) && created <= created' && granted <= granted'
    ensures Sound(db, created', granted')
  {
    hide Inv;
    hide StreamsOk;
  }

  lemma WriteTimes(db: Db, uids: seq<Uid>, change: Change, db': Db, created: int, granted: int)
    requires Written(db, uids, change, db') && TimesOk(db, created, granted)
    ensures TimesOk(db', created, granted)
  {
    hide StreamsOk;
  }

  lemma WriteSound(db: Db, ctx: Context, uids: seq<Uid>, change: Change, created: int, granted: int)
    requires Sound(db, created, granted) && forall u :: u in uids ==> u in db.rows && May(db, u, change)
    requires SystemWrite(db, ctx, uids, change).result.Ok?
    ensures var db' := SystemWrite(db, ctx, uids, change).db; Sound(db', created, granted) && Quiet(db, db')
  {
    hide SystemWrite;
    hide May;
    hide Inv;
    hide TimesOk;
    hide StreamsOk;
    hide Follows;
    var db' := SystemWrite(db, ctx, uids, change).db;
    WriteIs(db, ctx, uids, change);
    WriteKeeps(db, uids, change, db');
    WriteTimes(db, uids, change, db', created, granted);
  }

  lemma GrantSound(db: Db, u: Uid, g: Grant, created: int, granted: int)
    requires Sound(db, created, granted) && u in db.rows && db.rows[u].state.Pending? && g.at <= granted
    ensures Sound(Granted(db, u, g), created, granted) && Quiet(db, Granted(db, u, g))
  {
    hide Inv;
    hide StreamsOk;
    hide Follows;
    GrantKeeps(db, u, g);
    StreamsFrame(db, Granted(db, u, g));
  }

  /** One successful turn of action_approve. */
  lemma ApproveOne(db: Db, ctx: Context, user: nat, u: Uid, at: int, stamp: int)
    requires Sound(db, ctx.began, ctx.ended) && u in db.rows && db.rows[u].state.Pending?
    requires ctx.began <= at <= ctx.ended && at < db.rows[u].expiresAt
    requires SystemWrite(Granted(db, u, Grant(Some(user), at)), ctx, [u], ToApproved(user, stamp)).result.Ok?
    ensures var db' := SystemWrite(Granted(db, u, Grant(Some(user), at)), ctx, [u], ToApproved(user, stamp)).db;
            Sound(db', ctx.began, ctx.ended) && Quiet(db, db')
  {
    hide SystemWrite;
    hide Inv;
    hide StreamsOk;
    hide Follows;
    var granted := Granted(db, u, Grant(Some(user), at));
    GrantSound(db, u, Grant(Some(user), at), ctx.began, ctx.ended);
    assert May(granted, u, ToApproved(user, stamp));
    hide TimesOk;
    WriteSound(granted, ctx, [u], ToApproved(user, stamp), ctx.began, ctx.ended);
    QuietOn(db, granted, SystemWrite(granted, ctx, [u], ToApproved(user, stamp)).db);
  }

  lemma {:induction false} ApproveKeeps(db: Db, ctx: Context, user: nat, uids: seq<Uid>, i: nat)
    requires InTime(ctx.began, ctx) && Sound(db, ctx.began, ctx.ended) && i <= |uids|
    requires ApproveFrom(db, ctx, user, uids, i).result.Ok?
    ensures var db' := ApproveFrom(db, ctx, user, uids, i).db; Sound(db', ctx.began, ctx.ended) && Quiet(db, db')
    decreases |uids| - i
  {
    hide SystemWrite;
    hide Sound;
    hide Quiet;
    if i == |uids| {
      QuietSelf(db);
    } else {
      var u, at, stamp := uids[i], ctx.clock(2 * i), ctx.clock(2 * i + 1);
      ApproveOne(db, ctx, user, u, at, stamp);
      var next := SystemWrite(Granted(db, u, Grant(Some(user), at)), ctx, [u], ToApproved(user, stamp)).db;
      ApproveKeeps(next, ctx, user, uids, i + 1);
      SoundInv(db, ctx.began, ctx.ended);
      QuietOn(db, next, ApproveFrom(next, ctx, user, uids, i + 1).db);
    }
  }

  lemma QuietSelf(db: Db)
    ensures Quiet(db, db)
  {
  }

  lemma SoundInv(db: Db, created: int, granted: int)
    requires Sound(db, created, granted)
    ensures Inv(db)
  {
  }

  lemma {:induction false} RejectKeeps(db: Db, ctx: Context, user: nat, uids: seq<Uid>, i: nat)
    requires Sound(db, ctx.began, ctx.ended) && i <= |uids|
    requires RejectFrom(db, ctx, user, uids, i).result.Ok?
    ensures var db' := RejectFrom(db, ctx, user, uids, i).db; Sound(db', ctx.began, ctx.ended) && Quiet(db, db')
    decreases |uids| - i
  {
    hide SystemWrite;
    hide Sound;
    hide Quiet;
    if i == |uids| {
      QuietSelf(db);
    } else {
      var change := ToRejected(user, ctx.clock(i));
      assert May(db, uids[i], change);
      WriteSound(db, ctx, [uids[i]], change, ctx.began, ctx.ended);
      var next := SystemWrite(db, ctx, [uids[i]], change).db;
      RejectKeeps(next, ctx, user, uids, i + 1);
      SoundInv(db, ctx.began, ctx.ended);
      QuietOn(db, next, RejectFrom(next, ctx, user, uids, i + 1).db);
    }
  }

  lemma DecideKeeps(db: Db, ctx: Context, decision: Decision, user: nat, manager: bool, uids: seq<Uid>)
    requires InTime(ctx.began, ctx) && Sound(db, ctx.began, ctx.ended)
    ensures var db' := Durable(db, Decide(db, ctx, decision, user, manager, uids)).db;
            Sound(db', ctx.began, ctx.ended) && Quiet(db, db')
  {
    hide Sound;
    hide Quiet;
    hide ApproveFrom;
    hide RejectFrom;
    QuietSelf(db);
    if Decide(db, ctx, decision, user, manager, uids).result.Ok? {
      if decision.Approve? {
        ApproveKeeps(db, ctx, user, uids, 0);
      } else {
        RejectKeeps(db, ctx, user, uids, 0);
      }
    }
  }

  lemma PreviewKeeps(db: Db, ctx: Context, access: nat, params: Object, newUid: Uid)
    requires InTime(ctx.began, ctx) && Sound(db, ctx.began, ctx.ended) && newUid !in db.issued
    ensures var db' := Durable(db, ChangePreview(db, ctx, access, params, newUid)).db;
            Sound(db', ctx.began, ctx.ended) && Quiet(db, db')
  {
    hide PlanOf;
    hide Inv;
    hide Follows;
    hide Insert;
    QuietSelf(db);
    var out := ChangePreview(db, ctx, access, params, newUid);
    if out.result.Ok? && out.db != db {
      var plan := PlanOf(ctx.env, db.store, params).value;
      PlanKeys(ctx.env, db.store, params);
      InsertKeeps(db, ctx, access, plan, newUid);
      InsertTimes(db, ctx, access, plan, newUid);
      StreamsFrame(db, out.db);
    }
  }

  lemma PlanKeys(env: Env, store: Store, params: Object)
    requires PlanOf(env, store, params).Ok?
    ensures var plan := PlanOf(env, store, params).value; plan.prepared.normalized.Keys == NormalKeys(plan.action)
  {
    hide Prepare;
    hide NormalKeys;
    NormalFormKeys(env, store, PlanOf(env, store, params).value.action, Get(params, "payload").fields);
  }

  lemma InsertTimes(db: Db, ctx: Context, access: nat, plan: Plan, u: Uid)
    requires InTime(ctx.began, ctx) && TimesOk(db, ctx.began, ctx.ended)
    requires Insert(db, u, NewApproval(ctx, access, plan), ctx.clock(0)).result.Ok?
    ensures var db' := Insert(db, u, NewApproval(ctx, access, plan), ctx.clock(0)).db;
            && TimesOk(db', ctx.began, ctx.ended) && db'.store == db.store && db'.journal == db.journal
            && db'.bus == db.bus && db'.versions == db.versions
  {
  }

  lemma StatusKeeps(db: Db, ctx: Context, access: nat, params: Object)
    requires Sound(db, ctx.began, ctx.ended)
    ensures var db' := Durable(db, ChangeStatus(db, ctx, access, params)).db;
            Sound(db', ctx.began, ctx.ended) && Quiet(db, db')
  {
    hide Sound;
    hide Quiet;
    hide SystemWrite;
    QuietSelf(db);
    var out := ChangeStatus(db, ctx, access, params);
    if out.result.Ok? && out.db != db {
      var uid := ApprovalFor(db, access, params).value;
      assert May(db, uid, ToExpired);
      WriteSound(db, ctx, [uid], ToExpired, ctx.began, ctx.ended);
    }
  }

  /** An execution either commits or has no business effect. */
  lemma ExecuteKeeps(db: Db, ctx: Context, access: nat, params: Object)
    requires InTime(ctx.began, ctx) && Sound(db, ctx.began, ctx.began)
    ensures var db' := Durable(db, ChangeExecute(db, ctx, access, params)).db;
            && Sound(db', ctx.began, ctx.ended) && Follows(db, db')
            && (Quiet(db, db')
                || (&& ApprovalFor(db, access, params).Ok?
                    && Committed(db, ctx, ApprovalFor(db, access, params).value, db')))
  {
    hide ChangeExecute;
    hide Inv;
    hide Follows;
    hide TimesOk;
    hide StreamsOk;
    hide Committed;
    hide Written;
    FollowsSelf(db);
    SoundLater(db, ctx.began, ctx.began, ctx.began, ctx.ended);
    ExecutionIsAtomic(db, ctx, access, params);
    var o := Durable(db, ChangeExecute(db, ctx, access, params));
    if o.result.Ok? && o.db != db {
      var uid := ApprovalFor(db, access, params).value;
      if db.rows[uid].expiresAt <= ctx.clock(0) {
        ExpiredSound(db, ctx, uid, o.db);
      } else {
        CommitSound(db, ctx, uid, o.db);
      }
    }
  }

  lemma ExpiredSound(db: Db, ctx: Context, uid: Uid, db': Db)
    requires Sound(db, ctx.began, ctx.ended) && uid in db.rows && !db.rows[uid].state.Executed?
    requires Written(db, [uid], ToExpired, db')
    ensures Sound(db', ctx.began, ctx.ended) && Quiet(db, db')
  {
    hide Inv;
    hide TimesOk;
    hide StreamsOk;
    hide Follows;
    assert May(db, uid, ToExpired);
    WriteKeeps(db, [uid], ToExpired, db');
    WriteTimes(db, [uid], ToExpired, db', ctx.began, ctx.ended);
  }

  lemma CommitSound(db: Db, ctx: Context, uid: Uid, db': Db)
    requires InTime(ctx.began, ctx) && Sound(db, ctx.began, ctx.began) && Committed(db, ctx, uid, db')
    ensures Sound(db', ctx.began, ctx.ended) && Follows(db, db')
  {
    hide Inv;
    hide StreamsOk;
    hide Follows;
    hide Execute;
    CommitKeeps(db, ctx, uid, db');
  }

  lemma CollectKeeps(db: Db, ctx: Context, overdue: seq<Uid>, finished: seq<Uid>)
    requires Sound(db, ctx.began, ctx.ended) && Found(db.rows, overdue, Overdue(ctx.clock(0)))
    ensures var db' := Durable(db, Collect(db, ctx, overdue, finished)).db;
            Sound(db', ctx.began, ctx.ended) && Quiet(db, db')
  {
    hide SystemWrite;
    hide Inv;
    hide Follows;
    hide Unlinked;
    QuietSelf(db);
    if Collect(db, ctx, overdue, finished).result.Ok? {
      forall u | u in overdue
        ensures May(db, u, ToExpired)
      {
      }
      WriteSound(db, ctx, overdue, ToExpired, ctx.began, ctx.ended);
      var expired := SystemWrite(db, ctx, overdue, ToExpired).db;
      UnlinkKeeps(expired, finished);
      UnlinkTimes(expired, finished, ctx.began, ctx.ended);
      StreamsFrame(expired, Unlinked(expired, finished));
      QuietOn(db, expired, Unlinked(expired, finished));
    }
  }

  lemma UnlinkTimes(db: Db, uids: seq<Uid>, created: int, granted: int)
    requires TimesOk(db, created, granted)
    ensures var db' := Unlinked(db, uids);
            && TimesOk(db', created, granted) && db'.store == db.store && db'.journal == db.journal
            && db'.bus == db.bus && db'.versions == db.versions
  {
  }

  lemma BusinessKeeps(db: Db, store: Store, created: int, granted: int)
    requires Sound(db, created, granted)
    ensures Sound(db.(store := store), created, granted) && Follows(db, db.(store := store))
  {
    var db' := db.(store := store);
    forall u | u in db'.rows
      ensures RowOk(db', u)
    {
      assert RowOk(db, u);
      assert Journaled(db', u) <==> Journaled(db, u);
    }
    hide RowOk;
    forall j | 0 <= j < |db'.journal|
      ensures EntryOk(db', db'.journal[j])
    {
      assert EntryOk(db, db.journal[j]);
    }
    KeysFrame(db, db');
    StreamsFrame(db, db');
  }

  /** A request executed plan uid, and that is all it did. */
  ghost predicate Executes(w: World, e: Event, uid: Uid) {
    && Enabled(w, e) && e.Request? && e.call.RunChange? && Get(e.params, "approval_id") == Str(uid)
    && Committed(w.db, e.ctx, uid, Next(w, e).db)
  }

  /** Each transaction keeps every invariant, follows the last, and touches business records only
      by executing one plan. */
  lemma StepKeeps(w: World, e: Event)
    requires WorldOk(w) && Enabled(w, e)
    ensures WorldOk(Next(w, e)) && Follows(w.db, Next(w, e).db) && w.now <= Next(w, e).now
    ensures Quiet(w.db, Next(w, e).db) || e.Business? || exists uid :: Executes(w, e, uid)
  {
    hide Sound;
    hide ChangePreview;
    hide ChangeStatus;
    hide ChangeExecute;
    hide Decide;
    hide Collect;
    hide Committed;
    hide Follows;
    match e
    case Request(ctx, access, call, params, newUid) =>
      SoundLater(w.db, w.now, w.now, ctx.began, ctx.began);
      SoundLater(w.db, w.now, w.now, ctx.began, ctx.ended);
      match call {
        case Preview => PreviewKeeps(w.db, ctx, access, params, newUid);
        case Status => StatusKeeps(w.db, ctx, access, params);
        case RunChange =>
          ExecuteKeeps(w.db, ctx, access, params);
          if !Quiet(w.db, Next(w, e).db) {
            assert Executes(w, e, ApprovalFor(w.db, access, params).value);
          }
      }
      SoundLater(Next(w, e).db, ctx.began, ctx.ended, ctx.ended, ctx.ended);
    case Decision(ctx, decision, user, manager, uids) =>
      SoundLater(w.db, w.now, w.now, ctx.began, ctx.ended);
      DecideKeeps(w.db, ctx, decision, user, manager, uids);
      SoundLater(Next(w, e).db, ctx.began, ctx.ended, ctx.ended, ctx.ended);
    case Cleanup(ctx, retentionDays, overdue, finished) =>
      SoundLater(w.db, w.now, w.now, ctx.began, ctx.ended);
      CollectKeeps(w.db, ctx, overdue, finished);
      SoundLater(Next(w, e).db, ctx.began, ctx.ended, ctx.ended, ctx.ended);
    case Business(store) => BusinessKeeps(w.db, store, w.now, w.now);
  }

  /** Safety of every run: the invariants hold at its end, plans only moved lawfully since its
      beginning, and journal and bus only grew. */
  lemma {:induction false} RunKeeps(w: World, events: seq<Event>)
    requires WorldOk(w) && Possible(w, events)
    ensures WorldOk(Run(w, events)) && Follows(w.db, Run(w, events).db)
    decreases |events|
  {
    hide Follows;
    hide Sound;
    hide Next;
    hide Enabled;
    if events == [] {
      FollowsSelf(w.db);
    } else {
      StepKeeps(w, events[0]);
      RunKeeps(Next(w, events[0]), events[1..]);
      Issued(w);
      FollowsOn(w.db, Next(w, events[0]).db, Run(w, events).db);
    }
  }

  lemma Issued(w: World)
    requires WorldOk(w)
    ensures forall u :: u in w.db.rows ==> u in w.db.issued
  {
    forall u | u in w.db.rows
      ensures u in w.db.issued
    {
      IssuedRow(w.db, u);
    }
  }
}
