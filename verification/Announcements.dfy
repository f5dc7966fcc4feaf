/** What the approval workflow announces: which resource each notice is about, and one notice for each
    plan that a transaction writes. */
module Announcements {
  import opened Wrappers
  import opened Policies
  import opened Approvals
  import opened ApprovalRuns

  predicate Digits(s: string) {
    forall i :: 0 <= i < |s| ==> '0' <= s[i] <= '9'
  }

  /** The number that a string of digits stands for. */
  function Value(s: string): nat
    requires Digits(s)
  {
    if s == [] then 0 else 10 * Value(s[..|s| - 1]) + (s[|s| - 1] - '0') as nat
  }

  /** Ids are written as decimal numerals, without leading zeros. */
  lemma {:induction false} DecimalIsANumeral(n: nat)
    ensures Decimal(n) != "" && Digits(Decimal(n)) && Value(Decimal(n)) == n
    ensures Decimal(n)[0] == '0' ==> n == 0
  {
    if 10 <= n {
      DecimalIsANumeral(n / 10);
      assert Decimal(n)[..|Decimal(n)| - 1] == Decimal(n / 10);
    }
  }

  /** Where the model's name ends in a record's uri. */
  lemma SlashSplits(a: string, b: string, c: string, d: string)
    requires a + "/" + b == c + "/" + d && '/' !in a && '/' !in c
    ensures a == c && b == d
  {
    BeforeSlashIs(a, b);
    BeforeSlashIs(c, d);
    AfterPrefix(a + "/", b, d);
  }

  function BeforeSlash(s: string): string {
    if s == "" || s[0] == '/' then "" else [s[0]] + BeforeSlash(s[1..])
  }

  lemma {:induction false} BeforeSlashIs(a: string, b: string)
    requires '/' !in a
    ensures BeforeSlash(a + "/" + b) == a
  {
    if a != "" {
      BeforeSlashIs(a[1..], b);
      assert (a + "/" + b)[1..] == a[1..] + "/" + b;
    }
  }

  lemma ProperNamesHaveNoSlash(name: string)
    requires ValidName(name)
    ensures '/' !in name
  {
  }

  lemma AfterPrefix(p: string, a: string, b: string)
    requires p + a == p + b
    ensures a == b
  {
    assert (p + a)[|p|..] == a && (p + b)[|p|..] == b;
  }

  /** Different plans are announced under different uris. */
  lemma PlanUrisDiffer(uid: Uid, uid': Uid)
    ensures ApprovalUri(uid) == "odoo://approval/" + uid
    ensures ApprovalUri(uid) == ApprovalUri(uid') ==> uid == uid'
  {
    assert ApprovalUri(uid) == "odoo://approval/" + uid;
    assert ApprovalUri(uid') == "odoo://approval/" + uid';
    hide ApprovalUri;
    if ApprovalUri(uid) == ApprovalUri(uid') {
      AfterPrefix("odoo://approval/", uid, uid');
    }
  }

  /** A record's uri is its model's name and its id in decimal. */
  lemma RecordUriIs(model: string, id: nat)
    ensures RecordUri(model, id) == "odoo://record/" + (model + "/" + Decimal(id))
  {
    hide Decimal;
  }

  /** Different records are announced under different uris. */
  lemma RecordUrisDiffer(model: string, id: nat, model': string, id': nat)
    requires ValidName(model) && ValidName(model') && RecordUri(model, id) == RecordUri(model', id')
    ensures model == model' && id == id'
  {
    hide RecordUri;
    hide ValidName;
    hide Decimal;
    RecordUriIs(model, id);
    RecordUriIs(model', id');
    AfterPrefix("odoo://record/", model + "/" + Decimal(id), model' + "/" + Decimal(id'));
    ProperNamesHaveNoSlash(model);
    ProperNamesHaveNoSlash(model');
    SlashSplits(model, Decimal(id), model', Decimal(id'));
    DecimalIsANumeral(id);
    DecimalIsANumeral(id');
  }

  /** And no plan's uri is a record's. */
  lemma PlansAreNotRecords(uid: Uid, model: string, id: nat)
    ensures ApprovalUri(uid) != RecordUri(model, id)
  {
    hide Decimal;
    RecordUriIs(model, id);
    assert ApprovalUri(uid)[7] == 'a' && ("odoo://record/" + (model + "/" + Decimal(id)))[7] == 'r';
  }

  /** What came onto the bus: one notice about each of these plans, in order. */
  ghost predicate Announced(db: Db, uids: seq<Uid>, bus: seq<Notice>) {
    && |bus| == |db.bus| + |uids| && db.bus <= bus
    && forall i :: 0 <= i < |uids| ==>
         && uids[i] in db.rows && bus[|db.bus| + i].access == db.rows[uids[i]].access
         && bus[|db.bus| + i].uri == ApprovalUri(uids[i])
  }

  lemma {:induction false} PublishedEach(db: Db, ctx: Context, notices: seq<(nat, string)>)
    requires PublishAll(db, ctx, notices).result.Ok?
    ensures var bus := PublishAll(db, ctx, notices).db.bus;
            && |bus| == |db.bus| + |notices| && db.bus <= bus
            && forall i :: 0 <= i < |notices| ==>
                 bus[|db.bus| + i].access == notices[i].0 && bus[|db.bus| + i].uri == notices[i].1
    decreases |notices|
  {
    if notices != [] {
      var next := Publish(db, ctx, notices[0].0, notices[0].1).db;
      PublishedEach(next, ctx, notices[1..]);
      var bus := PublishAll(next, ctx, notices[1..]).db.bus;
      assert bus[|db.bus|] == next.bus[|db.bus|];
      forall i | 0 < i < |notices|
        ensures bus[|db.bus| + i].access == notices[i].0 && bus[|db.bus| + i].uri == notices[i].1
      {
        assert notices[1..][i - 1] == notices[i] && |db.bus| + i == |next.bus| + (i - 1);
      }
    }
  }

  /** A state write announces each plan that it writes, to the plan's own access. */
  lemma WritesAreAnnounced(db: Db, ctx: Context, uids: seq<Uid>, change: Change)
    requires forall u :: u in uids ==> u in db.rows
    requires SystemWrite(db, ctx, uids, change).result.Ok?
    ensures Announced(db, uids, SystemWrite(db, ctx, uids, change).db.bus)
  {
    hide PublishAll;
    hide Assigned;
    var notices := ApprovalNotices(db.rows, uids);
    PublishedEach(db.(rows := Assigned(db.rows, uids, change)), ctx, notices);
    forall i | 0 <= i < |uids|
      ensures uids[i] in db.rows && notices[i] == (db.rows[uids[i]].access, ApprovalUri(uids[i]))
    {
    }
  }

  lemma AnnouncedOn(db: Db, next: Db, bus: seq<Notice>, uids: seq<Uid>)
    requires uids != [] && uids[0] in db.rows && Announced(db, [uids[0]], next.bus) && Announced(next, uids[1..], bus)
    requires next.rows.Keys == db.rows.Keys && forall u :: u in db.rows ==> next.rows[u].access == db.rows[u].access
    ensures Announced(db, uids, bus)
  {
    assert [uids[0]][0] == uids[0] && bus[|db.bus|] == next.bus[|db.bus| + 0];
    forall i | 0 < i < |uids|
      ensures && uids[i] in db.rows && bus[|db.bus| + i].access == db.rows[uids[i]].access
              && bus[|db.bus| + i].uri == ApprovalUri(uids[i])
    {
      assert uids[1..][i - 1] == uids[i] && |db.bus| + i == |next.bus| + (i - 1);
    }
  }

  lemma OneTurn(db: Db, granted: Db, ctx: Context, u: Uid, change: Change)
    requires u in db.rows && granted == db.(grants := granted.grants)
    requires SystemWrite(granted, ctx, [u], change).result.Ok?
    ensures var next := SystemWrite(granted, ctx, [u], change).db;
            && Announced(db, [u], next.bus) && next.rows.Keys == db.rows.Keys
            && forall v :: v in db.rows ==> next.rows[v].access == db.rows[v].access
  {
    hide SystemWrite;
    WritesAreAnnounced(granted, ctx, [u], change);
    RowsKept(granted, ctx, [u], change);
  }

  /** A manager's decision announces each plan of its selection, in order. */
  lemma {:induction false} ApprovalIsAnnounced(db: Db, ctx: Context, user: nat, uids: seq<Uid>, i: nat)
    requires i <= |uids| && ApproveFrom(db, ctx, user, uids, i).result.Ok?
    ensures Announced(db, uids[i..], ApproveFrom(db, ctx, user, uids, i).db.bus)
    decreases |uids| - i
  {
    hide SystemWrite;
    hide Announced;
    if i < |uids| {
      var granted := Granted(db, uids[i], Grant(Some(user), ctx.clock(2 * i)));
      var change := ToApproved(user, ctx.clock(2 * i + 1));
      OneTurn(db, granted, ctx, uids[i], change);
      var next := SystemWrite(granted, ctx, [uids[i]], change).db;
      ApprovalIsAnnounced(next, ctx, user, uids, i + 1);
      assert uids[i..][1..] == uids[i + 1..];
      AnnouncedOn(db, next, ApproveFrom(next, ctx, user, uids, i + 1).db.bus, uids[i..]);
    } else {
      NothingAnnounced(db, uids[i..]);
    }
  }

  lemma NothingAnnounced(db: Db, none: seq<Uid>)
    requires none == []
    ensures Announced(db, none, db.bus)
  {
  }

  lemma {:induction false} RejectionIsAnnounced(db: Db, ctx: Context, user: nat, uids: seq<Uid>, i: nat)
    requires i <= |uids| && RejectFrom(db, ctx, user, uids, i).result.Ok?
    ensures Announced(db, uids[i..], RejectFrom(db, ctx, user, uids, i).db.bus)
    decreases |uids| - i
  {
    hide SystemWrite;
    hide Announced;
    if i < |uids| {
      var change := ToRejected(user, ctx.clock(i));
      OneTurn(db, db, ctx, uids[i], change);
      var next := SystemWrite(db, ctx, [uids[i]], change).db;
      RejectionIsAnnounced(next, ctx, user, uids, i + 1);
      assert uids[i..][1..] == uids[i + 1..];
      AnnouncedOn(db, next, RejectFrom(next, ctx, user, uids, i + 1).db.bus, uids[i..]);
    } else {
      NothingAnnounced(db, uids[i..]);
    }
  }

  /** Every decision that goes through, and every cleanup, announces exactly the plans that it decides
      on or expires, each once for each time it is named and to its own access. */
  lemma DecisionsAreAnnounced(w: World, e: Event)
    requires Enabled(w, e) && (e.Decision? || e.Cleanup?) && Next(w, e).db != w.db
    ensures Announced(w.db, if e.Decision? then e.uids else e.overdue, Next(w, e).db.bus)
  {
    hide ApproveFrom;
    hide RejectFrom;
    hide SystemWrite;
    hide Announced;
    if e.Cleanup? {
      WritesAreAnnounced(w.db, e.ctx, e.overdue, ToExpired);
    } else {
      assert e.uids[0..] == e.uids;
      if e.decision.Approve? {
        ApprovalIsAnnounced(w.db, e.ctx, e.user, e.uids, 0);
      } else {
        RejectionIsAnnounced(w.db, e.ctx, e.user, e.uids, 0);
      }
    }
  }
}
