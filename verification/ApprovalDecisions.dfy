/** What a manager's decision on a selection of plans does, all of it or nothing. */
module ApprovalDecisions {
  import opened Wrappers
  import opened Approvals
  import opened ApprovalSteps

  /** Every plan of a selection may be approved: none twice, each pending and in time when its turn comes. */
  ghost predicate Approvable(db: Db, ctx: Context, uids: seq<Uid>, i: nat)
    requires i <= |uids|
  {
    && (forall j, k :: i <= j < k < |uids| ==> uids[j] != uids[k])
    && (forall k: nat :: i <= k < |uids| ==>
          uids[k] in db.rows && db.rows[uids[k]].state.Pending? && ctx.clock(2 * k) < db.rows[uids[k]].expiresAt)
  }

  /** The rows after a decision: the plans from the i-th on decided, the others as they were. */
  ghost predicate Decided(db: Db, db': Db, uids: seq<Uid>, i: nat, after: (nat, Approval) -> Approval)
    requires i <= |uids|
  {
    && db'.rows.Keys == db.rows.Keys
    && (forall k: nat :: i <= k < |uids| ==>
          uids[k] in db.rows && db'.rows[uids[k]] == after(k, db.rows[uids[k]]))
    && (forall u :: u in db.rows && u !in uids[i..] ==> db'.rows[u] == db.rows[u])
  }

  /** The bus takes everything. */
  ghost predicate Willing(ctx: Context) {
    forall access: nat, version: nat :: ctx.accepts(access, version)
  }

  lemma WillingWrites(db: Db, ctx: Context, u: Uid, change: Change)
    requires u in db.rows
    ensures Willing(ctx) ==> SystemWrite(db, ctx, [u], change).result.Ok?
    ensures SystemWrite(db, ctx, [u], change).result.Ok? ==>
              SystemWrite(db, ctx, [u], change).db.rows == db.rows[u := Assign(db.rows[u], change)]
  {
    hide SystemWrite;
    hide StreamsOk;
    hide Assign;
    WriteAnnounces(db, ctx, u, change);
    if SystemWrite(db, ctx, [u], change).result.Ok? {
      WriteIs(db, ctx, [u], change);
      assert Assigned(db.rows, [u], change) == db.rows[u := Assign(db.rows[u], change)];
    }
  }

  /** A plan after its approval as the k-th of a selection: approved, by whom and when, and otherwise
      as it was. */
  function ApprovalOf(user: nat, ctx: Context): (nat, Approval) -> Approval {
    (k: nat, row: Approval) =>
      row.(state := Approved, approvedBy := Some(user), approvedAt := Some(ctx.clock(2 * k + 1)))
  }

  /** Approval takes the whole selection or, its transaction failing, nothing: it succeeds only when
      every plan may be approved, and, the bus willing, whenever that is so. */
  lemma {:induction false} ApprovalTakesAll(db: Db, ctx: Context, user: nat, uids: seq<Uid>, i: nat)
    requires i <= |uids|
    ensures var out := ApproveFrom(db, ctx, user, uids, i);
            && (out.result.Ok? ==> Approvable(db, ctx, uids, i) && Decided(db, out.db, uids, i, ApprovalOf(user, ctx)))
            && (Willing(ctx) && Approvable(db, ctx, uids, i) ==> out.result.Ok?)
    decreases |uids| - i
  {
    hide SystemWrite;
    hide Willing;
    if i < |uids| && uids[i] in db.rows && db.rows[uids[i]].state.Pending?
       && ctx.clock(2 * i) < db.rows[uids[i]].expiresAt {
      var granted := Granted(db, uids[i], Grant(Some(user), ctx.clock(2 * i)));
      var change := ToApproved(user, ctx.clock(2 * i + 1));
      WillingWrites(granted, ctx, uids[i], change);
      var next := SystemWrite(granted, ctx, [uids[i]], change);
      if next.result.Ok? {
        ApprovalTakesAll(next.db, ctx, user, uids, i + 1);
        ApprovableOn(db, next.db, ctx, user, uids, i);
        if ApproveFrom(db, ctx, user, uids, i).result.Ok? {
          DecidedOn(db, next.db, ApproveFrom(db, ctx, user, uids, i).db, uids, i, ApprovalOf(user, ctx));
        }
      }
    }
  }

  lemma ApprovableOn(db: Db, next: Db, ctx: Context, user: nat, uids: seq<Uid>, i: nat)
    requires i < |uids| && uids[i] in db.rows && db.rows[uids[i]].state.Pending?
    requires ctx.clock(2 * i) < db.rows[uids[i]].expiresAt
    requires next.rows == db.rows[uids[i] := ApprovalOf(user, ctx)(i, db.rows[uids[i]])]
    ensures Approvable(next, ctx, uids, i + 1) <==> Approvable(db, ctx, uids, i)
  {
    if Approvable(next, ctx, uids, i + 1) {
      forall k: nat | i < k < |uids|
        ensures uids[k] != uids[i]
      {
        assert next.rows[uids[k]].state.Pending?;
      }
    }
  }

  lemma DecidedOn(db: Db, next: Db, last: Db, uids: seq<Uid>, i: nat, after: (nat, Approval) -> Approval)
    requires i < |uids| && uids[i] in db.rows && next.rows == db.rows[uids[i] := after(i, db.rows[uids[i]])]
    requires Decided(next, last, uids, i + 1, after) && forall k: nat :: i < k < |uids| ==> uids[k] != uids[i]
    ensures Decided(db, last, uids, i, after)
  {
    assert uids[i..] == [uids[i]] + uids[i + 1..];
    forall k: nat | i <= k < |uids|
      ensures uids[k] in db.rows && last.rows[uids[k]] == after(k, db.rows[uids[k]])
    {
      if k == i {
        assert uids[i] !in uids[i + 1..];
      } else {
        assert uids[k] != uids[i];
      }
    }
  }

  /** A plan after its rejection. */
  function RejectionOf(user: nat, ctx: Context): (nat, Approval) -> Approval {
    (k: nat, row: Approval) => row.(state := Rejected, rejectedBy := Some(user), rejectedAt := Some(ctx.clock(k)))
  }

  ghost predicate Rejectable(db: Db, uids: seq<Uid>, i: nat)
    requires i <= |uids|
  {
    && (forall j, k :: i <= j < k < |uids| ==> uids[j] != uids[k])
    && (forall k :: i <= k < |uids| ==>
          uids[k] in db.rows && (db.rows[uids[k]].state.Pending? || db.rows[uids[k]].state.Approved?))
  }

  /** Rejection, likewise, needs every plan of the selection to be still undecided or approved. */
  lemma {:induction false} RejectionTakesAll(db: Db, ctx: Context, user: nat, uids: seq<Uid>, i: nat)
    requires i <= |uids|
    ensures var out := RejectFrom(db, ctx, user, uids, i);
            && (out.result.Ok? ==> Rejectable(db, uids, i) && Decided(db, out.db, uids, i, RejectionOf(user, ctx)))
            && (Willing(ctx) && Rejectable(db, uids, i) ==> out.result.Ok?)
    decreases |uids| - i
  {
    hide SystemWrite;
    hide Willing;
    if i < |uids| && uids[i] in db.rows && (db.rows[uids[i]].state.Pending? || db.rows[uids[i]].state.Approved?) {
      var change := ToRejected(user, ctx.clock(i));
      WillingWrites(db, ctx, uids[i], change);
      var next := SystemWrite(db, ctx, [uids[i]], change);
      if next.result.Ok? {
        RejectionTakesAll(next.db, ctx, user, uids, i + 1);
        RejectableOn(db, next.db, ctx, user, uids, i);
        if RejectFrom(db, ctx, user, uids, i).result.Ok? {
          DecidedOn(db, next.db, RejectFrom(db, ctx, user, uids, i).db, uids, i, RejectionOf(user, ctx));
        }
      }
    }
  }

  lemma RejectableOn(db: Db, next: Db, ctx: Context, user: nat, uids: seq<Uid>, i: nat)
    requires i < |uids| && uids[i] in db.rows && (db.rows[uids[i]].state.Pending? || db.rows[uids[i]].state.Approved?)
    requires next.rows == db.rows[uids[i] := RejectionOf(user, ctx)(i, db.rows[uids[i]])]
    ensures Rejectable(next, uids, i + 1) <==> Rejectable(db, uids, i)
  {
    if Rejectable(next, uids, i + 1) {
      forall k | i < k < |uids|
        ensures uids[k] != uids[i]
      {
        assert next.rows[uids[k]].state != Rejected;
      }
    }
  }

  /** What an approval records: a grant by its user for each plan of the selection, with the reading of
      the clock against which its expiry was tested, and no other. */
  lemma {:induction false} ApprovalRecords(db: Db, ctx: Context, user: nat, uids: seq<Uid>, i: nat, u: Uid)
    requires i <= |uids| && ApproveFrom(db, ctx, user, uids, i).result.Ok?
    ensures var grants := ApproveFrom(db, ctx, user, uids, i).db.grants;
            && (u in db.grants ==> u in grants)
            && (u in grants ==>
                  || (u !in uids[i..] && u in db.grants && grants[u] == db.grants[u])
                  || exists k: nat :: i <= k < |uids| && uids[k] == u
                                      && grants[u] == Grant(Some(user), ctx.clock(2 * k)))
    decreases |uids| - i
  {
    hide SystemWrite;
    if i < |uids| {
      var granted := Granted(db, uids[i], Grant(Some(user), ctx.clock(2 * i)));
      var change := ToApproved(user, ctx.clock(2 * i + 1));
      RowsKept(granted, ctx, [uids[i]], change);
      var next := SystemWrite(granted, ctx, [uids[i]], change).db;
      ApprovalRecords(next, ctx, user, uids, i + 1, u);
      assert uids[i..] == [uids[i]] + uids[i + 1..];
    }
  }

  /** A rejection records no grant. */
  lemma {:induction false} RejectionRecords(db: Db, ctx: Context, user: nat, uids: seq<Uid>, i: nat)
    requires i <= |uids|
    ensures RejectFrom(db, ctx, user, uids, i).db.grants == db.grants
    decreases |uids| - i
  {
    hide SystemWrite;
    if i < |uids| && uids[i] in db.rows && (db.rows[uids[i]].state.Pending? || db.rows[uids[i]].state.Approved?) {
      var change := ToRejected(user, ctx.clock(i));
      RowsKept(db, ctx, [uids[i]], change);
      RejectionRecords(SystemWrite(db, ctx, [uids[i]], change).db, ctx, user, uids, i + 1);
    }
  }
}
