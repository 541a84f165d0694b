/** Exactly when and by how much the reconciliation worker sees drift. */
module Drift {
  import opened Base
  import opened StockLedger
  import opened Accounting
  import opened AuditLocks
  import opened Conservation

  /** Adjustments avoid the four words the derivation contract gives a bucket meaning to, and releases avoid
      the two that belong to allocation and fulfilment. */
  predicate Plain(req: Request) {
    && (req.kind.Adjust? ==> Read(req.kind.reason).AsAvailable?)
    && (req.kind.Release? ==> Read(req.kind.reason).AsAvailable? || Read(req.kind.reason).AsHold?)
  }

  predicate PlainRun(ops: seq<Op>) {
    forall i :: 0 <= i < |ops| && ops[i].Call? ==> Rpc(ops[i].req) && Plain(ops[i].req)
  }

  /** Units a committed adjustment was asked to take but could not. */
  function Clamping(db: Tables, op: Op, loc: Location): int {
    if Commits(db, op) && op.req.kind.Adjust? && op.req.lines != [] && Loc(op.req.tenant, op.req.lines[0]) == loc
    then Clamped(At(db.levels, loc).available, op.req.lines[0].quantity)
         - (At(db.levels, loc).available + op.req.lines[0].quantity)
    else 0
  }

  /** Units a committed call released under a reason the worker does not read as a release. */
  function Unread(db: Tables, op: Op, loc: Location): int {
    if Commits(db, op) && IsUnread(op.req.kind) && loc in db.levels
    then SumAt(op.req.tenant, op.req.lines, loc) else 0
  }

  function ClampedAway(db: Tables, ops: seq<Op>, loc: Location): int {
    if ops == [] then 0
    else ClampedAway(db, ops[..|ops| - 1], loc) + Clamping(Run(db, ops[..|ops| - 1]), ops[|ops| - 1], loc)
  }

  function UnreadReleases(db: Tables, ops: seq<Op>, loc: Location): int {
    if ops == [] then 0
    else UnreadReleases(db, ops[..|ops| - 1], loc) + Unread(Run(db, ops[..|ops| - 1]), ops[|ops| - 1], loc)
  }

  lemma LineDrift(kind: Kind, q: Int32, row: Level)
    requires kind.Adjust? ==> Read(kind.reason).AsAvailable?
    requires kind.Release? ==> Read(kind.reason).AsAvailable? || Read(kind.reason).AsHold?
    ensures
      var drift := LineAccount(kind, q, row).drift;
      && drift.available == (if kind.Adjust? then row.available + q - Clamped(row.available, q) else 0)
      && drift.reserved == (if kind.Release? && Read(kind.reason).AsAvailable? then q else 0)
      && drift.alloc == 0
  {
    hide MoveOf;
    hide SpillOf;
    hide ClaimSpillOf;
  }

  predicate IsUnread(kind: Kind) {
    kind.Release? && Read(kind.reason).AsAvailable?
  }

  lemma EntryDrift(checks: bool, levels: map<Location, Level>, req: Request, k: nat)
    requires k < |req.lines| && !req.kind.Adjust? && Plain(req)
    ensures
      var drift := EntryAt(checks, levels, req, k).drift;
      && drift.available == 0 && drift.alloc == 0
      && drift.reserved == if IsUnread(req.kind) then req.lines[k].quantity else 0
  {
    hide LineAccount;
    hide RowAt;
    hide FRESH;
    LineDrift(req.kind, req.lines[k].quantity, RowAt(checks, levels, req, k).GetOr(FRESH));
  }

  lemma ReleaseWritesRows(checks: bool, req: Request, l: Line, row: Option<Level>)
    requires !req.kind.Adjust?
    ensures RowStep(checks, req, l, row).Put? ==> row.Some?
    ensures req.kind.Release? && row.Some? ==>
              !RowStep(checks, req, l, row).Skip? && !RowStep(checks, req, l, row).Short?
  {
    hide Moved;
  }

  lemma {:induction false} OnlyRowsAreWritten(checks: bool, levels: map<Location, Level>, req: Request, k: nat)
    requires k <= |req.lines|
    requires !req.kind.Adjust?
    ensures DeltaAfter(checks, levels, req, k).writes.Keys <= levels.Keys
    decreases k
  {
    hide RowStep;
    if k > 0 {
      OnlyRowsAreWritten(checks, levels, req, k - 1);
      ReleaseWritesRows(checks, req, req.lines[k - 1], RowAt(checks, levels, req, k - 1));
    }
  }

  /** What one more line adds to the drift. */
  lemma DriftGrows(checks: bool, levels: map<Location, Level>, req: Request, k: nat, loc: Location)
    requires k < |req.lines| && !req.kind.Adjust? && Plain(req)
    requires !DeltaAfter(checks, levels, req, k + 1).aborted
    ensures
      var was, now := AccountTo(checks, levels, req, k, loc).drift, AccountTo(checks, levels, req, k + 1, loc).drift;
      && now.available == was.available && now.alloc == was.alloc
      && now.reserved == was.reserved
         + (if IsUnread(req.kind) && loc in levels && Loc(req.tenant, req.lines[k]) == loc
            then req.lines[k].quantity else 0)
  {
    hide AccountTo;
    hide DeltaAfter;
    hide EntryAt;
    hide Counts;
    hide Plain;
    hide IsUnread;
    hide Account.Plus;
    AccountGrows(checks, levels, req, k, loc);
    ReleaseCounts(checks, levels, req, k, loc);
    EntryDrift(checks, levels, req, k);
    DriftAdds(AccountTo(checks, levels, req, k, loc), EntryAt(checks, levels, req, k));
  }

  lemma DriftAdds(a: Account, b: Account)
    ensures a.Plus(b).drift.available == a.drift.available + b.drift.available
    ensures a.Plus(b).drift.reserved == a.drift.reserved + b.drift.reserved
    ensures a.Plus(b).drift.alloc == a.drift.alloc + b.drift.alloc
  {
  }

  lemma NoDriftYet(checks: bool, levels: map<Location, Level>, req: Request, loc: Location)
    ensures
      var drift := AccountTo(checks, levels, req, 0, loc).drift;
      drift.available == 0 && drift.reserved == 0 && drift.alloc == 0
  {
    hide ZERO;
    BlankDrift();
  }

  lemma {:induction false} TransactionDrift(checks: bool, levels: map<Location, Level>, req: Request, k: nat,
                                            loc: Location)
    requires k <= |req.lines|
    requires !req.kind.Adjust? && Plain(req)
    requires !DeltaAfter(checks, levels, req, k).aborted
    ensures
      var unread := IsUnread(req.kind) && loc in levels;
      var drift := AccountTo(checks, levels, req, k, loc).drift;
      && drift.available == 0 && drift.alloc == 0
      && drift.reserved == if unread then SumTo(req.tenant, req.lines, k, loc) else 0
    decreases k
  {
    hide AccountTo;
    hide Plain;
    hide DeltaAfter;
    hide IsUnread;
    if k == 0 {
      NoDriftYet(checks, levels, req, loc);
    } else {
      ReleaseCounts(checks, levels, req, k - 1, loc);
      TransactionDrift(checks, levels, req, k - 1, loc);
      DriftGrows(checks, levels, req, k - 1, loc);
    }
  }

  /** A release line is entered exactly where there is a row. */
  lemma ReleaseCounts(checks: bool, levels: map<Location, Level>, req: Request, k: nat, loc: Location)
    requires k < |req.lines| && !req.kind.Adjust?
    requires !DeltaAfter(checks, levels, req, k + 1).aborted
    ensures !DeltaAfter(checks, levels, req, k).aborted
    ensures IsUnread(req.kind) ==>
              (Counts(checks, levels, req, k, loc) <==> Loc(req.tenant, req.lines[k]) == loc && loc in levels)
  {
    hide RowStep;
    OnlyRowsAreWritten(checks, levels, req, k);
    ReleaseWritesRows(checks, req, req.lines[k], RowAt(checks, levels, req, k));
  }

  lemma BlankDrift()
    ensures BLANK.drift.available == 0 && BLANK.drift.reserved == 0 && BLANK.drift.alloc == 0
  {
  }

  lemma OpDrift(db: Tables, op: Op, loc: Location)
    requires Commits(db, op) && Rpc(op.req) && Plain(op.req)
    ensures
      var drift := AccountTo(db.checks, db.levels, op.req, |op.req.lines|, loc).drift;
      drift.available == -Clamping(db, op, loc) && drift.reserved == Unread(db, op, loc) && drift.alloc == 0
  {
    hide AccountTo;
    hide DeltaAfter;
    hide LineAccount;
    hide BLANK;
    hide ZERO;
    hide FRESH;
    hide ReplayOf;
    hide Read;
    hide Account.Plus;
    var req := op.req;
    if req.kind.Adjust? {
      AdjustmentAccount(db, req, loc);
      BlankDrift();
      var row := if loc in db.levels then db.levels[loc] else FRESH;
      LineDrift(req.kind, req.lines[0].quantity, row);
      DriftAdds(BLANK, LineAccount(req.kind, req.lines[0].quantity, row));
    } else {
      TransactionDrift(db.checks, db.levels, req, |req.lines|, loc);
    }
  }

  lemma {:induction false} RunDrift(db: Tables, ops: seq<Op>, loc: Location)
    requires PlainRun(ops)
    ensures
      var drift := AccountRun(db, ops, loc).drift;
      && drift.available == -ClampedAway(db, ops, loc)
      && drift.reserved == UnreadReleases(db, ops, loc)
      && drift.alloc == 0
  {
    hide BLANK;
    hide ZERO;
    hide AccountTo;
    hide Clamping;
    hide Unread;
    hide Do;
    hide Commits;
    hide Plain;
    BlankDrift();
    if ops != [] {
      var before, op := ops[..|ops| - 1], ops[|ops| - 1];
      var now := Run(db, before);
      RunDrift(db, before, loc);
      if Commits(now, op) {
        CommitsCall(now, op);
        OpDrift(now, op, loc);
        TotalsAdd(AccountRun(db, before, loc), AccountTo(now.checks, now.levels, op.req, |op.req.lines|, loc));
      } else {
        NothingClamped(now, op, loc);
      }
    }
  }

  lemma NothingClamped(db: Tables, op: Op, loc: Location)
    requires !Commits(db, op)
    ensures Clamping(db, op, loc) == 0 && Unread(db, op, loc) == 0
  {
  }

  // ----- the theorems -----

  /** On every run whose reasons are plain, the worker's derived buckets differ from the stored ones by exactly:
      the clamped-away units in available (too low), the unread releases in reserved (too high), nothing in
      allocated, and a multiple of 2^32, which is zero when the constraints are on. */
  lemma ExactDrift(checks: bool, ops: seq<Op>, loc: Location) returns (wrapped: Buckets)
    requires PlainRun(ops)
    ensures wrapped.Whole()
    ensures checks ==> wrapped == ZERO
    ensures
      var start := EmptyTables(checks);
      var db := Run(start, ops);
      var derived, stored := Derived(db.events, loc), At(db.levels, loc);
      && derived.available - stored.available == -ClampedAway(start, ops, loc) + wrapped.available
      && derived.reserved - stored.reserved == UnreadReleases(start, ops, loc) + wrapped.reserved
      && derived.alloc - stored.alloc == wrapped.alloc
  {
    hide At;
    hide Derived;
    hide AccountRun;
    hide NoNegatives;
    var start := EmptyTables(checks);
    RunAccounts(checks, ops, loc);
    RunDrift(start, ops, loc);
    RunSpillIsWhole(start, ops, loc);
    wrapped := Difference(AccountRun(start, ops, loc));
  }

  lemma Difference(a: Account) returns (wrapped: Buckets)
    requires a.spill.Whole() && a.claimSpill.Whole()
    ensures wrapped.Whole()
    ensures a.Derivable() == a.Stored().Plus(a.drift).Plus(wrapped)
    ensures a.NoWrap() ==> wrapped == ZERO
  {
    wrapped := Buckets(a.claimSpill.available - a.spill.available,
                       a.claimSpill.reserved - a.spill.reserved,
                       a.claimSpill.alloc - a.spill.alloc);
  }

  /** On every run whatever its reasons, a row is seen as drifted exactly when the drift in its account is not a
      multiple of 2^32 in some bucket. */
  lemma DriftedExactlyWhen(checks: bool, ops: seq<Op>, loc: Location)
    requires loc in Run(EmptyTables(checks), ops).levels
    ensures Drifted(Run(EmptyTables(checks), ops), loc) <==> !AccountRun(EmptyTables(checks), ops, loc).drift.Whole()
  {
    hide AccountRun;
    hide Run;
    hide NoNegatives;
    hide EmptyTables;
    hide Derived;
    var db := Run(EmptyTables(checks), ops);
    var account := AccountRun(EmptyTables(checks), ops, loc);
    RunAccounts(checks, ops, loc);
    RunSpillIsWhole(EmptyTables(checks), ops, loc);
    var wrapped := Difference(account);
    var derived, stored := Derived(db.events, loc), db.levels[loc];
    Truncates(derived.available, stored.available, account.drift.available, wrapped.available);
    Truncates(derived.reserved, stored.reserved, account.drift.reserved, wrapped.reserved);
    Truncates(derived.alloc, stored.alloc, account.drift.alloc, wrapped.alloc);
  }

  lemma Truncates(derived: int, stored: Int32, drift: int, wrapped: int)
    requires derived == stored + drift + wrapped && wrapped % 0x1_0000_0000 == 0
    ensures Wrap32(derived) == stored <==> drift % 0x1_0000_0000 == 0
  {
    TruncationRecovers(derived, stored);
  }

  /** A run of plain reasons with nothing clamped away and no unread release is never locked for audit. */
  lemma NothingDriftsNothingLocks(checks: bool, ops: seq<Op>)
    requires PlainRun(ops)
    requires forall loc :: ClampedAway(EmptyTables(checks), ops, loc) == 0
    requires forall loc :: UnreadReleases(EmptyTables(checks), ops, loc) == 0
    ensures Reconciled(Run(EmptyTables(checks), ops)) == Run(EmptyTables(checks), ops)
  {
    hide Drifted;
    hide Run;
    var db := Run(EmptyTables(checks), ops);
    forall loc | loc in db.levels
      ensures !Drifted(db, loc)
    {
      RunDrift(EmptyTables(checks), ops, loc);
      DriftedExactlyWhen(checks, ops, loc);
    }
    assert Reconciled(db).levels == db.levels;
  }

  // ----- the reasons callers really send -----

  /** None of the reasons the reservation service and the saga send is read as a release. */
  lemma RealReasonsAreUnread(order: string)
    ensures IsUnread(Release(order, "ttl_expiry"))
    ensures IsUnread(Release(order, "reserve_failure"))
    ensures IsUnread(Release(order, "payment_failed"))
    ensures IsUnread(Release(order, "customer_cancel"))
  {
    assert "ttl_expiry"[0] != 'a' && "ttl_expiry"[0] != 'f' && "ttl_expiry"[0] != 'r';
    assert "payment_failed"[0] != 'a' && "payment_failed"[0] != 'f' && "payment_failed"[0] != 'r';
    assert "customer_cancel"[0] != 'a' && "customer_cancel"[0] != 'f' && "customer_cancel"[0] != 'r';
    assert |"reserve_failure"| == 15 && |"reserve"| == 7 && |"release"| == 7;
    assert "reserve_failure"[0] != 'a' && "reserve_failure"[0] != 'f';
  }

  lemma {:induction false} SumIsNamed(tenant: string, lines: seq<Line>, k: nat, loc: Location) returns (i: nat)
    requires k <= |lines| && SumTo(tenant, lines, k, loc) != 0
    ensures i < k && Loc(tenant, lines[i]) == loc
    decreases k
  {
    if Loc(tenant, lines[k - 1]) == loc { return k - 1; }
    i := SumIsNamed(tenant, lines, k - 1, loc);
  }

  /** A release that does not fail leaves an event for every row it names. */
  lemma {:induction false} ReleaseIsLogged(checks: bool, levels: map<Location, Level>, req: Request, i: nat, k: nat)
    requires i < k <= |req.lines| && req.kind.Release? && Loc(req.tenant, req.lines[i]) in levels
    requires !DeltaAfter(checks, levels, req, k).aborted
    ensures EventFor(req, req.lines[i]) in DeltaAfter(checks, levels, req, k).events
    decreases k
  {
    if i < k - 1 {
      ReleaseIsLogged(checks, levels, req, i, k - 1);
    } else {
      var e := EffectAt(checks, levels, req, k - 1);
      assert e.Put? ==> e.event == EventFor(req, req.lines[i]);
      assert e.Put? || e.Abort?;
    }
  }

  lemma ReleasedHere(db: Tables, req: Request, loc: Location)
    requires req.kind.Release? && OutcomeOf(db, req).Committed? && loc in db.levels
    requires SumAt(req.tenant, req.lines, loc) != 0
    ensures loc in EventLocations(After(db, req).events)
  {
    hide DeltaAfter;
    var i := SumIsNamed(req.tenant, req.lines, |req.lines|, loc);
    ReleaseIsLogged(db.checks, db.levels, req, i, |req.lines|);
    assert EventFor(req, req.lines[i]) in After(db, req).events && EventFor(req, req.lines[i]).loc == loc;
  }

  /** So the drift condition is not idle: from a state the worker would pass, one committed release under such a
      reason makes it lock the row, and from then on, whatever else happens, every reservation there is refused until
      an unlock of the row commits. */
  lemma OneUnreadReleaseLocksTheRow(checks: bool, ops: seq<Op>, req: Request, loc: Location, later: seq<Op>)
    requires PlainRun(ops + [Call(req)]) && IsUnread(req.kind)
    requires
      var db := Run(EmptyTables(checks), ops);
      && loc in db.levels && !Drifted(db, loc)
      && OutcomeOf(db, req).Committed?
      && 0 < SumAt(req.tenant, req.lines, loc) < 0x1_0000_0000
    ensures
      var db := Run(EmptyTables(checks), ops + [Call(req)]);
      && loc in db.levels && Drifted(db, loc)
      && Reconciled(db).levels[loc].locked
      && (NeverUnlocked(Reconciled(db), later, 0, loc) ==> RefusesHolds(Run(Reconciled(db), later), loc))
  {
    hide EmptyTables;
    hide Drifted;
    hide Run;
    hide After;
    hide OutcomeOf;
    hide AccountRun;
    hide UnreadReleases;
    hide ClampedAway;
    hide Buckets.Whole;
    hide RefusesHolds;
    hide NeverUnlocked;
    var start := EmptyTables(checks);
    OneMoreCall(start, ops, req, loc);
    ReleasedHere(Run(start, ops), req, loc);
    var all := ops + [Call(req)];
    assert PlainRun(ops) by { assert forall i :: 0 <= i < |ops| ==> all[i] == ops[i]; }
    RunDrift(start, ops, loc);
    RunDrift(start, all, loc);
    DriftedExactlyWhen(checks, ops, loc);
    DriftedExactlyWhen(checks, all, loc);
    NotWhole(AccountRun(start, ops, loc).drift, AccountRun(start, all, loc).drift);
    var locked := Reconciled(Run(start, all));
    if NeverUnlocked(locked, later, 0, loc) {
      LockedExactlyWhen(locked, later, loc);
      LockedRefusesHolds(Run(locked, later), loc);
    }
  }

  lemma NotWhole(a: Buckets, b: Buckets)
    requires a.Whole() && 0 < b.reserved - a.reserved < 0x1_0000_0000
    ensures !b.Whole()
  {
  }

  lemma OneMoreCall(start: Tables, ops: seq<Op>, req: Request, loc: Location)
    requires IsUnread(req.kind) && loc in Run(start, ops).levels && OutcomeOf(Run(start, ops), req).Committed?
    ensures Run(start, ops + [Call(req)]) == After(Run(start, ops), req)
    ensures loc in Run(start, ops + [Call(req)]).levels
    ensures UnreadReleases(start, ops + [Call(req)], loc)
         == UnreadReleases(start, ops, loc) + SumAt(req.tenant, req.lines, loc)
  {
    hide OutcomeOf;
    hide DeltaOf;
    hide Read;
    var all := ops + [Call(req)];
    assert all[..|ops|] == ops && all[|ops|] == Call(req);
    assert Run(start, all) == After(Run(start, ops), req);
  }
}
