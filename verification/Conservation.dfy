/**
 What the accounts amount to: units are conserved, and reconciliation drifts by exactly the units
 released under a reason the worker does not read as a release plus the units lost to clamping.
 */
module Conservation {
  import opened Base
  import opened StockLedger
  import opened Accounting

  /** The shape the RPCs have: an adjustment or an unlock names one location, an unlock carries no key. */
  predicate Rpc(req: Request) {
    && (req.kind.Adjust? || req.kind.Unlock? ==> |req.lines| == 1)
    && (req.kind.Unlock? ==> req.key == "")
  }

  predicate Rpcs(ops: seq<Op>) {
    forall i :: 0 <= i < |ops| && ops[i].Call? ==> Rpc(ops[i].req)
  }

  function Clamped(available: int, q: int): int {
    if available + q < 0 then 0 else available + q
  }

  // ----- units in and out -----

  /** Units one committed call brings in at a location: the adjustment it names, clamped so that available stays at
      zero or above. */
  function Entering(db: Tables, op: Op, loc: Location): int {
    if Commits(db, op) && op.req.kind.Adjust? && op.req.lines != [] && Loc(op.req.tenant, op.req.lines[0]) == loc
    then Clamped(At(db.levels, loc).available, op.req.lines[0].quantity) - At(db.levels, loc).available
    else 0
  }

  function Leaving(db: Tables, op: Op, loc: Location): int {
    if Commits(db, op) && op.req.kind.Fulfill? then SumAt(op.req.tenant, op.req.lines, loc) else 0
  }

  function Entered(db: Tables, ops: seq<Op>, loc: Location): int {
    if ops == [] then 0
    else Entered(db, ops[..|ops| - 1], loc) + Entering(Run(db, ops[..|ops| - 1]), ops[|ops| - 1], loc)
  }

  function Left(db: Tables, ops: seq<Op>, loc: Location): int {
    if ops == [] then 0
    else Left(db, ops[..|ops| - 1], loc) + Leaving(Run(db, ops[..|ops| - 1]), ops[|ops| - 1], loc)
  }

  /** What one line brings in: nothing, unless it is an adjustment or a fulfilment. */
  lemma LineTotal(kind: Kind, q: Int32, row: Level)
    ensures LineAccount(kind, q, row).moved.Total()
         == if kind.Adjust? then Clamped(row.available, q) - row.available else if kind.Fulfill? then 0 - q else 0
  {
    hide DriftOf;
    hide SpillOf;
    hide ClaimSpillOf;
  }

  lemma FulfilmentAlwaysWrites(checks: bool, req: Request, l: Line, row: Option<Level>)
    requires req.kind.Fulfill? || req.kind.Adjust?
    ensures RowStep(checks, req, l, row).Put? || RowStep(checks, req, l, row).Abort?
  {
    hide Moved;
  }

  lemma TotalsAdd(a: Account, b: Account)
    ensures a.Plus(b).moved.Total() == a.moved.Total() + b.moved.Total()
    ensures a.Plus(b).drift == a.drift.Plus(b.drift)
  {
  }

  lemma BlankTotals()
    ensures BLANK.moved.Total() == 0
    ensures BLANK.drift == ZERO
  {
  }

  lemma {:induction false} MovesCancel(checks: bool, levels: map<Location, Level>, req: Request, k: nat, loc: Location)
    requires k <= |req.lines|
    requires !req.kind.Adjust?
    requires !DeltaAfter(checks, levels, req, k).aborted
    ensures AccountTo(checks, levels, req, k, loc).moved.Total()
         == if req.kind.Fulfill? then -SumTo(req.tenant, req.lines, k, loc) else 0
    decreases k
  {
    hide FRESH;
    hide BLANK;
    hide ZERO;
    hide LineAccount;
    hide RowStep;
    BlankTotals();
    if k > 0 {
      MovesCancel(checks, levels, req, k - 1, loc);
      var row := RowAt(checks, levels, req, k - 1);
      LineTotal(req.kind, req.lines[k - 1].quantity, row.GetOr(FRESH));
      TotalsAdd(AccountTo(checks, levels, req, k - 1, loc), EntryAt(checks, levels, req, k - 1));
      if req.kind.Fulfill? { FulfilmentAlwaysWrites(checks, req, req.lines[k - 1], row); }
    }
  }

  /** A committed adjustment is entered as its one line. */
  lemma AdjustmentAccount(db: Tables, req: Request, loc: Location)
    requires req.kind.Adjust? && |req.lines| == 1
    requires OutcomeOf(db, req).Committed?
    ensures
      var account := AccountTo(db.checks, db.levels, req, 1, loc);
      if Loc(req.tenant, req.lines[0]) == loc
      then account == BLANK.Plus(LineAccount(req.kind, req.lines[0].quantity,
                                             if loc in db.levels then db.levels[loc] else FRESH))
      else account == BLANK
  {
    hide LineAccount;
    hide RowStep;
    hide BLANK;
    hide FRESH;
    hide ReplayOf;
    var row := RowAt(db.checks, db.levels, req, 0);
    assert DeltaAfter(db.checks, db.levels, req, 0) == NOTHING;
    FulfilmentAlwaysWrites(db.checks, req, req.lines[0], row);
    assert AccountTo(db.checks, db.levels, req, 0, loc) == BLANK;
  }

  /** Every operation changes the units at a location by what it brings in less what it takes out. */
  lemma OpTotal(db: Tables, op: Op, loc: Location)
    requires Commits(db, op) && Rpc(op.req)
    ensures AccountTo(db.checks, db.levels, op.req, |op.req.lines|, loc).moved.Total()
         == Entering(db, op, loc) - Leaving(db, op, loc)
  {
    hide AccountTo;
    hide DeltaAfter;
    hide LineAccount;
    hide BLANK;
    hide ZERO;
    hide FRESH;
    hide ReplayOf;
    var req := op.req;
    if req.kind.Adjust? {
      AdjustmentAccount(db, req, loc);
      BlankTotals();
      var row := if loc in db.levels then db.levels[loc] else FRESH;
      LineTotal(req.kind, req.lines[0].quantity, row);
      TotalsAdd(BLANK, LineAccount(req.kind, req.lines[0].quantity, row));
    } else {
      MovesCancel(db.checks, db.levels, req, |req.lines|, loc);
    }
  }

  lemma {:induction false} RunTotal(db: Tables, ops: seq<Op>, loc: Location)
    requires Rpcs(ops)
    ensures AccountRun(db, ops, loc).moved.Total() == Entered(db, ops, loc) - Left(db, ops, loc)
  {
    hide BLANK;
    hide ZERO;
    hide AccountTo;
    hide Entering;
    hide Leaving;
    hide Do;
    hide Commits;
    BlankTotals();
    if ops != [] {
      var before, op := ops[..|ops| - 1], ops[|ops| - 1];
      var now := Run(db, before);
      RunTotal(db, before, loc);
      if Commits(now, op) {
        CommitsCall(now, op);
        OpTotal(now, op, loc);
        TotalsAdd(AccountRun(db, before, loc), AccountTo(now.checks, now.levels, op.req, |op.req.lines|, loc));
      } else {
        NothingCommitted(now, op, loc);
      }
    }
  }

  lemma CommitsCall(db: Tables, op: Op)
    requires Commits(db, op)
    ensures op.Call?
  {
  }

  lemma NothingCommitted(db: Tables, op: Op, loc: Location)
    requires !Commits(db, op)
    ensures Entering(db, op, loc) == 0 && Leaving(db, op, loc) == 0
  {
  }

  // ----- what int32 arithmetic hides -----

  lemma WholeAdds(a: Buckets, b: Buckets)
    requires a.Whole() && b.Whole()
    ensures a.Plus(b).Whole()
  {
  }

  lemma LineSpillIsWhole(kind: Kind, q: Int32, row: Level)
    ensures LineAccount(kind, q, row).spill.Whole() && LineAccount(kind, q, row).claimSpill.Whole()
  {
    hide MoveOf;
    hide DriftOf;
    hide Wrap32;
    var n := Spill(0 - q);
    assert (-n) % 0x1_0000_0000 == 0;
  }

  lemma AccountSpillAdds(a: Account, b: Account)
    requires a.spill.Whole() && a.claimSpill.Whole() && b.spill.Whole() && b.claimSpill.Whole()
    ensures a.Plus(b).spill.Whole() && a.Plus(b).claimSpill.Whole()
  {
    WholeAdds(a.spill, b.spill);
    WholeAdds(a.claimSpill, b.claimSpill);
  }

  lemma {:induction false} SpillIsWhole(checks: bool, levels: map<Location, Level>, req: Request, k: nat, loc: Location)
    requires k <= |req.lines|
    ensures AccountTo(checks, levels, req, k, loc).spill.Whole()
    ensures AccountTo(checks, levels, req, k, loc).claimSpill.Whole()
    decreases k
  {
    hide LineAccount;
    hide EffectAt;
    hide DeltaAfter;
    if k > 0 {
      SpillIsWhole(checks, levels, req, k - 1, loc);
      LineSpillIsWhole(req.kind, req.lines[k - 1].quantity, RowAt(checks, levels, req, k - 1).GetOr(FRESH));
      AccountSpillAdds(AccountTo(checks, levels, req, k - 1, loc), EntryAt(checks, levels, req, k - 1));
    }
  }

  lemma {:induction false} RunSpillIsWhole(db: Tables, ops: seq<Op>, loc: Location)
    ensures AccountRun(db, ops, loc).spill.Whole() && AccountRun(db, ops, loc).claimSpill.Whole()
  {
    hide AccountTo;
    hide Do;
    if ops != [] {
      var before, op := ops[..|ops| - 1], ops[|ops| - 1];
      var now := Run(db, before);
      RunSpillIsWhole(db, before, loc);
      if Commits(now, op) {
        SpillIsWhole(now.checks, now.levels, op.req, |op.req.lines|, loc);
        AccountSpillAdds(AccountRun(db, before, loc), AccountTo(now.checks, now.levels, op.req, |op.req.lines|, loc));
      }
    }
  }

  lemma StoredTotal(a: Account)
    requires a.spill.Whole()
    ensures a.Stored().Total() == a.moved.Total() + a.spill.Total() && a.spill.Total() % 0x1_0000_0000 == 0
    ensures a.NoWrap() ==> a.spill.Total() == 0
  {
  }

  /** What a committed adjustment leaves: its audit record, the availability it announces and, if it was clamped, a
      deficit alert. */
  predicate AdjustmentLeft(db: Tables, req: Request, l: Line, clamped: bool, after: Tables)
    requires req.kind.Adjust? && Loc(req.tenant, l) in after.levels
  {
    var loc, key, reason, source := Loc(req.tenant, l), req.tenant + ":" + l.sku, req.kind.reason, req.kind.source;
    var adjusted := Adjusted(l.sku, l.warehouse, l.quantity, after.levels[loc].available, reason, source);
    var deficit := Deficit(l.sku, l.warehouse, l.quantity, reason, source);
    && after.events == db.events + [StockEvent(loc, l.quantity, reason, source, "system")]
    && after.outbox
       == db.outbox + [OutboxEvent(req.tenant, key, "stock.adjusted", adjusted)]
          + (if clamped then [OutboxEvent(req.tenant, key, "stock.deficit_alert", deficit)] else [])
  }

  /** When an adjustment commits. Without the constraints every one that stays in range does, clamped at zero where need
      be. With them none that takes stock away does, so nothing is ever clamped and no deficit is ever reported. */
  lemma AdjustCommitsExactlyWhen(db: Tables, req: Request, l: Line)
    requires req.kind.Adjust? && req.lines == [l] && !IsDuplicate(db, req) && (db.checks ==> NoNegatives(db.levels))
    ensures
      var loc, out, after := Loc(req.tenant, l), OutcomeOf(db, req), After(db, req);
      var was := if loc in db.levels then db.levels[loc] else Level(0, 0, 0, false);
      var sum := was.available + l.quantity;
      && (out.Committed? <==> InInt32(sum) && (db.checks ==> l.quantity >= 0))
      && (out.Committed? ==>
            && after.levels == db.levels[loc := was.(available := if sum < 0 then 0 else sum)]
            && out.results == [LevelNow(after.levels[loc], sum < 0)]
            && (db.checks ==> sum >= 0)
            && AdjustmentLeft(db, req, l, sum < 0, after))
      && (!out.Committed? ==> out == Internal && after == db)
  {
    hide OutcomeOf;
    hide After;
    OneLineCall(db, req, l);
  }

  /** No oversell, no loss: over every run of calls (duplicates, failures, reconciliation and pruning included) the
      units at a location are those that entered by clamped adjustment less those that left by fulfilment, up to a
      multiple of 2^32 that int32 arithmetic cannot see. With the constraints on that multiple is zero and no bucket
      is ever negative. */
  lemma UnitsAreConserved(checks: bool, ops: seq<Op>, loc: Location) returns (wrapped: int)
    requires Rpcs(ops)
    ensures wrapped % 0x1_0000_0000 == 0
    ensures
      var start := EmptyTables(checks);
      At(Run(start, ops).levels, loc).Total() == Entered(start, ops, loc) - Left(start, ops, loc) + wrapped
    ensures checks ==> wrapped == 0 && NoNegatives(Run(EmptyTables(checks), ops).levels)
  {
    hide At;
    hide Derived;
    hide NoNegatives;
    hide AccountRun;
    hide Run;
    hide Entered;
    hide Left;
    hide EmptyTables;
    hide Buckets.Whole;
    hide Buckets.Total;
    hide Account.Stored;
    hide Account.Derivable;
    hide Account.NoWrap;
    var account := AccountRun(EmptyTables(checks), ops, loc);
    wrapped := account.spill.Total();
    RunSpillIsWhole(EmptyTables(checks), ops, loc);
    StoredTotal(account);
    RunAccounts(checks, ops, loc);
    RunTotal(EmptyTables(checks), ops, loc);
  }
}
