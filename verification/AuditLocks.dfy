/** Audit locks: what sets them, what clears them, and what they stop. */
module AuditLocks {
  import opened Base
  import opened StockLedger
  import opened Accounting
  import opened AllOrNothing

  predicate Names(req: Request, loc: Location) {
    exists i :: 0 <= i < |req.lines| && Loc(req.tenant, req.lines[i]) == loc
  }

  /** Every fresh reservation that names the location is refused, as insufficient unless its own arithmetic fails. */
  ghost predicate RefusesHolds(db: Tables, loc: Location) {
    forall hold: Request :: hold.kind.Reserve? && !IsDuplicate(db, hold) && Names(hold, loc) ==>
      && (OutcomeOf(db, hold).Insufficient? || OutcomeOf(db, hold).Internal?) && After(db, hold) == db
      && (Counted(hold.lines) && (db.checks ==> NoNegatives(db.levels)) && Room(db.levels, hold) ==>
            OutcomeOf(db, hold).Insufficient?)
  }

  lemma LockedRefusesHolds(db: Tables, loc: Location)
    requires loc in db.levels && db.levels[loc].locked
    ensures RefusesHolds(db, loc)
  {
    hide OutcomeOf;
    hide After;
    hide IsDuplicate;
    hide Room;
    hide NoNegatives;
    forall hold: Request | hold.kind.Reserve? && !IsDuplicate(db, hold) && Names(hold, loc)
      ensures (OutcomeOf(db, hold).Insufficient? || OutcomeOf(db, hold).Internal?) && After(db, hold) == db
      ensures Counted(hold.lines) && (db.checks ==> NoNegatives(db.levels)) && Room(db.levels, hold) ==>
                OutcomeOf(db, hold).Insufficient?
    {
      var i :| 0 <= i < |hold.lines| && Loc(hold.tenant, hold.lines[i]) == loc;
      LockedRowRefuses(db, hold, i);
    }
  }

  predicate IsLocked(db: Tables, loc: Location) {
    loc in db.levels && db.levels[loc].locked
  }

  // ----- what a call does to a lock -----

  lemma RowLocks(checks: bool, req: Request, l: Line, row: Option<Level>)
    requires RowStep(checks, req, l, row).Put?
    ensures RowStep(checks, req, l, row).level.locked <==> row.Some? && row.value.locked && !req.kind.Unlock?
  {
  }

  predicate NamedBy(req: Request, k: nat, loc: Location)
    requires k <= |req.lines|
  {
    exists i :: 0 <= i < k && Loc(req.tenant, req.lines[i]) == loc
  }

  lemma NamedMore(req: Request, k: nat, loc: Location)
    requires k < |req.lines|
    ensures NamedBy(req, k + 1, loc) <==> NamedBy(req, k, loc) || Loc(req.tenant, req.lines[k]) == loc
  {
  }

  lemma {:induction false} OverlayLocks(checks: bool, levels: map<Location, Level>, req: Request, k: nat, loc: Location)
    requires k <= |req.lines| && !DeltaAfter(checks, levels, req, k).aborted
    ensures
      var row := Lookup(levels, DeltaAfter(checks, levels, req, k), loc);
      && (loc in levels ==> row.Some?)
      && (row.Some? && row.value.locked
          <==> loc in levels && levels[loc].locked && !(req.kind.Unlock? && NamedBy(req, k, loc)))
    decreases k
  {
    hide RowStep;
    hide NamedBy;
    if k == 0 {
      assert !NamedBy(req, 0, loc) by { NothingNamed(req, loc); }
    } else {
      OverlayLocks(checks, levels, req, k - 1, loc);
      NamedMore(req, k - 1, loc);
      var here, row := Loc(req.tenant, req.lines[k - 1]), Lookup(levels, DeltaAfter(checks, levels, req, k - 1), loc);
      var e := EffectAt(checks, levels, req, k - 1);
      if here == loc {
        if e.Put? {
          RowLocks(checks, req, req.lines[k - 1], row);
        } else if req.kind.Unlock? {
          Untouched(checks, req, req.lines[k - 1], row);
        }
      }
    }
  }

  lemma NothingNamed(req: Request, loc: Location)
    ensures !NamedBy(req, 0, loc)
  {
  }

  /** An unlock that neither writes nor errs found no row. */
  lemma Untouched(checks: bool, req: Request, l: Line, row: Option<Level>)
    requires !RowStep(checks, req, l, row).Put? && !RowStep(checks, req, l, row).Abort? && req.kind.Unlock?
    ensures row.None?
  {
  }

  /** An unlock clears the lock of its row, changes nothing else in any row and records who asked; without a row it does
      nothing. */
  lemma UnlockClears(db: Tables, req: Request, l: Line)
    requires req.kind.Unlock? && req.lines == [l] && !IsDuplicate(db, req) && (db.checks ==> NoNegatives(db.levels))
    ensures
      var loc := Loc(req.tenant, l);
      if loc in db.levels
      then OutcomeOf(db, req) == Committed([Unlocked])
           && After(db, req).levels == db.levels[loc := db.levels[loc].(locked := false)]
           && After(db, req).events == db.events + [StockEvent(loc, 0, req.kind.reason, "reconciliation",
                if req.kind.actor == "" then "warehouse-manager" else req.kind.actor)]
      else OutcomeOf(db, req) == Committed([]) && After(db, req).levels == db.levels
  {
    hide OutcomeOf;
    hide After;
    OneLineCall(db, req, l);
  }

  /** So once the row is unlocked, a reservation that only the lock stood in the way of commits. */
  lemma ReservableAgain(db: Tables, unlock: Request, l: Line, hold: Request)
    requires unlock.kind.Unlock? && unlock.lines == [l] && !IsDuplicate(db, unlock)
    requires (db.checks ==> NoNegatives(db.levels)) && Room(db.levels, hold)
    requires hold.kind.Reserve? && hold.lines != [] && Counted(hold.lines) && !IsDuplicate(After(db, unlock), hold)
    requires forall i :: 0 <= i < |hold.lines| ==>
               var loc := Loc(hold.tenant, hold.lines[i]);
               && loc in db.levels && db.levels[loc].available >= SumAt(hold.tenant, hold.lines, loc)
               && (db.levels[loc].locked ==> loc == Loc(unlock.tenant, l))
    ensures OutcomeOf(After(db, unlock), hold).Committed?
  {
    hide OutcomeOf;
    hide SumTo;
    UnlockClears(db, unlock, l);
    assert After(db, unlock).checks == db.checks by { StillTheSame(db, unlock); }
    ReserveIsAllOrNothing(After(db, unlock), hold);
  }

  lemma StillTheSame(db: Tables, req: Request)
    ensures After(db, req).checks == db.checks
  {
  }

  // ----- over a run -----

  /** A reconciliation pass finds the row drifted. */
  predicate Locks(db: Tables, op: Op, loc: Location) {
    op.ReconcilePass? && loc in db.levels && loc in EventLocations(db.events) && Drifted(db, loc)
  }

  /** An unlock that names the row commits. */
  predicate Unlocks(db: Tables, op: Op, loc: Location) {
    Commits(db, op) && op.req.kind.Unlock? && Names(op.req, loc)
  }

  ghost predicate NeverUnlocked(db: Tables, ops: seq<Op>, from: nat, loc: Location) {
    forall j :: from <= j < |ops| ==> !Unlocks(Run(db, ops[..j]), ops[j], loc)
  }

  /** Nothing but a reconciliation pass sets a lock, and nothing but an unlock clears it. */
  lemma OpLocks(db: Tables, op: Op, loc: Location)
    ensures IsLocked(Do(db, op), loc) <==> Locks(db, op, loc) || (IsLocked(db, loc) && !Unlocks(db, op, loc))
  {
    hide DeltaAfter;
    hide Drifted;
    hide EventLocations;
    if Commits(db, op) {
      OverlayLocks(db.checks, db.levels, op.req, |op.req.lines|, loc);
    }
  }

  ghost predicate LockedSince(db: Tables, ops: seq<Op>, i: nat, loc: Location) {
    i < |ops| && Locks(Run(db, ops[..i]), ops[i], loc) && NeverUnlocked(db, ops, i + 1, loc)
  }

  /** When a row is locked: it was to begin with, or some reconciliation pass found it drifted, and no unlock of it has
      committed since. */
  lemma {:induction false} LockedExactlyWhen(db: Tables, ops: seq<Op>, loc: Location)
    ensures IsLocked(Run(db, ops), loc)
            <==> (IsLocked(db, loc) && NeverUnlocked(db, ops, 0, loc)) || exists i :: LockedSince(db, ops, i, loc)
  {
    hide Do;
    hide NeverUnlocked;
    hide LockedSince;
    hide Unlocks;
    hide Locks;
    hide IsLocked;
    if ops == [] {
      NoTimeYet(db, loc);
    } else {
      var n := |ops| - 1;
      LockedExactlyWhen(db, ops[..n], loc);
      OpLocks(Run(db, ops[..n]), ops[n], loc);
      UnlockedMore(db, ops, 0, loc);
      SinceMore(db, ops, loc);
    }
  }

  lemma NoTimeYet(db: Tables, loc: Location)
    ensures NeverUnlocked(db, [], 0, loc) && forall i :: !LockedSince(db, [], i, loc)
  {
  }

  lemma UnlockedMore(db: Tables, ops: seq<Op>, from: nat, loc: Location)
    requires from < |ops|
    ensures
      var n := |ops| - 1;
      NeverUnlocked(db, ops, from, loc)
      <==> NeverUnlocked(db, ops[..n], from, loc) && !Unlocks(Run(db, ops[..n]), ops[n], loc)
  {
    hide Unlocks;
    hide Run;
    var n := |ops| - 1;
    assert forall j :: 0 <= j <= n ==> ops[..n][..j] == ops[..j];
  }

  lemma SinceMore(db: Tables, ops: seq<Op>, loc: Location)
    requires ops != []
    ensures
      var n := |ops| - 1;
      (exists i :: LockedSince(db, ops, i, loc))
      <==> || Locks(Run(db, ops[..n]), ops[n], loc)
           || ((exists i :: LockedSince(db, ops[..n], i, loc)) && !Unlocks(Run(db, ops[..n]), ops[n], loc))
  {
    hide NeverUnlocked;
    hide Unlocks;
    hide Locks;
    hide Run;
    var n := |ops| - 1;
    forall i: nat | i < n
      ensures LockedSince(db, ops, i, loc)
              <==> LockedSince(db, ops[..n], i, loc) && !Unlocks(Run(db, ops[..n]), ops[n], loc)
    {
      assert ops[..n][..i] == ops[..i];
      UnlockedMore(db, ops, i + 1, loc);
    }
    assert NeverUnlocked(db, ops, n + 1, loc) by { NothingAfter(db, ops, loc); }
    assert LockedSince(db, ops, n, loc) <==> Locks(Run(db, ops[..n]), ops[n], loc);
  }

  lemma NothingAfter(db: Tables, ops: seq<Op>, loc: Location)
    ensures NeverUnlocked(db, ops, |ops|, loc)
  {
  }
}
