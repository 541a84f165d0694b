/** What a committed call does to one location, and what no call does. */
module Effects {
  import opened Base
  import opened StockLedger
  import opened Accounting
  import opened Conservation
  import opened Drift

  function SignAvailable(kind: Kind): int { if kind.Reserve? then -1 else if kind.Release? then 1 else 0 }
  function SignReserved(kind: Kind): int {
    if kind.Reserve? then 1 else if kind.Release? || kind.Confirm? then -1 else 0
  }
  function SignAllocated(kind: Kind): int { if kind.Confirm? then 1 else if kind.Fulfill? then -1 else 0 }

  function Signed(sign: int, n: int): int {
    if sign == 0 then 0 else if sign > 0 then n else -n
  }

  /** A release or an unlock passes over a location without a row. */
  function MovedAt(levels: map<Location, Level>, req: Request, loc: Location): int {
    if (req.kind.Release? || req.kind.Unlock?) && loc !in levels then 0 else SumAt(req.tenant, req.lines, loc)
  }

  lemma EntryMoves(kind: Kind, q: Int32, row: Level)
    ensures
      var moved := LineAccount(kind, q, row).moved;
      && (!kind.Adjust? ==> moved.available == Signed(SignAvailable(kind), q))
      && moved.reserved == Signed(SignReserved(kind), q)
      && moved.alloc == Signed(SignAllocated(kind), q)
  {
    hide DriftOf;
    hide SpillOf;
    hide ClaimSpillOf;
  }

  lemma LineWrites(checks: bool, req: Request, l: Line, row: Option<Level>)
    requires !req.kind.Adjust?
    ensures
      var e := RowStep(checks, req, l, row);
      && (row.None? ==> !e.Put?)
      && (row.Some? ==> !e.Skip?)
      && (!req.kind.Release? && !req.kind.Unlock? ==> !e.Skip?)
  {
    hide Moved;
  }

  /** In a transaction that has not failed, a line counts wherever it names a row. */
  lemma LineCounts(checks: bool, levels: map<Location, Level>, req: Request, k: nat, loc: Location)
    requires k < |req.lines| && !req.kind.Adjust?
    requires !DeltaAfter(checks, levels, req, k + 1).aborted && DeltaAfter(checks, levels, req, k + 1).failed == []
    ensures !DeltaAfter(checks, levels, req, k).aborted && DeltaAfter(checks, levels, req, k).failed == []
    ensures Counts(checks, levels, req, k, loc)
       <==> Loc(req.tenant, req.lines[k]) == loc && !((req.kind.Release? || req.kind.Unlock?) && loc !in levels)
  {
    hide RowStep;
    OnlyRowsAreWritten(checks, levels, req, k);
    LineWrites(checks, req, req.lines[k], RowAt(checks, levels, req, k));
  }

  lemma MovedPlus(a: Account, b: Account)
    ensures a.Plus(b).moved == a.moved.Plus(b.moved)
  {
  }

  lemma BlankMoves()
    ensures BLANK.moved.available == 0 && BLANK.moved.reserved == 0 && BLANK.moved.alloc == 0
  {
  }

  lemma EntryAtMoves(checks: bool, levels: map<Location, Level>, req: Request, k: nat)
    requires k < |req.lines| && !req.kind.Adjust?
    ensures
      var moved, q := EntryAt(checks, levels, req, k).moved, req.lines[k].quantity;
      && moved.available == Signed(SignAvailable(req.kind), q)
      && moved.reserved == Signed(SignReserved(req.kind), q)
      && moved.alloc == Signed(SignAllocated(req.kind), q)
  {
    hide LineAccount;
    hide RowAt;
    hide FRESH;
    EntryMoves(req.kind, req.lines[k].quantity, RowAt(checks, levels, req, k).GetOr(FRESH));
  }

  lemma {:induction false} TransactionMoved(checks: bool, levels: map<Location, Level>, req: Request, k: nat,
                                            loc: Location)
    requires k <= |req.lines| && !req.kind.Adjust?
    requires !DeltaAfter(checks, levels, req, k).aborted && DeltaAfter(checks, levels, req, k).failed == []
    ensures
      var moved := AccountTo(checks, levels, req, k, loc).moved;
      var sum := if (req.kind.Release? || req.kind.Unlock?) && loc !in levels then 0
                 else SumTo(req.tenant, req.lines, k, loc);
      && moved.available == Signed(SignAvailable(req.kind), sum)
      && moved.reserved == Signed(SignReserved(req.kind), sum)
      && moved.alloc == Signed(SignAllocated(req.kind), sum)
    decreases k
  {
    hide AccountTo;
    hide SignAvailable;
    hide SignReserved;
    hide SignAllocated;
    hide DeltaAfter;
    hide Counts;
    if k == 0 {
      NothingMovedYet(checks, levels, req, loc);
    } else {
      LineCounts(checks, levels, req, k - 1, loc);
      TransactionMoved(checks, levels, req, k - 1, loc);
      MovedGrows(checks, levels, req, k - 1, loc);
    }
  }

  lemma NothingMovedYet(checks: bool, levels: map<Location, Level>, req: Request, loc: Location)
    ensures
      var moved := AccountTo(checks, levels, req, 0, loc).moved;
      moved.available == 0 && moved.reserved == 0 && moved.alloc == 0
  {
    hide ZERO;
    BlankMoves();
  }

  /** What one more line that is entered moves. */
  lemma MovedGrows(checks: bool, levels: map<Location, Level>, req: Request, k: nat, loc: Location)
    requires k < |req.lines| && !req.kind.Adjust?
    ensures
      var was, now := AccountTo(checks, levels, req, k, loc).moved, AccountTo(checks, levels, req, k + 1, loc).moved;
      var q := if Counts(checks, levels, req, k, loc) then req.lines[k].quantity else 0;
      && now.available == was.available + Signed(SignAvailable(req.kind), q)
      && now.reserved == was.reserved + Signed(SignReserved(req.kind), q)
      && now.alloc == was.alloc + Signed(SignAllocated(req.kind), q)
  {
    hide AccountTo;
    hide EntryAt;
    hide Counts;
    hide SignAvailable;
    hide SignReserved;
    hide SignAllocated;
    hide Account.Plus;
    AccountGrows(checks, levels, req, k, loc);
    EntryAtMoves(checks, levels, req, k);
    MovedPlus(AccountTo(checks, levels, req, k, loc), EntryAt(checks, levels, req, k));
  }

  /** With the constraints on, a committed call moves exactly the sum of its lines between the buckets its kind
      names, at every location, and an adjustment never touches reserved or allocated. */
  lemma CommittedMoves(db: Tables, req: Request, loc: Location)
    requires db.checks && NoNegatives(db.levels) && OutcomeOf(db, req).Committed?
    requires req.kind.Adjust? ==> |req.lines| == 1
    ensures
      var was, now, sum := At(db.levels, loc), At(After(db, req).levels, loc), MovedAt(db.levels, req, loc);
      && NoNegatives(After(db, req).levels)
      && (!req.kind.Adjust? ==> now.available == was.available + Signed(SignAvailable(req.kind), sum))
      && now.reserved == was.reserved + Signed(SignReserved(req.kind), sum)
      && now.alloc == was.alloc + Signed(SignAllocated(req.kind), sum)
  {
    hide AccountTo;
    hide At;
    hide NoNegatives;
    hide OutcomeOf;
    hide After;
    hide MovedAt;
    hide SignAvailable;
    hide SignReserved;
    hide SignAllocated;
    hide Account.NoWrap;
    hide Account.Stored;
    CallAccounts(db, req, loc);
    AccountMoved(db, req, loc);
    NoWrapStores(AccountTo(db.checks, db.levels, req, |req.lines|, loc));
  }

  lemma NoWrapStores(a: Account)
    ensures a.NoWrap() ==> a.Stored() == a.moved
  {
  }

  lemma AccountMoved(db: Tables, req: Request, loc: Location)
    requires OutcomeOf(db, req).Committed?
    requires req.kind.Adjust? ==> |req.lines| == 1
    ensures
      var moved, sum := AccountTo(db.checks, db.levels, req, |req.lines|, loc).moved, MovedAt(db.levels, req, loc);
      && (!req.kind.Adjust? ==> moved.available == Signed(SignAvailable(req.kind), sum))
      && moved.reserved == Signed(SignReserved(req.kind), sum)
      && moved.alloc == Signed(SignAllocated(req.kind), sum)
  {
    hide LineAccount;
    hide SignAvailable;
    if req.kind.Adjust? {
      AdjustmentAccount(db, req, loc);
      BlankMoves();
      var row := if loc in db.levels then db.levels[loc] else FRESH;
      EntryMoves(req.kind, req.lines[0].quantity, row);
      MovedPlus(BLANK, LineAccount(req.kind, req.lines[0].quantity, row));
    } else {
      TransactionMoved(db.checks, db.levels, req, |req.lines|, loc);
    }
  }
}
