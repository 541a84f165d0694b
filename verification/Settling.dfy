/** When a release, a confirmation or a fulfilment commits, and what it then moves. */
module Settling {
  import opened Base
  import opened StockLedger
  import opened Accounting
  import opened AllOrNothing
  import opened Effects
  import Drift

  predicate Moving(kind: Kind) {
    kind.Release? || kind.Confirm? || kind.Fulfill?
  }

  /** The row has the units to give up, and room where they go. */
  predicate Bears(kind: Kind, row: Level, sum: int)
    requires Moving(kind)
  {
    match kind
    case Release(_, _) => row.reserved >= sum && InInt32(row.available + sum)
    case Confirm(_) => row.reserved >= sum && InInt32(row.alloc + sum)
    case Fulfill(_) => row.alloc >= sum
  }

  /** A release gives reserved units back, a confirmation makes them allocated, a fulfilment takes allocated units
      away. */
  predicate MovedBy(kind: Kind, was: Level, now: Level, sum: int)
    requires Moving(kind)
  {
    && now.locked == was.locked
    && match kind
       case Release(_, _) =>
         now.available == was.available + sum && now.reserved == was.reserved - sum && now.alloc == was.alloc
       case Confirm(_) =>
         now.available == was.available && now.reserved == was.reserved - sum && now.alloc == was.alloc + sum
       case Fulfill(_) =>
         now.available == was.available && now.reserved == was.reserved && now.alloc == was.alloc - sum
  }

  /** Every row the call names bears the sum of its lines; only a release passes over rows that are not there. */
  predicate CanMove(levels: map<Location, Level>, req: Request)
    requires Moving(req.kind)
  {
    forall i :: 0 <= i < |req.lines| ==>
      var loc := Loc(req.tenant, req.lines[i]);
      if loc in levels then Bears(req.kind, levels[loc], SumAt(req.tenant, req.lines, loc)) else req.kind.Release?
  }

  lemma LineMoves(checks: bool, req: Request, l: Line, row: Level, was: Level, sum: int)
    requires Moving(req.kind) && l.quantity >= 0 && sum >= 0 && was.NonNegative() && MovedBy(req.kind, was, row, sum)
    requires Bears(req.kind, was, sum + l.quantity)
    ensures
      var e := RowStep(checks, req, l, Some(row));
      e.Put? && MovedBy(req.kind, was, e.level, sum + l.quantity)
  {
  }

  lemma {:induction false} MovesStand(checks: bool, levels: map<Location, Level>, req: Request, k: nat, loc: Location)
    requires k <= |req.lines| && Moving(req.kind) && Counted(req.lines) && NoNegatives(levels) && CanMove(levels, req)
    ensures
      var d := DeltaAfter(checks, levels, req, k);
      && !d.aborted && d.failed == []
      && var row := Lookup(levels, d, loc);
         if loc in levels
         then row.Some? && MovedBy(req.kind, levels[loc], row.value, SumTo(req.tenant, req.lines, k, loc))
         else row.None?
    decreases k
  {
    hide RowStep;
    hide MovedBy;
    if k == 0 {
      NothingMoved(req, levels, loc);
    } else {
      var here := Loc(req.tenant, req.lines[k - 1]);
      MovesStand(checks, levels, req, k - 1, loc);
      MovesStand(checks, levels, req, k - 1, here);
      MoveStep(checks, levels, req, k - 1);
    }
  }

  lemma NothingMoved(req: Request, levels: map<Location, Level>, loc: Location)
    requires Moving(req.kind)
    ensures loc in levels ==> MovedBy(req.kind, levels[loc], levels[loc], SumTo(req.tenant, req.lines, 0, loc))
  {
  }

  lemma MoveStep(checks: bool, levels: map<Location, Level>, req: Request, k: nat)
    requires k < |req.lines| && Moving(req.kind) && Counted(req.lines) && NoNegatives(levels) && CanMove(levels, req)
    requires
      var here := Loc(req.tenant, req.lines[k]);
      var row := Lookup(levels, DeltaAfter(checks, levels, req, k), here);
      if here in levels
      then row.Some? && MovedBy(req.kind, levels[here], row.value, SumTo(req.tenant, req.lines, k, here))
      else row.None?
    ensures
      var here, e := Loc(req.tenant, req.lines[k]), EffectAt(checks, levels, req, k);
      if here in levels
      then e.Put? && MovedBy(req.kind, levels[here], e.level, SumTo(req.tenant, req.lines, k + 1, here))
      else e == Skip
  {
    hide DeltaAfter;
    hide MovedBy;
    var here, d := Loc(req.tenant, req.lines[k]), DeltaAfter(checks, levels, req, k);
    SumsGrow(req.tenant, req.lines, k, k + 1, here);
    SumsGrow(req.tenant, req.lines, k + 1, |req.lines|, here);
    if here in levels {
      BearsLess(req.kind, levels[here], SumTo(req.tenant, req.lines, k + 1, here),
                SumAt(req.tenant, req.lines, here));
      LineMoves(checks, req, req.lines[k], Lookup(levels, d, here).value, levels[here],
                SumTo(req.tenant, req.lines, k, here));
    }
  }

  lemma BearsLess(kind: Kind, row: Level, less: int, sum: int)
    requires Moving(kind) && row.NonNegative() && 0 <= less <= sum && Bears(kind, row, sum)
    ensures Bears(kind, row, less)
  {
  }

  /** Without the constraints only a missing row stops the call. */
  lemma {:induction false} NothingChecked(levels: map<Location, Level>, req: Request, k: nat)
    requires k <= |req.lines| && Moving(req.kind)
    requires forall i :: 0 <= i < |req.lines| ==> Loc(req.tenant, req.lines[i]) in levels || req.kind.Release?
    ensures !DeltaAfter(false, levels, req, k).aborted && DeltaAfter(false, levels, req, k).failed == []
    decreases k
  {
    if k > 0 { NothingChecked(levels, req, k - 1); }
  }

  lemma MissingRowAborts(db: Tables, req: Request, i: nat)
    requires i < |req.lines| && (req.kind.Confirm? || req.kind.Fulfill?)
    requires Loc(req.tenant, req.lines[i]) !in db.levels
    ensures DeltaOf(db, req).aborted
  {
    Drift.OnlyRowsAreWritten(db.checks, db.levels, req, i);
    assert DeltaAfter(db.checks, db.levels, req, i + 1).aborted;
    AbortSticks(db.checks, db.levels, req, i + 1, |req.lines|);
  }

  lemma NeverShort(checks: bool, levels: map<Location, Level>, req: Request, k: nat)
    requires k <= |req.lines| && Moving(req.kind)
    ensures DeltaAfter(checks, levels, req, k).failed == []
  {
  }

  /** The counterpart of the reservation's theorem for the calls that follow it. With the constraints on, a fresh call
      for counted quantities commits if and only if every row it names is there, has the sum of its lines to give and
      room for it where it goes; a release passes over rows that are not there. Without them only a missing row stops
      it. Then exactly those sums move; otherwise the call fails and nothing has changed. */
  lemma MoveCommitsExactlyWhen(db: Tables, req: Request)
    requires Moving(req.kind) && !IsDuplicate(db, req) && Counted(req.lines) && NoNegatives(db.levels)
    ensures db.checks ==> (OutcomeOf(db, req).Committed? <==> CanMove(db.levels, req))
    ensures !db.checks ==>
              (OutcomeOf(db, req).Committed?
               <==> forall i :: 0 <= i < |req.lines| ==>
                      Loc(req.tenant, req.lines[i]) in db.levels || req.kind.Release?)
    ensures CanMove(db.levels, req) ==>
              && OutcomeOf(db, req).Committed? && After(db, req).levels.Keys == db.levels.Keys
              && forall loc :: loc in db.levels ==>
                   MovedBy(req.kind, db.levels[loc], After(db, req).levels[loc], SumAt(req.tenant, req.lines, loc))
    ensures !OutcomeOf(db, req).Committed? ==> OutcomeOf(db, req) == Internal && After(db, req) == db
  {
    hide DeltaAfter;
    hide MovedBy;
    NeverShort(db.checks, db.levels, req, |req.lines|);
    if CanMove(db.levels, req) {
      forall loc
        ensures
          var d := DeltaOf(db, req);
          && !d.aborted
          && if loc in db.levels
             then MovedBy(req.kind, db.levels[loc], Lookup(db.levels, d, loc).value, SumAt(req.tenant, req.lines, loc))
             else loc !in d.writes
      {
        MovesStand(db.checks, db.levels, req, |req.lines|, loc);
      }
      MovesStand(db.checks, db.levels, req, |req.lines|, Location("", "", ""));
    }
    if OutcomeOf(db, req).Committed? { CommittedBore(db, req); }
    var there := forall i :: 0 <= i < |req.lines| ==> Loc(req.tenant, req.lines[i]) in db.levels || req.kind.Release?;
    if !db.checks && there {
      NothingChecked(db.levels, req, |req.lines|);
    }
  }

  lemma CommittedBore(db: Tables, req: Request)
    requires Moving(req.kind) && NoNegatives(db.levels) && OutcomeOf(db, req).Committed?
    ensures forall i :: 0 <= i < |req.lines| ==> Loc(req.tenant, req.lines[i]) in db.levels || req.kind.Release?
    ensures db.checks ==> CanMove(db.levels, req)
  {
    hide DeltaAfter;
    hide NoNegatives;
    forall i | 0 <= i < |req.lines| ensures Loc(req.tenant, req.lines[i]) in db.levels || req.kind.Release? {
      if Loc(req.tenant, req.lines[i]) !in db.levels && !req.kind.Release? { MissingRowAborts(db, req, i); }
    }
    if db.checks {
      forall i | 0 <= i < |req.lines| && Loc(req.tenant, req.lines[i]) in db.levels
        ensures
          var loc := Loc(req.tenant, req.lines[i]);
          Bears(req.kind, db.levels[loc], SumAt(req.tenant, req.lines, loc))
      {
        BoreHere(db, req, Loc(req.tenant, req.lines[i]));
      }
    }
  }

  lemma BoreHere(db: Tables, req: Request, loc: Location)
    requires Moving(req.kind) && db.checks && NoNegatives(db.levels) && OutcomeOf(db, req).Committed?
    requires loc in db.levels
    ensures Bears(req.kind, db.levels[loc], SumAt(req.tenant, req.lines, loc))
  {
    hide OutcomeOf;
    hide DeltaOf;
    hide SumTo;
    CommittedMoves(db, req, loc);
    assert After(db, req).levels[loc].NonNegative();
  }
}
