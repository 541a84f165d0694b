/** A reservation succeeds exactly when every location covers the sum of its lines, and moves exactly those sums. */
module AllOrNothing {
  import opened Base
  import opened StockLedger
  import opened Accounting

  /** A row that can give up everything the request asks of it. */
  predicate Covers(levels: map<Location, Level>, req: Request, loc: Location) {
    loc in levels && !levels[loc].locked && levels[loc].available >= SumAt(req.tenant, req.lines, loc)
  }

  predicate EveryLineCovered(levels: map<Location, Level>, req: Request) {
    forall i :: 0 <= i < |req.lines| ==> Covers(levels, req, Loc(req.tenant, req.lines[i]))
  }

  predicate Counted(lines: seq<Line>) {
    forall i :: 0 <= i < |lines| ==> lines[i].quantity >= 0
  }

  /** The reserved buckets it touches have room for the request. */
  ghost predicate Room(levels: map<Location, Level>, req: Request) {
    forall loc :: loc in levels ==> InInt32(levels[loc].reserved + SumAt(req.tenant, req.lines, loc))
  }

  lemma {:induction false} SumsGrow(tenant: string, lines: seq<Line>, j: nat, k: nat, loc: Location)
    requires j <= k <= |lines| && Counted(lines)
    ensures 0 <= SumTo(tenant, lines, j, loc) <= SumTo(tenant, lines, k, loc)
    decreases k
  {
    if j < k { SumsGrow(tenant, lines, j, k - 1, loc); }
    else if k > 0 { SumsGrow(tenant, lines, k - 1, k - 1, loc); }
  }

  /** Where a row stands after k lines: it gave up at most their sum, and exactly their sum if none was refused. A
      row short of nothing gives up nothing. */
  predicate Standing(row: Option<Level>, was: Level, sum: int, refused: bool) {
    && row.Some?
    && row.value.locked == was.locked && row.value.alloc == was.alloc
    && row.value.available <= was.available
    && (if was.available < 0 then row.value == was else 0 <= row.value.available)
    && row.value.available + row.value.reserved == was.available + was.reserved
    && was.available - row.value.available <= sum
    && (!refused ==> was.available - row.value.available == sum)
  }

  /** One reservation line on a standing row. */
  lemma ReserveLineStands(checks: bool, req: Request, l: Line, row: Option<Level>, was: Level, sum: int, refused: bool)
    requires req.kind.Reserve? && l.quantity >= 0
    requires Standing(row, was, sum, refused) && (checks ==> was.NonNegative())
    requires InInt32(was.reserved + sum + l.quantity)
    ensures
      var e := RowStep(checks, req, l, row);
      if was.locked || row.value.available < l.quantity
      then e == Short
      else e.Put? && Standing(Some(e.level), was, sum + l.quantity, refused)
  {
  }

  lemma {:induction false} ReserveStands(checks: bool, levels: map<Location, Level>, req: Request, k: nat,
                                         loc: Location)
    requires k <= |req.lines| && req.kind.Reserve? && Counted(req.lines)
    requires (checks ==> NoNegatives(levels)) && Room(levels, req)
    ensures
      var d := DeltaAfter(checks, levels, req, k);
      && !d.aborted
      && (if loc in levels
          then Standing(Lookup(levels, d, loc), levels[loc], SumTo(req.tenant, req.lines, k, loc), d.failed != [])
          else Lookup(levels, d, loc).None?)
    decreases k
  {
    hide RowStep;
    if k > 0 {
      var here := Loc(req.tenant, req.lines[k - 1]);
      ReserveStands(checks, levels, req, k - 1, loc);
      ReserveStands(checks, levels, req, k - 1, here);
      SumsGrow(req.tenant, req.lines, k - 1, k, loc);
      SumsGrow(req.tenant, req.lines, k, |req.lines|, here);
      ReserveStep(checks, levels, req, k - 1);
      StandsOneMore(checks, levels, req, k - 1, loc);
    }
  }

  lemma StandsOneMore(checks: bool, levels: map<Location, Level>, req: Request, k: nat, loc: Location)
    requires k < |req.lines| && !DeltaAfter(checks, levels, req, k).aborted
    requires
      var d, sum := DeltaAfter(checks, levels, req, k), SumTo(req.tenant, req.lines, k, loc);
      && SumTo(req.tenant, req.lines, k + 1, loc) >= sum
      && if loc in levels then Standing(Lookup(levels, d, loc), levels[loc], sum, d.failed != [])
         else Lookup(levels, d, loc).None?
    requires
      var here, d := Loc(req.tenant, req.lines[k]), DeltaAfter(checks, levels, req, k);
      var e := EffectAt(checks, levels, req, k);
      || e == Short
      || (&& e.Put? && here in levels
          && Standing(Some(e.level), levels[here], SumTo(req.tenant, req.lines, k + 1, here), d.failed != []))
    ensures
      var d, sum := DeltaAfter(checks, levels, req, k + 1), SumTo(req.tenant, req.lines, k + 1, loc);
      && !d.aborted
      && if loc in levels then Standing(Lookup(levels, d, loc), levels[loc], sum, d.failed != [])
         else Lookup(levels, d, loc).None?
  {
    hide EffectAt;
    hide Standing;
    var here, d := Loc(req.tenant, req.lines[k]), DeltaAfter(checks, levels, req, k);
    var e := EffectAt(checks, levels, req, k);
    assert DeltaAfter(checks, levels, req, k + 1) == Absorb(d, here, e);
    if loc in levels && e == Short {
      RefusedStands(Lookup(levels, d, loc), levels[loc], SumTo(req.tenant, req.lines, k, loc),
                    SumTo(req.tenant, req.lines, k + 1, loc), d.failed != []);
    }
  }

  /** A row that stands so far stands refused whatever is asked of it next. */
  lemma RefusedStands(row: Option<Level>, was: Level, sum: int, more: int, refused: bool)
    requires Standing(row, was, sum, refused) && sum <= more
    ensures Standing(row, was, more, true)
  {
  }

  /** What line k of a reservation does. */
  lemma ReserveStep(checks: bool, levels: map<Location, Level>, req: Request, k: nat)
    requires k < |req.lines| && req.kind.Reserve?
    requires Counted(req.lines)
    requires
      var here := Loc(req.tenant, req.lines[k]);
      var d := DeltaAfter(checks, levels, req, k);
      if here in levels
      then
        && (checks ==> levels[here].NonNegative())
        && InInt32(levels[here].reserved + SumTo(req.tenant, req.lines, k + 1, here))
        && Standing(Lookup(levels, d, here), levels[here], SumTo(req.tenant, req.lines, k, here), d.failed != [])
      else Lookup(levels, d, here).None?
    ensures
      var here := Loc(req.tenant, req.lines[k]);
      var d := DeltaAfter(checks, levels, req, k);
      var e := EffectAt(checks, levels, req, k);
      if here in levels && !levels[here].locked && Lookup(levels, d, here).value.available >= req.lines[k].quantity
      then e.Put? && Standing(Some(e.level), levels[here], SumTo(req.tenant, req.lines, k + 1, here), d.failed != [])
      else e == Short
  {
    hide DeltaAfter;
    var here := Loc(req.tenant, req.lines[k]);
    var d := DeltaAfter(checks, levels, req, k);
    if here in levels {
      ReserveLineStands(checks, req, req.lines[k], Lookup(levels, d, here), levels[here],
                        SumTo(req.tenant, req.lines, k, here), d.failed != []);
    }
  }

  lemma {:induction false} RefusalSticks(checks: bool, levels: map<Location, Level>, req: Request, j: nat, k: nat)
    requires j <= k <= |req.lines|
    requires DeltaAfter(checks, levels, req, j).failed != []
    ensures DeltaAfter(checks, levels, req, k).failed != []
    decreases k
  {
    hide RowStep;
    if j < k { RefusalSticks(checks, levels, req, j, k - 1); }
  }

  lemma {:induction false} CoveredIsNeverRefused(checks: bool, levels: map<Location, Level>, req: Request, k: nat)
    requires k <= |req.lines| && req.kind.Reserve? && Counted(req.lines)
    requires (checks ==> NoNegatives(levels)) && Room(levels, req) && EveryLineCovered(levels, req)
    ensures DeltaAfter(checks, levels, req, k).failed == []
    decreases k
  {
    hide RowStep;
    if k > 0 {
      var here := Loc(req.tenant, req.lines[k - 1]);
      CoveredIsNeverRefused(checks, levels, req, k - 1);
      ReserveStands(checks, levels, req, k - 1, here);
      assert Covers(levels, req, here);
      SumsGrow(req.tenant, req.lines, k, |req.lines|, here);
      ReserveStep(checks, levels, req, k - 1);
    }
  }

  lemma NeverRefusedWasCovered(checks: bool, levels: map<Location, Level>, req: Request, i: nat)
    requires i < |req.lines| && req.kind.Reserve? && Counted(req.lines)
    requires (checks ==> NoNegatives(levels)) && Room(levels, req)
    requires DeltaAfter(checks, levels, req, |req.lines|).failed == []
    ensures Covers(levels, req, Loc(req.tenant, req.lines[i]))
  {
    hide RowStep;
    var here := Loc(req.tenant, req.lines[i]);
    ReserveStands(checks, levels, req, i, here);
    ReserveStands(checks, levels, req, |req.lines|, here);
    SumsGrow(req.tenant, req.lines, i + 1, |req.lines|, here);
    ReserveStep(checks, levels, req, i);
    if EffectAt(checks, levels, req, i).Short? {
      RefusalSticks(checks, levels, req, i + 1, |req.lines|);
    }
  }

  /** For counted quantities with room for them, a fresh reservation commits if and only if every location it
      names has an unlocked row whose available covers the sum of all its lines, however they are ordered or
      repeated. It then moves exactly those sums from available to reserved and touches nothing else in the
      rows; otherwise it reports insufficient stock, and every table, the key ledger included, is as it was. */
  lemma ReserveIsAllOrNothing(db: Tables, req: Request)
    requires req.kind.Reserve? && req.lines != [] && !IsDuplicate(db, req)
    requires Counted(req.lines) && (db.checks ==> NoNegatives(db.levels)) && Room(db.levels, req)
    ensures OutcomeOf(db, req).Committed? <==> EveryLineCovered(db.levels, req)
    ensures OutcomeOf(db, req).Committed? ==>
              && After(db, req).levels.Keys == db.levels.Keys
              && forall loc :: loc in db.levels ==>
                   var was, now, sum := db.levels[loc], After(db, req).levels[loc], SumAt(req.tenant, req.lines, loc);
                   && now.available == was.available - sum && now.reserved == was.reserved + sum
                   && now.alloc == was.alloc && now.locked == was.locked
    ensures !OutcomeOf(db, req).Committed? ==> OutcomeOf(db, req).Insufficient? && After(db, req) == db
  {
    hide DeltaAfter;
    var d := DeltaOf(db, req);
    ReserveStands(db.checks, db.levels, req, |req.lines|, Loc(req.tenant, req.lines[0]));
    forall loc
      ensures loc in db.levels ==>
                Standing(Lookup(db.levels, d, loc), db.levels[loc], SumAt(req.tenant, req.lines, loc), d.failed != [])
      ensures loc !in db.levels ==> loc !in d.writes
    {
      ReserveStands(db.checks, db.levels, req, |req.lines|, loc);
    }
    if EveryLineCovered(db.levels, req) { CoveredIsNeverRefused(db.checks, db.levels, req, |req.lines|); }
    if d.failed == [] {
      forall i | 0 <= i < |req.lines| ensures Covers(db.levels, req, Loc(req.tenant, req.lines[i])) {
        NeverRefusedWasCovered(db.checks, db.levels, req, i);
      }
    }
  }

  /** The RPC itself, which sorts its lines first: what decides and what moves are the caller's lines. */
  lemma ReserveStockIsAllOrNothing(db: Tables, req: Request)
    requires req.kind.Reserve? && req.lines != [] && !IsDuplicate(db, req)
    requires Counted(req.lines) && (db.checks ==> NoNegatives(db.levels)) && Room(db.levels, req)
    ensures
      var out, after := OutcomeOf(db, InLockOrder(req)), After(db, InLockOrder(req));
      && (out.Committed? <==> EveryLineCovered(db.levels, req))
      && (out.Committed? ==>
            && after.levels.Keys == db.levels.Keys
            && forall loc :: loc in db.levels ==>
                 var was, now, sum := db.levels[loc], after.levels[loc], SumAt(req.tenant, req.lines, loc);
                 && now.available == was.available - sum && now.reserved == was.reserved + sum
                 && now.alloc == was.alloc && now.locked == was.locked)
      && (!out.Committed? ==> out.Insufficient? && after == db)
  {
    hide SortLines;
    hide SumTo;
    hide OutcomeOf;
    hide After;
    var sorted := InLockOrder(req);
    SortedIsAscending(req.lines);
    SameMembers(sorted.lines, req.lines);
    forall loc ensures SumAt(req.tenant, sorted.lines, loc) == SumAt(req.tenant, req.lines, loc) {
      SumsIgnoreOrder(req.tenant, sorted.lines, req.lines, loc);
    }
    assert forall loc :: Covers(db.levels, sorted, loc) <==> Covers(db.levels, req, loc);
    assert EveryLineCovered(db.levels, sorted) <==> EveryLineCovered(db.levels, req);
    ReserveIsAllOrNothing(db, sorted);
  }

  lemma SameMembers(a: seq<Line>, b: seq<Line>)
    requires multiset(a) == multiset(b)
    ensures |a| == |b|
    ensures forall i :: 0 <= i < |a| ==> a[i] in b
    ensures forall i :: 0 <= i < |b| ==> b[i] in a
  {
    assert |multiset(a)| == |multiset(b)|;
    forall i | 0 <= i < |a| ensures a[i] in b { assert a[i] in multiset(b); }
    forall i | 0 <= i < |b| ensures b[i] in a { assert b[i] in multiset(a); }
  }

  /** A row locked for audit is not touched by a reservation, and stops it. */
  lemma {:induction false} LockedStaysPut(checks: bool, levels: map<Location, Level>, req: Request, k: nat,
                                          loc: Location)
    requires k <= |req.lines| && req.kind.Reserve? && loc in levels && levels[loc].locked
    ensures Lookup(levels, DeltaAfter(checks, levels, req, k), loc) == Some(levels[loc])
    decreases k
  {
    if k > 0 {
      LockedStaysPut(checks, levels, req, k - 1, loc);
      var e := EffectAt(checks, levels, req, k - 1);
      assert Loc(req.tenant, req.lines[k - 1]) == loc ==> e == Short;
    }
  }

  /** No reservation that names a row locked for audit commits: it reports insufficient stock, or fails on an
      arithmetic error of another line, and changes nothing. */
  lemma LockedRowRefuses(db: Tables, req: Request, i: nat)
    requires req.kind.Reserve? && !IsDuplicate(db, req) && i < |req.lines|
    requires Loc(req.tenant, req.lines[i]) in db.levels && db.levels[Loc(req.tenant, req.lines[i])].locked
    ensures OutcomeOf(db, req).Insufficient? || OutcomeOf(db, req).Internal?
    ensures After(db, req) == db
    ensures Counted(req.lines) && (db.checks ==> NoNegatives(db.levels)) && Room(db.levels, req)
            ==> OutcomeOf(db, req).Insufficient?
  {
    var here, d := Loc(req.tenant, req.lines[i]), DeltaAfter(db.checks, db.levels, req, i);
    LockedStaysPut(db.checks, db.levels, req, i, here);
    assert EffectAt(db.checks, db.levels, req, i) == Short;
    var d' := DeltaAfter(db.checks, db.levels, req, i + 1);
    assert d'.aborted || d'.failed != [];
    if d'.aborted {
      AbortSticks(db.checks, db.levels, req, i + 1, |req.lines|);
    } else {
      RefusalSticks(db.checks, db.levels, req, i + 1, |req.lines|);
    }
    if Counted(req.lines) && (db.checks ==> NoNegatives(db.levels)) && Room(db.levels, req) {
      ReserveIsAllOrNothing(db, req);
    }
  }

  // ----- which SKUs are reported -----

  /** Taking the lines in order: line k is granted when its row is there, is not locked and has the units left. */
  predicate IsGranted(levels: map<Location, Level>, tenant: string, lines: seq<Line>, k: nat)
    requires k < |lines|
    decreases k, 1
  {
    var loc := Loc(tenant, lines[k]);
    && loc in levels && !levels[loc].locked
    && levels[loc].available - Granted(levels, tenant, lines, k, loc) >= lines[k].quantity
  }

  /** The units the first k lines are granted at a location. */
  function Granted(levels: map<Location, Level>, tenant: string, lines: seq<Line>, k: nat, loc: Location): int
    requires k <= |lines|
    decreases k, 0
  {
    if k == 0 then 0
    else
      Granted(levels, tenant, lines, k - 1, loc)
      + (if Loc(tenant, lines[k - 1]) == loc && IsGranted(levels, tenant, lines, k - 1)
         then lines[k - 1].quantity else 0)
  }

  /** The SKUs of the lines that are not granted, in line order. */
  function RefusedSkus(levels: map<Location, Level>, tenant: string, lines: seq<Line>, k: nat): seq<string>
    requires k <= |lines|
  {
    if k == 0 then []
    else
      RefusedSkus(levels, tenant, lines, k - 1)
      + (if IsGranted(levels, tenant, lines, k - 1) then [] else [lines[k - 1].sku])
  }

  lemma PutTakes(checks: bool, req: Request, l: Line, row: Level)
    requires req.kind.Reserve? && l.quantity >= 0 && RowStep(checks, req, l, Some(row)).Put?
    ensures RowStep(checks, req, l, Some(row)).level.available == row.available - l.quantity
  {
  }

  lemma {:induction false} RefusedSoFar(checks: bool, levels: map<Location, Level>, req: Request, k: nat, loc: Location)
    requires k <= |req.lines| && req.kind.Reserve? && Counted(req.lines)
    requires (checks ==> NoNegatives(levels)) && Room(levels, req)
    ensures
      var d := DeltaAfter(checks, levels, req, k);
      && d.failed == RefusedSkus(levels, req.tenant, req.lines, k)
      && (loc in levels ==>
            var row := Lookup(levels, d, loc);
            row.Some? && row.value.available == levels[loc].available - Granted(levels, req.tenant, req.lines, k, loc))
    decreases k
  {
    hide RowStep;
    hide Standing;
    hide NoNegatives;
    hide Room;
    if k > 0 {
      var here := Loc(req.tenant, req.lines[k - 1]);
      RefusedSoFar(checks, levels, req, k - 1, loc);
      RefusedSoFar(checks, levels, req, k - 1, here);
      RefusedStep(checks, levels, req, k - 1);
    }
  }

  lemma RefusedStep(checks: bool, levels: map<Location, Level>, req: Request, k: nat)
    requires k < |req.lines| && req.kind.Reserve? && Counted(req.lines)
    requires (checks ==> NoNegatives(levels)) && Room(levels, req)
    requires
      var here := Loc(req.tenant, req.lines[k]);
      here in levels ==>
        var row := Lookup(levels, DeltaAfter(checks, levels, req, k), here);
        row.Some? && row.value.available == levels[here].available - Granted(levels, req.tenant, req.lines, k, here)
    ensures !DeltaAfter(checks, levels, req, k).aborted
    ensures
      var here, e := Loc(req.tenant, req.lines[k]), EffectAt(checks, levels, req, k);
      if IsGranted(levels, req.tenant, req.lines, k)
      then
        && e.Put?
        && e.level.available
           == levels[here].available - Granted(levels, req.tenant, req.lines, k, here) - req.lines[k].quantity
      else e == Short
  {
    hide RowStep;
    hide Granted;
    hide DeltaAfter;
    hide Standing;
    var here := Loc(req.tenant, req.lines[k]);
    ReserveStands(checks, levels, req, k, here);
    SumsGrow(req.tenant, req.lines, k + 1, |req.lines|, here);
    SumsGrow(req.tenant, req.lines, k, k + 1, here);
    ReserveStep(checks, levels, req, k);
    if IsGranted(levels, req.tenant, req.lines, k) {
      PutTakes(checks, req, req.lines[k], Lookup(levels, DeltaAfter(checks, levels, req, k), here).value);
    }
  }

  /** A refused reservation reports the SKUs of exactly the lines that could not be granted one after the other, in the
      order they were taken. */
  lemma ReportsRefusedSkus(db: Tables, req: Request)
    requires req.kind.Reserve? && req.lines != [] && !IsDuplicate(db, req)
    requires Counted(req.lines) && (db.checks ==> NoNegatives(db.levels)) && Room(db.levels, req)
    ensures
      var skus := RefusedSkus(db.levels, req.tenant, req.lines, |req.lines|);
      if EveryLineCovered(db.levels, req) then skus == [] && OutcomeOf(db, req) == Committed([])
      else skus != [] && OutcomeOf(db, req) == Insufficient(skus)
  {
    hide DeltaAfter;
    hide RefusedSkus;
    hide Room;
    hide NoNegatives;
    ReserveIsAllOrNothing(db, req);
    RefusedSoFar(db.checks, db.levels, req, |req.lines|, Location("", "", ""));
    NothingToReport(db.checks, db.levels, req, |req.lines|);
  }

  lemma {:induction false} NothingToReport(checks: bool, levels: map<Location, Level>, req: Request, k: nat)
    requires k <= |req.lines| && req.kind.Reserve?
    ensures DeltaAfter(checks, levels, req, k).results == []
    decreases k
  {
    if k > 0 { NothingToReport(checks, levels, req, k - 1); }
  }

  // ----- the order of the lines -----

  lemma {:induction false} InsertKeeps(l: Line, sorted: seq<Line>)
    ensures multiset(Insert(l, sorted)) == multiset(sorted) + multiset{l}
  {
    if sorted != [] {
      var last, front := sorted[|sorted| - 1], sorted[..|sorted| - 1];
      assert sorted == front + [last];
      if Precedes(l, last) { InsertKeeps(l, front); }
    }
  }

  lemma {:induction false} PrecedesChains(a: Line, b: Line, c: Line)
    ensures Precedes(a, b) && Precedes(b, c) ==> Precedes(a, c)
    ensures Precedes(a, b) ==> !Precedes(b, a)
    ensures !Precedes(a, b) && !Precedes(b, c) ==> !Precedes(a, c)
  {
    hide Less;
    if Less(a.sku, b.sku) && Less(b.sku, c.sku) { LessTransitive(a.sku, b.sku, c.sku); }
    if Less(a.warehouse, b.warehouse) && Less(b.warehouse, c.warehouse) {
      LessTransitive(a.warehouse, b.warehouse, c.warehouse);
    }
    NotLessBoth(a.sku, b.sku);
    NotLessBoth(a.warehouse, b.warehouse);
    NotLessChains(a.sku, b.sku, c.sku);
    NotLessChains(a.warehouse, b.warehouse, c.warehouse);
    LessTotal(a.sku, b.sku);
  }

  lemma NotLessBoth(a: string, b: string)
    ensures !(Less(a, b) && Less(b, a))
  {
    if Less(a, b) && Less(b, a) { LessTransitive(a, b, a); LessIrreflexive(a); }
  }

  lemma NotLessChains(a: string, b: string, c: string)
    ensures !Less(a, b) && !Less(b, c) ==> !Less(a, c)
    ensures Less(a, c) ==> Less(a, b) || Less(b, c)
  {
    LessTotal(a, b);
    LessTotal(b, c);
    if Less(a, c) && !Less(a, b) && !Less(b, c) {
      if a != b && b != c { LessTransitive(c, b, a); NotLessBoth(a, c); }
    }
  }

  lemma {:induction false} InsertSorts(l: Line, sorted: seq<Line>)
    requires Ascending(sorted)
    ensures Ascending(Insert(l, sorted))
  {
    hide Precedes;
    if sorted != [] {
      var last, front := sorted[|sorted| - 1], sorted[..|sorted| - 1];
      var out := Insert(l, sorted);
      InsertKeeps(l, front);
      if Precedes(l, last) {
        InsertSorts(l, front);
        var rest := Insert(l, front);
        forall i | 0 <= i < |rest| ensures !Precedes(last, rest[i]) {
          assert rest[i] in multiset(rest);
          PrecedesChains(l, last, l);
          if rest[i] != l { assert rest[i] in front; }
        }
      } else {
        forall i | 0 <= i < |sorted| ensures !Precedes(l, sorted[i]) {
          if i < |sorted| - 1 { PrecedesChains(l, last, sorted[i]); }
        }
      }
    }
  }

  /** Lines are locked in ascending order, and sorting neither adds nor drops any. */
  lemma {:induction false} SortedIsAscending(lines: seq<Line>)
    ensures Ascending(SortLines(lines))
    ensures multiset(SortLines(lines)) == multiset(lines)
  {
    if lines != [] {
      var front := lines[..|lines| - 1];
      SortedIsAscending(front);
      InsertSorts(lines[|lines| - 1], SortLines(front));
      InsertKeeps(lines[|lines| - 1], SortLines(front));
      assert lines == front + [lines[|lines| - 1]];
    }
  }

  lemma {:induction false} SumSkips(tenant: string, lines: seq<Line>, i: nat, k: nat, loc: Location)
    requires i < k <= |lines|
    ensures
      var rest := lines[..i] + lines[i + 1..];
      SumTo(tenant, lines, k, loc)
      == SumTo(tenant, rest, k - 1, loc) + (if Loc(tenant, lines[i]) == loc then lines[i].quantity else 0)
    decreases k
  {
    var rest := lines[..i] + lines[i + 1..];
    if k == i + 1 {
      SamePrefix(tenant, lines, rest, i, loc);
    } else {
      assert rest[k - 2] == lines[k - 1];
      SumSkips(tenant, lines, i, k - 1, loc);
    }
  }

  lemma {:induction false} SamePrefix(tenant: string, a: seq<Line>, b: seq<Line>, k: nat, loc: Location)
    requires k <= |a| && k <= |b|
    requires forall i :: 0 <= i < k ==> a[i] == b[i]
    ensures SumTo(tenant, a, k, loc) == SumTo(tenant, b, k, loc)
    decreases k
  {
    if k > 0 { SamePrefix(tenant, a, b, k - 1, loc); }
  }

  lemma Removed<T>(items: seq<T>, i: nat)
    requires i < |items|
    ensures multiset(items[..i] + items[i + 1..]) == multiset(items) - multiset{items[i]}
  {
    assert items == items[..i] + [items[i]] + items[i + 1..];
  }

  /** Where the last item of `a` stands in a permutation of it. */
  lemma Counterpart<T>(a: seq<T>, b: seq<T>) returns (i: nat)
    requires a != [] && multiset(a) == multiset(b)
    ensures i < |b| && b[i] == a[|a| - 1]
    ensures multiset(a[..|a| - 1]) == multiset(b[..i] + b[i + 1..])
  {
    var last := a[|a| - 1];
    assert last in multiset(b);
    i :| 0 <= i < |b| && b[i] == last;
    Removed(a, |a| - 1);
    assert a[..|a| - 1] + a[|a|..] == a[..|a| - 1];
    Removed(b, i);
  }

  /** Per-location totals depend on the lines, not on their order. */
  lemma {:induction false} SumsIgnoreOrder(tenant: string, a: seq<Line>, b: seq<Line>, loc: Location)
    requires multiset(a) == multiset(b)
    ensures SumAt(tenant, a, loc) == SumAt(tenant, b, loc)
    decreases |a|
  {
    if a == [] {
      assert |multiset(b)| == 0;
    } else {
      var i := Counterpart(a, b);
      SumsIgnoreOrder(tenant, a[..|a| - 1], b[..i] + b[i + 1..], loc);
      SumSkips(tenant, b, i, |b|, loc);
      SamePrefix(tenant, a, a[..|a| - 1], |a| - 1, loc);
    }
  }
}
