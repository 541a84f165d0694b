/** What a committed call leaves in the audit log and the outbox, and what it tells its caller. */
module Trail {
  import opened Base
  import opened StockLedger
  import opened Accounting
  import opened AllOrNothing
  import opened Settling
  import Drift

  /** A reservation, release, confirmation or fulfilment. */
  predicate ByLine(kind: Kind) {
    kind.Reserve? || Moving(kind)
  }

  /** The lines among the first k whose rows are there. */
  function Present(levels: map<Location, Level>, tenant: string, lines: seq<Line>, k: nat): (p: seq<Line>)
    requires k <= |lines|
    ensures |p| <= k
  {
    if k == 0 then []
    else
      Present(levels, tenant, lines, k - 1) + (if Loc(tenant, lines[k - 1]) in levels then [lines[k - 1]] else [])
  }

  /** The entries one line leaves. */
  predicate Recorded(req: Request, l: Line, e: StockEvent, p: OutboxEvent)
    requires ByLine(req.kind)
  {
    var loc, key := Loc(req.tenant, l), req.tenant + ":" + l.sku;
    match req.kind
    case Reserve(order) =>
      && e == StockEvent(loc, Wrap32(0 - l.quantity), "reserve", "reservation", order)
      && p == OutboxEvent(req.tenant, key, "stock.reserved", LineMoved("reserve", order, l))
    case Release(order, reason) =>
      && e == StockEvent(loc, l.quantity, reason, "reservation", order)
      && p == OutboxEvent(req.tenant, key, "stock.released", LineMoved("release", order, l))
    case Confirm(order) =>
      && e == StockEvent(loc, l.quantity, "allocate", "reservation", "system")
      && p == OutboxEvent(req.tenant, key, "stock.allocated", LineMoved("allocate", order, l))
    case Fulfill(order) =>
      && e == StockEvent(loc, l.quantity, "fulfill", "fulfillment", "system")
      && p == OutboxEvent(req.tenant, key, "stock.fulfilled", LineMoved("fulfill", order, l))
  }

  predicate AllRecorded(req: Request, lines: seq<Line>, events: seq<StockEvent>, outbox: seq<OutboxEvent>)
    requires ByLine(req.kind)
  {
    && |events| == |lines| && |outbox| == |lines|
    && forall i :: 0 <= i < |lines| ==> Recorded(req, lines[i], events[i], outbox[i])
  }

  /** What the answer says of one line. */
  predicate Answered(kind: Kind, l: Line, r: LineResult) {
    match kind
    case Release(_, _) => r == ReleasedSku(l.sku)
    case Confirm(_) => r == AllocatedLine(l.sku, l.warehouse, l.quantity)
    case Fulfill(_) => r.RemainingLine? && r.sku == l.sku && r.warehouse == l.warehouse
    case _ => false
  }

  predicate AllAnswered(kind: Kind, lines: seq<Line>, results: seq<LineResult>) {
    if kind.Reserve? then results == []
    else |results| == |lines| && forall i :: 0 <= i < |lines| ==> Answered(kind, lines[i], results[i])
  }

  lemma LineIsRecorded(checks: bool, req: Request, l: Line, row: Option<Level>)
    requires ByLine(req.kind)
    ensures
      var e := RowStep(checks, req, l, row);
      && (e.Put? ==>
            && row.Some? && |e.outbox| == 1 && Recorded(req, l, e.event, e.outbox[0])
            && (if req.kind.Reserve? then e.results == [] else |e.results| == 1 && Answered(req.kind, l, e.results[0])))
      && (e.Skip? ==> row.None? && req.kind.Release?) && (e.Short? ==> req.kind.Reserve?)
  {
  }

  lemma {:induction false} TrailSoFar(checks: bool, levels: map<Location, Level>, req: Request, k: nat)
    requires k <= |req.lines| && ByLine(req.kind)
    requires !DeltaAfter(checks, levels, req, k).aborted && DeltaAfter(checks, levels, req, k).failed == []
    ensures
      var d, p := DeltaAfter(checks, levels, req, k), Present(levels, req.tenant, req.lines, k);
      && AllRecorded(req, p, d.events, d.outbox) && AllAnswered(req.kind, p, d.results)
      && (!req.kind.Release? ==> p == req.lines[..k])
    decreases k
  {
    hide RowStep;
    hide AllRecorded;
    hide AllAnswered;
    hide Recorded;
    hide Answered;
    if k == 0 {
      NoTrail(req);
    } else {
      TrailSoFar(checks, levels, req, k - 1);
      Drift.OnlyRowsAreWritten(checks, levels, req, k - 1);
      var l, d := req.lines[k - 1], DeltaAfter(checks, levels, req, k - 1);
      var e, p := EffectAt(checks, levels, req, k - 1), Present(levels, req.tenant, req.lines, k - 1);
      LineIsRecorded(checks, req, l, RowAt(checks, levels, req, k - 1));
      if e.Put? { TrailGrows(req, p, l, d, e); }
      assert p + [] == p;
    }
  }

  lemma NoTrail(req: Request)
    requires ByLine(req.kind)
    ensures AllRecorded(req, [], [], []) && AllAnswered(req.kind, [], [])
  {
  }

  lemma TrailGrows(req: Request, lines: seq<Line>, l: Line, d: Delta, e: RowEffect)
    requires ByLine(req.kind) && e.Put? && |e.outbox| == 1 && Recorded(req, l, e.event, e.outbox[0])
    requires if req.kind.Reserve? then e.results == [] else |e.results| == 1 && Answered(req.kind, l, e.results[0])
    requires AllRecorded(req, lines, d.events, d.outbox) && AllAnswered(req.kind, lines, d.results)
    ensures AllRecorded(req, lines + [l], d.events + [e.event], d.outbox + e.outbox)
    ensures AllAnswered(req.kind, lines + [l], d.results + e.results)
  {
    hide Recorded;
    hide Answered;
  }

  /** A committed call leaves one audit record and one outbox event for every line whose row is there, in line order,
      and answers with one entry for each; a reservation answers with none. What was recorded before stays. Only a
      release commits without all the rows. */
  lemma CommittedTrail(db: Tables, req: Request)
    requires ByLine(req.kind) && OutcomeOf(db, req).Committed?
    ensures
      var after, p := After(db, req), Present(db.levels, req.tenant, req.lines, |req.lines|);
      && db.events <= after.events && db.outbox <= after.outbox
      && AllRecorded(req, p, after.events[|db.events|..], after.outbox[|db.outbox|..])
      && AllAnswered(req.kind, p, OutcomeOf(db, req).results)
      && (!req.kind.Release? ==> p == req.lines)
  {
    hide DeltaAfter;
    hide AllRecorded;
    hide AllAnswered;
    TrailSoFar(db.checks, db.levels, req, |req.lines|);
    var d := DeltaOf(db, req);
    assert req.lines[..|req.lines|] == req.lines;
    assert After(db, req).events[|db.events|..] == d.events && After(db, req).outbox[|db.outbox|..] == d.outbox;
  }

  /** A fulfilment reports, line by line, what its row still has allocated. */
  lemma FulfilmentReportsWhatIsLeft(db: Tables, req: Request, k: nat)
    requires req.kind.Fulfill? && !IsDuplicate(db, req) && Counted(req.lines) && NoNegatives(db.levels)
    requires CanMove(db.levels, req) && k < |req.lines|
    ensures
      var out, loc := OutcomeOf(db, req), Loc(req.tenant, req.lines[k]);
      && out.Committed? && |out.results| == |req.lines| && loc in db.levels && out.results[k].RemainingLine?
      && out.results[k].quantity == db.levels[loc].alloc - SumTo(req.tenant, req.lines, k + 1, loc)
  {
    hide DeltaAfter;
    hide CanMove;
    hide NoNegatives;
    hide SumTo;
    MoveCommitsExactlyWhen(db, req);
    LeftSoFar(db.checks, db.levels, req, |req.lines|, k);
  }

  lemma {:induction false} LeftSoFar(checks: bool, levels: map<Location, Level>, req: Request, n: nat, k: nat)
    requires req.kind.Fulfill? && Counted(req.lines) && NoNegatives(levels) && CanMove(levels, req)
    requires k < n <= |req.lines|
    ensures
      var d, loc := DeltaAfter(checks, levels, req, n), Loc(req.tenant, req.lines[k]);
      && |d.results| == n && d.results[k].RemainingLine?
      && loc in levels && d.results[k].quantity == levels[loc].alloc - SumTo(req.tenant, req.lines, k + 1, loc)
    decreases n
  {
    hide DeltaAfter;
    hide RowStep;
    hide CanMove;
    hide NoNegatives;
    hide SumTo;
    var here, e := Loc(req.tenant, req.lines[n - 1]), EffectAt(checks, levels, req, n - 1);
    RowsAreThere(levels, req, n - 1);
    MovesStand(checks, levels, req, n - 1, here);
    MoveStep(checks, levels, req, n - 1);
    RemainingIsLeft(checks, req, req.lines[n - 1], RowAt(checks, levels, req, n - 1));
    ResultsGrow(checks, levels, req, n - 1);
    if n > 1 {
      LeftSoFar(checks, levels, req, n - 1, if k < n - 1 then k else 0);
    } else {
      NoResults(checks, levels, req);
    }
  }

  lemma ResultsGrow(checks: bool, levels: map<Location, Level>, req: Request, k: nat)
    requires k < |req.lines| && !DeltaAfter(checks, levels, req, k).aborted && EffectAt(checks, levels, req, k).Put?
    ensures DeltaAfter(checks, levels, req, k + 1).results
         == DeltaAfter(checks, levels, req, k).results + EffectAt(checks, levels, req, k).results
  {
    hide RowStep;
  }

  lemma NoResults(checks: bool, levels: map<Location, Level>, req: Request)
    ensures DeltaAfter(checks, levels, req, 0).results == []
  {
  }

  lemma RowsAreThere(levels: map<Location, Level>, req: Request, i: nat)
    requires req.kind.Fulfill? && CanMove(levels, req) && i < |req.lines|
    ensures Loc(req.tenant, req.lines[i]) in levels
  {
  }

  lemma RemainingIsLeft(checks: bool, req: Request, l: Line, row: Option<Level>)
    requires req.kind.Fulfill? && RowStep(checks, req, l, row).Put?
    ensures
      var e := RowStep(checks, req, l, row);
      |e.results| == 1 && e.results[0].RemainingLine? && e.results[0].quantity == e.level.alloc
  {
  }
}
