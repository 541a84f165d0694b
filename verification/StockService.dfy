/**
 The stock service as the program runs it: one object over the four tables, each RPC a transaction
 that writes as it goes and restores the tables when it fails. Every method is tied to the ledger
 semantics, so what is proved about `After` and `OutcomeOf` holds of these loops.
 */
module StockService {
  import opened Base
  import opened StockLedger
  import opened Accounting
  import opened Pruning

  /** One SumDeltasByReason row. */
  datatype ReasonSum = ReasonSum(reason: string, total: int)

  datatype DriftRecord = DriftRecord(loc: Location, expected: Buckets, actual: Buckets)

  datatype LineStatus = Done(results: seq<LineResult>) | Refused | Errored

  lemma {:induction false} InsertedAt(l: Line, done: seq<Line>, j: nat)
    requires j <= |done|
    requires forall i :: j <= i < |done| ==> Precedes(l, done[i])
    requires j == 0 || !Precedes(l, done[j - 1])
    ensures Insert(l, done) == done[..j] + [l] + done[j..]
    decreases |done|
  {
    hide Precedes;
    if j < |done| {
      var shorter := done[..|done| - 1];
      InsertedAt(l, shorter, j);
      assert shorter[..j] == done[..j] && shorter[j..] + [done[|done| - 1]] == done[j..];
    }
  }

  /** Moves out[n] down into the sorted prefix before it. */
  method InsertDown(out: array<Line>, n: nat)
    requires n < out.Length
    modifies out
    ensures out[..n + 1] == Insert(old(out[n]), old(out[..n]))
    ensures out[n + 1..] == old(out[n + 1..])
  {
    hide Precedes;
    hide Insert;
    ghost var was := out[..];
    var l, j := out[n], n;
    while j > 0 && Precedes(l, out[j - 1])
      invariant 0 <= j <= n
      invariant forall i :: 0 <= i < j ==> out[i] == was[i]
      invariant forall i :: j < i <= n ==> out[i] == was[i - 1]
      invariant forall i :: n < i < out.Length ==> out[i] == was[i]
      invariant forall i :: j <= i < n ==> Precedes(l, was[i])
    {
      out[j] := out[j - 1];
      j := j - 1;
    }
    out[j] := l;
    Placed(out[..], was, n, j);
    assert out[..n + 1] == out[..][..n + 1] && out[n + 1..] == out[..][n + 1..];
    assert was[..n] == old(out[..n]) && was[n + 1..] == old(out[n + 1..]);
  }

  lemma Placed(now: seq<Line>, was: seq<Line>, n: nat, j: nat)
    requires j <= n < |was| == |now|
    requires forall i :: 0 <= i < j ==> now[i] == was[i]
    requires forall i :: j < i <= n ==> now[i] == was[i - 1]
    requires forall i :: n < i < |was| ==> now[i] == was[i]
    requires now[j] == was[n]
    requires forall i :: j <= i < n ==> Precedes(was[n], was[i])
    requires j == 0 || !Precedes(was[n], was[j - 1])
    ensures now[..n + 1] == Insert(was[n], was[..n]) && now[n + 1..] == was[n + 1..]
  {
    hide Precedes;
    hide Insert;
    InsertedAt(was[n], was[..n], j);
    assert now[..n + 1] == was[..n][..j] + [was[n]] + was[..n][j..];
  }

  /** Copies the lines and sorts the copy into lock order. */
  method SortedLines(lines: seq<Line>) returns (sorted: seq<Line>)
    ensures sorted == SortLines(lines)
  {
    var out := new Line[|lines|](i requires 0 <= i < |lines| => lines[i]);
    for n := 0 to |lines|
      invariant out[..n] == SortLines(lines[..n])
      invariant out[n..] == lines[n..]
    {
      assert out[n] == out[n..][0] == lines[n];
      assert lines[..n + 1][..n] == lines[..n];
      assert out[n + 1..] == out[n..][1..];
      InsertDown(out, n);
    }
    assert lines[..|lines|] == lines;
    sorted := out[..];
  }

  // ----- reconciliation queries -----

  function SumFor(events: seq<StockEvent>, loc: Location, reason: string): int {
    if events == [] then 0
    else
      var e := events[|events| - 1];
      SumFor(events[..|events| - 1], loc, reason) + (if e.loc == loc && e.reason == reason then e.delta else 0)
  }

  /** The rows of SumDeltasByReason, in whatever order: one per reason with events at the location. */
  ghost predicate IsGrouping(sums: seq<ReasonSum>, events: seq<StockEvent>, loc: Location) {
    && (forall i, j :: 0 <= i < j < |sums| ==> sums[i].reason != sums[j].reason)
    && (forall i :: 0 <= i < |sums| ==> sums[i].total == SumFor(events, loc, sums[i].reason))
    && (forall k :: 0 <= k < |events| && events[k].loc == loc ==> HasReason(sums, events[k].reason))
  }

  ghost predicate HasReason(sums: seq<ReasonSum>, reason: string) {
    exists i :: 0 <= i < |sums| && sums[i].reason == reason
  }

  /** What the derivation contract makes of summed deltas. */
  function DerivedFromSums(sums: seq<ReasonSum>): Buckets {
    if sums == [] then ZERO
    else DerivedFromSums(sums[..|sums| - 1]).Plus(
           DerivedOf(Read(sums[|sums| - 1].reason), sums[|sums| - 1].total))
  }

  method DeriveBuckets(sums: seq<ReasonSum>) returns (derived: Buckets)
    ensures derived == DerivedFromSums(sums)
  {
    var available, reserved, alloc := 0, 0, 0;
    for i := 0 to |sums|
      invariant Buckets(available, reserved, alloc) == DerivedFromSums(sums[..i])
    {
      assert sums[..i + 1][..i] == sums[..i];
      var total := sums[i].total;
      if sums[i].reason == "allocate" {
        reserved, alloc := reserved - total, alloc + total;
      } else if sums[i].reason == "fulfill" {
        alloc := alloc - total;
      } else if sums[i].reason == "reserve" || sums[i].reason == "release" {
        reserved, available := reserved - total, available + total;
      } else {
        available := available + total;
      }
    }
    assert sums[..|sums|] == sums;
    derived := Buckets(available, reserved, alloc);
  }

  class StockStore {
    const checks: bool
    var levels: map<Location, Level>
    var events: seq<StockEvent>
    var outbox: seq<OutboxEvent>
    var keys: map<Key, int>

    constructor (checks: bool)
      ensures Db() == EmptyTables(checks)
    {
      this.checks := checks;
      levels, events, outbox, keys := map[], [], [], map[];
    }

    function Db(): Tables
      reads this
    {
      Tables(checks, levels, events, outbox, keys)
    }

    /** Undoes everything since the transaction began. */
    method Rollback(to: Tables)
      requires to.checks == checks
      modifies this
      ensures Db() == to
    {
      levels, events, outbox, keys := to.levels, to.events, to.outbox, to.keys;
    }

    /** Inserts the key unless it is already recorded; an empty key never conflicts. */
    method TryIdempotency(tenant: string, key: string, at: int) returns (dup: bool)
      modifies this`keys
      ensures dup == (key != "" && Key(tenant, key) in old(keys))
      ensures keys == if dup || key == "" then old(keys) else old(keys)[Key(tenant, key) := at]
    {
      if key == "" { return false; }
      if Key(tenant, key) in keys { return true; }
      keys := keys[Key(tenant, key) := at];
      dup := false;
    }

    /** The tables are those the transaction began with, overlaid with what it has written so far. */
    ghost predicate Holds(began: Tables, req: Request, d: Delta)
      reads this
    {
      && began.checks == checks
      && levels == began.levels + d.writes
      && events == began.events + d.events
      && outbox == began.outbox + d.outbox
      && keys == KeysWith(began.keys, req)
      && !d.aborted
    }

    /** What a line did to the tables, given the row effect the ledger semantics assigns it. */
    ghost predicate Wrote(effect: RowEffect, loc: Location, done: LineStatus, began: Tables)
      reads this
    {
      match effect
      case Abort => done.Errored? && levels == began.levels && events == began.events && outbox == began.outbox
      case Short => done.Refused? && levels == began.levels && events == began.events && outbox == began.outbox
      case Skip => done == Done([]) && levels == began.levels && events == began.events && outbox == began.outbox
      case Put(level, event, published, results) =>
        && done == Done(results)
        && levels == began.levels[loc := level]
        && events == began.events + [event]
        && outbox == began.outbox + published
    }

    /** UPDATE plus the two INSERTs; a violated CHECK makes the UPDATE an error. */
    method Write(loc: Location, level: Level, event: StockEvent, published: seq<OutboxEvent>, results: seq<LineResult>)
      returns (done: LineStatus)
      modifies this`levels, this`events, this`outbox
      ensures Wrote(if checks && !level.NonNegative() then Abort else Put(level, event, published, results),
                    loc, done, old(Db()))
    {
      if checks && !level.NonNegative() { return Errored; }
      levels := levels[loc := level];
      events := events + [event];
      outbox := outbox + published;
      done := Done(results);
    }

    method AdjustLine(reason: string, source: string, tenant: string, l: Line, ghost req: Request)
      returns (done: LineStatus)
      requires req.kind == Adjust(reason, source) && req.tenant == tenant
      modifies this`levels, this`events, this`outbox
      ensures Wrote(RowStep(checks, req, l, Lookup(old(levels), NOTHING, Loc(tenant, l))), Loc(tenant, l), done,
                    old(Db()))
    {
      var loc := Location(tenant, l.sku, l.warehouse);
      var level := if loc in levels then levels[loc] else Level(0, 0, 0, false);
      var upserted := level.available + l.quantity;
      if !InInt32(upserted) { return Errored; }
      if checks && (l.quantity < 0 || !level.(available := upserted).NonNegative()) { return Errored; }
      var clamped := upserted < 0;
      var next := level.(available := if clamped then 0 else upserted);
      var alert := if clamped
                   then [OutboxEvent(tenant, tenant + ":" + l.sku, "stock.deficit_alert",
                                     Deficit(l.sku, l.warehouse, l.quantity, reason, source))]
                   else [];
      done := Write(loc,
                    next,
                    StockEvent(loc, l.quantity, reason, source, "system"),
                    [OutboxEvent(tenant, tenant + ":" + l.sku, "stock.adjusted",
                                 Adjusted(l.sku, l.warehouse, l.quantity, next.available, reason, source))] + alert,
                    [LevelNow(next, clamped)]);
    }

    method ReserveLine(order: string, tenant: string, l: Line, ghost req: Request) returns (done: LineStatus)
      requires req.kind == Reserve(order) && req.tenant == tenant
      modifies this`levels, this`events, this`outbox
      ensures Wrote(RowStep(checks, req, l, Lookup(old(levels), NOTHING, Loc(tenant, l))), Loc(tenant, l), done,
                    old(Db()))
    {
      var loc := Location(tenant, l.sku, l.warehouse);
      if loc !in levels || levels[loc].locked || levels[loc].available < l.quantity { return Refused; }
      var level := levels[loc];
      done := Write(loc,
                    level.(available := Wrap32(level.available - l.quantity),
                           reserved := Wrap32(level.reserved + l.quantity)),
                    StockEvent(loc, Wrap32(0 - l.quantity), "reserve", "reservation", order),
                    [OutboxEvent(tenant, tenant + ":" + l.sku, "stock.reserved", LineMoved("reserve", order, l))],
                    []);
    }

    method ReleaseLine(order: string, reason: string, tenant: string, l: Line, ghost req: Request)
      returns (done: LineStatus)
      requires req.kind == Release(order, reason) && req.tenant == tenant
      modifies this`levels, this`events, this`outbox
      ensures Wrote(RowStep(checks, req, l, Lookup(old(levels), NOTHING, Loc(tenant, l))), Loc(tenant, l), done,
                    old(Db()))
    {
      var loc := Location(tenant, l.sku, l.warehouse);
      if loc !in levels { return Done([]); }
      var level := levels[loc];
      done := Write(loc,
                    level.(available := Wrap32(level.available + l.quantity),
                           reserved := Wrap32(level.reserved - l.quantity)),
                    StockEvent(loc, l.quantity, reason, "reservation", order),
                    [OutboxEvent(tenant, tenant + ":" + l.sku, "stock.released", LineMoved("release", order, l))],
                    [ReleasedSku(l.sku)]);
    }

    method ConfirmLine(order: string, tenant: string, l: Line, ghost req: Request) returns (done: LineStatus)
      requires req.kind == Confirm(order) && req.tenant == tenant
      modifies this`levels, this`events, this`outbox
      ensures Wrote(RowStep(checks, req, l, Lookup(old(levels), NOTHING, Loc(tenant, l))), Loc(tenant, l), done,
                    old(Db()))
    {
      var loc := Location(tenant, l.sku, l.warehouse);
      if loc !in levels { return Errored; }
      var level := levels[loc];
      done := Write(loc,
                    level.(reserved := Wrap32(level.reserved - l.quantity),
                           alloc := Wrap32(level.alloc + l.quantity)),
                    StockEvent(loc, l.quantity, "allocate", "reservation", "system"),
                    [OutboxEvent(tenant, tenant + ":" + l.sku, "stock.allocated", LineMoved("allocate", order, l))],
                    [AllocatedLine(l.sku, l.warehouse, l.quantity)]);
    }

    method FulfillLine(order: string, tenant: string, l: Line, ghost req: Request) returns (done: LineStatus)
      requires req.kind == Fulfill(order) && req.tenant == tenant
      modifies this`levels, this`events, this`outbox
      ensures Wrote(RowStep(checks, req, l, Lookup(old(levels), NOTHING, Loc(tenant, l))), Loc(tenant, l), done,
                    old(Db()))
    {
      var loc := Location(tenant, l.sku, l.warehouse);
      if loc !in levels { return Errored; }
      var left := Wrap32(levels[loc].alloc - l.quantity);
      done := Write(loc,
                    levels[loc].(alloc := left),
                    StockEvent(loc, l.quantity, "fulfill", "fulfillment", "system"),
                    [OutboxEvent(tenant, tenant + ":" + l.sku, "stock.fulfilled", LineMoved("fulfill", order, l))],
                    [RemainingLine(l.sku, l.warehouse, left)]);
    }

    method UnlockLine(reason: string, actor: string, tenant: string, l: Line, ghost req: Request)
      returns (done: LineStatus)
      requires req.kind == Unlock(reason, actor) && req.tenant == tenant
      modifies this`levels, this`events, this`outbox
      ensures Wrote(RowStep(checks, req, l, Lookup(old(levels), NOTHING, Loc(tenant, l))), Loc(tenant, l), done,
                    old(Db()))
    {
      var loc := Location(tenant, l.sku, l.warehouse);
      if loc !in levels { return Done([]); }
      done := Write(loc,
                    levels[loc].(locked := false),
                    StockEvent(loc, 0, reason, "reconciliation", if actor == "" then "warehouse-manager" else actor),
                    [],
                    [Unlocked]);
    }

    method ApplyLine(req: Request, l: Line) returns (done: LineStatus)
      modifies this`levels, this`events, this`outbox
      ensures Wrote(RowStep(checks, req, l, Lookup(old(levels), NOTHING, Loc(req.tenant, l))), Loc(req.tenant, l),
                    done, old(Db()))
    {
      hide RowStep;
      match req.kind
      case Adjust(reason, source) => done := AdjustLine(reason, source, req.tenant, l, req);
      case Reserve(order) => done := ReserveLine(order, req.tenant, l, req);
      case Release(order, reason) => done := ReleaseLine(order, reason, req.tenant, l, req);
      case Confirm(order) => done := ConfirmLine(order, req.tenant, l, req);
      case Fulfill(order) => done := FulfillLine(order, req.tenant, l, req);
      case Unlock(reason, actor) => done := UnlockLine(reason, actor, req.tenant, l, req);
    }

    /** The loop every RPC runs over its lines, accumulating what failed and what to report. */
    method ProcessLines(req: Request, ghost began: Tables)
      returns (errored: bool, failed: seq<string>, results: seq<LineResult>)
      requires Holds(began, req, NOTHING)
      modifies this`levels, this`events, this`outbox
      ensures
        var d := DeltaAfter(checks, began.levels, req, |req.lines|);
        && errored == d.aborted
        && (!errored ==> Holds(began, req, d) && failed == d.failed && results == d.results)
    {
      hide RowStep;
      hide DeltaAfter;
      hide OutcomeOf;
      hide After;
      hide ReplayOf;
      hide KeysWith;
      hide Lookup;
      failed, results := [], [];
      Outcomes(began, req);
      ghost var d := NOTHING;
      for i := 0 to |req.lines|
        invariant d == DeltaAfter(checks, began.levels, req, i)
        invariant Holds(began, req, d)
        invariant failed == d.failed && results == d.results
      {
        d := NextDelta(checks, began.levels, req, i);
        var done := ApplyLine(req, req.lines[i]);
        match done
        case Refused => failed := failed + [req.lines[i].sku];
        case Errored =>
          AbortSticks(checks, began.levels, req, i + 1, |req.lines|);
          return true, [], [];
        case Done(line) => results := results + line;
      }
      errored := false;
    }

    /** Begin, check the key, process the lines, commit or roll back. */
    method Transact(req: Request) returns (outcome: Outcome)
      modifies this
      ensures Db() == After(old(Db()), req)
      ensures outcome == OutcomeOf(old(Db()), req)
    {
      hide DeltaAfter;
      hide OutcomeOf;
      hide After;
      hide ReplayOf;
      var began := Db();
      Outcomes(began, req);
      if req.kind.Reserve? && |req.lines| == 0 { return Invalid; }
      var dup := TryIdempotency(req.tenant, req.key, req.at);
      if dup { outcome := Replay(req, began); return; }
      var errored, failed, results := ProcessLines(req, began);
      if errored { Rollback(began); return Internal; }
      if |failed| > 0 { Rollback(began); return Insufficient(failed); }
      outcome := Committed(results);
    }

    /** A replayed key reports success; AdjustStock re-reads its row to report it. */
    method Replay(req: Request, ghost began: Tables) returns (outcome: Outcome)
      requires Db() == began
      ensures outcome == ReplayOf(began, req)
    {
      if !req.kind.Adjust? || |req.lines| == 0 { return Duplicate([]); }
      var loc := Location(req.tenant, req.lines[0].sku, req.lines[0].warehouse);
      if loc !in levels { return Internal; }
      outcome := Duplicate([LevelNow(levels[loc], levels[loc].available == 0)]);
    }

    // ----- the RPCs -----

    method AdjustStock(tenant: string, sku: string, warehouse: string, delta: Int32, reason: string, source: string,
                       key: string, at: int)
      returns (outcome: Outcome)
      modifies this
      ensures
        var req := Request(Adjust(reason, source), tenant, key, [Line(sku, warehouse, delta)], at);
        Db() == After(old(Db()), req) && outcome == OutcomeOf(old(Db()), req)
    {
      outcome := Transact(Request(Adjust(reason, source), tenant, key, [Line(sku, warehouse, delta)], at));
    }

    method ReserveStock(tenant: string, order: string, key: string, lines: seq<Line>, at: int)
      returns (outcome: Outcome)
      modifies this
      ensures
        var req := InLockOrder(Request(Reserve(order), tenant, key, lines, at));
        Db() == After(old(Db()), req) && outcome == OutcomeOf(old(Db()), req)
    {
      var sorted := SortedLines(lines);
      outcome := Transact(Request(Reserve(order), tenant, key, sorted, at));
    }

    method ReleaseStock(tenant: string, order: string, reason: string, key: string, lines: seq<Line>, at: int)
      returns (outcome: Outcome)
      modifies this
      ensures
        var req := InLockOrder(Request(Release(order, reason), tenant, key, lines, at));
        Db() == After(old(Db()), req) && outcome == OutcomeOf(old(Db()), req)
    {
      var sorted := SortedLines(lines);
      outcome := Transact(Request(Release(order, reason), tenant, key, sorted, at));
    }

    method ConfirmStockAllocation(tenant: string, order: string, key: string, lines: seq<Line>, at: int)
      returns (outcome: Outcome)
      modifies this
      ensures
        var req := InLockOrder(Request(Confirm(order), tenant, key, lines, at));
        Db() == After(old(Db()), req) && outcome == OutcomeOf(old(Db()), req)
    {
      var sorted := SortedLines(lines);
      outcome := Transact(Request(Confirm(order), tenant, key, sorted, at));
    }

    method FulfillStock(tenant: string, order: string, key: string, lines: seq<Line>, at: int)
      returns (outcome: Outcome)
      modifies this
      ensures
        var req := InLockOrder(Request(Fulfill(order), tenant, key, lines, at));
        Db() == After(old(Db()), req) && outcome == OutcomeOf(old(Db()), req)
    {
      var sorted := SortedLines(lines);
      outcome := Transact(Request(Fulfill(order), tenant, key, sorted, at));
    }

    method UnlockStockForAudit(tenant: string, sku: string, warehouse: string, reason: string, actor: string, at: int)
      returns (outcome: Outcome)
      modifies this
      ensures
        var req := Request(Unlock(reason, actor), tenant, "", [Line(sku, warehouse, 0)], at);
        Db() == After(old(Db()), req) && outcome == OutcomeOf(old(Db()), req)
    {
      outcome := Transact(Request(Unlock(reason, actor), tenant, "", [Line(sku, warehouse, 0)], at));
    }

    // ----- the retention worker -----

    /** One pass; `locked` is whether the advisory lock was free. */
    method PruneBatch(now: int, retention: int, batch: int, locked: bool) returns (deleted: nat)
      modifies this`keys
      ensures !locked ==> keys == old(keys) && deleted == 0
      ensures locked ==>
                PrunedTo(old(keys), keys,
                         now - (if retention <= 0 then DEFAULT_RETENTION else retention),
                         if batch <= 0 then DEFAULT_BATCH else batch)
      ensures deleted == |old(keys).Keys - keys.Keys|
    {
      if !locked {
        assert keys.Keys - keys.Keys == {};
        return 0;
      }
      var cutoff := now - (if retention <= 0 then DEFAULT_RETENTION else retention);
      var kept;
      kept, deleted := DeleteExpired(keys, cutoff, if batch <= 0 then DEFAULT_BATCH else batch);
      keys := kept;
    }

    // ----- the reconciliation worker -----

    /** One pass over the query results: `locs` lists the locations with events, `sums` their deltas by reason. */
    method Reconcile(locs: seq<Location>, sums: map<Location, seq<ReasonSum>>) returns (drifts: seq<DriftRecord>)
      requires forall loc :: loc in locs <==> loc in EventLocations(events)
      requires forall i, j :: 0 <= i < j < |locs| ==> locs[i] != locs[j]
      requires forall loc :: loc in locs ==> loc in sums && IsGrouping(sums[loc], events, loc)
      modifies this`levels
      ensures Db() == Reconciled(old(Db()))
      ensures DriftLocations(drifts) == DriftedAmong(old(Db()), locs)
      ensures forall i :: 0 <= i < |drifts| ==> Reports(drifts[i], old(Db()))
    {
      hide Drifted;
      hide DriftedAmong;
      hide LockedIn;
      hide DriftLocations;
      hide Reports;
      ghost var began := Db();
      drifts := [];
      LockedNowhere(began);
      for k := 0 to |locs|
        invariant levels == LockedIn(began, locs[..k])
        invariant DriftLocations(drifts) == DriftedAmong(began, locs[..k])
        invariant forall i :: 0 <= i < |drifts| ==> Reports(drifts[i], began)
      {
        var loc := locs[k];
        assert locs[..k + 1] == locs[..k] + [loc];
        LockedMore(began, locs[..k], loc);
        if loc !in levels { continue; }
        var level := levels[loc];
        var derived := DeriveBuckets(sums[loc]);
        GroupingDerives(sums[loc], events, loc);
        var expected := Buckets(Wrap32(derived.available), Wrap32(derived.reserved), Wrap32(derived.alloc));
        DriftedMeans(began, loc, expected);
        ReportIs(began, loc, expected);
        if expected != OfLevel(level) {
          levels := levels[loc := level.(locked := true)];
          DriftsGrow(drifts, DriftRecord(loc, expected, OfLevel(level)));
          drifts := drifts + [DriftRecord(loc, expected, OfLevel(level))];
        }
      }
      assert locs[..|locs|] == locs;
      LockedEverywhere(began, locs);
    }
  }

  function DriftLocations(drifts: seq<DriftRecord>): set<Location> {
    set i | 0 <= i < |drifts| :: drifts[i].loc
  }

  /** The record says what the event log derives for the location, truncated, and what its row holds. */
  predicate Reports(d: DriftRecord, db: Tables) {
    && d.loc in db.levels
    && var derived, row := Derived(db.events, d.loc), db.levels[d.loc];
       && d.expected.available == Wrap32(derived.available) && d.actual.available == row.available
       && d.expected.reserved == Wrap32(derived.reserved) && d.actual.reserved == row.reserved
       && d.expected.alloc == Wrap32(derived.alloc) && d.actual.alloc == row.alloc
  }

  lemma ReportIs(db: Tables, loc: Location, expected: Buckets)
    requires loc in db.levels
    requires
      var derived := Derived(db.events, loc);
      expected == Buckets(Wrap32(derived.available), Wrap32(derived.reserved), Wrap32(derived.alloc))
    ensures Reports(DriftRecord(loc, expected, OfLevel(db.levels[loc])), db)
  {
    hide Derived;
    hide Wrap32;
  }

  lemma DriftsGrow(drifts: seq<DriftRecord>, d: DriftRecord)
    ensures DriftLocations(drifts + [d]) == DriftLocations(drifts) + {d.loc}
  {
    var all := drifts + [d];
    assert all[|drifts|] == d;
    assert forall i :: 0 <= i < |drifts| ==> all[i] == drifts[i];
    forall loc | loc in DriftLocations(drifts) + {d.loc} ensures loc in DriftLocations(all) {
      if loc in DriftLocations(drifts) {
        var i :| 0 <= i < |drifts| && drifts[i].loc == loc;
        assert all[i].loc == loc;
      }
    }
  }

  /** The levels once the drifted rows among `locs` are locked. */
  function LockedIn(db: Tables, locs: seq<Location>): map<Location, Level> {
    map loc | loc in db.levels ::
      if loc in locs && Drifted(db, loc) then db.levels[loc].(locked := true) else db.levels[loc]
  }

  /** The drifted rows among `locs`. */
  function DriftedAmong(db: Tables, locs: seq<Location>): set<Location> {
    set loc | loc in locs && loc in db.levels && Drifted(db, loc)
  }

  lemma LockedNowhere(db: Tables)
    ensures LockedIn(db, []) == db.levels
    ensures DriftedAmong(db, []) == {} == DriftLocations([])
  {
    hide Drifted;
  }

  lemma LockedMore(db: Tables, locs: seq<Location>, loc: Location)
    requires loc !in locs
    ensures LockedIn(db, locs).Keys == db.levels.Keys
    ensures loc in db.levels ==> LockedIn(db, locs)[loc] == db.levels[loc]
    ensures DriftedAmong(db, locs + [loc])
         == DriftedAmong(db, locs) + (if loc in db.levels && Drifted(db, loc) then {loc} else {})
    ensures LockedIn(db, locs + [loc])
         == if loc in db.levels && Drifted(db, loc)
            then LockedIn(db, locs)[loc := db.levels[loc].(locked := true)] else LockedIn(db, locs)
  {
    hide Drifted;
  }

  lemma LockedEverywhere(db: Tables, locs: seq<Location>)
    requires forall loc :: loc in locs <==> loc in EventLocations(db.events)
    ensures LockedIn(db, locs) == Reconciled(db).levels
  {
    hide Drifted;
  }

  lemma DriftedMeans(db: Tables, loc: Location, expected: Buckets)
    requires loc in db.levels
    requires
      var derived := Derived(db.events, loc);
      expected == Buckets(Wrap32(derived.available), Wrap32(derived.reserved), Wrap32(derived.alloc))
    ensures Drifted(db, loc) <==> expected != OfLevel(db.levels[loc])
  {
    hide Derived;
    hide Wrap32;
  }

  /** One more line, read through the tables as they are now. */
  lemma NextDelta(checks: bool, levels: map<Location, Level>, req: Request, k: nat) returns (d: Delta)
    requires k < |req.lines|
    requires !DeltaAfter(checks, levels, req, k).aborted
    ensures d == DeltaAfter(checks, levels, req, k + 1)
    ensures
      var before, loc := DeltaAfter(checks, levels, req, k), Loc(req.tenant, req.lines[k]);
      d == Absorb(before, loc, RowStep(checks, req, req.lines[k], Lookup(levels + before.writes, NOTHING, loc)))
  {
    d := DeltaAfter(checks, levels, req, k + 1);
    var before := DeltaAfter(checks, levels, req, k);
    assert Lookup(levels + before.writes, NOTHING, Loc(req.tenant, req.lines[k]))
        == Lookup(levels, before, Loc(req.tenant, req.lines[k]));
  }

  /** How an RPC can end, by the overlay it has built. */
  lemma Outcomes(db: Tables, req: Request)
    ensures DeltaAfter(db.checks, db.levels, req, 0) == NOTHING
    ensures req.kind.Reserve? && req.lines == [] ==> OutcomeOf(db, req) == Invalid && After(db, req) == db
    ensures (req.kind.Reserve? ==> req.lines != []) ==>
              var d := DeltaAfter(db.checks, db.levels, req, |req.lines|);
              if IsDuplicate(db, req) then OutcomeOf(db, req) == ReplayOf(db, req) && After(db, req) == db
              else if d.aborted then OutcomeOf(db, req) == Internal && After(db, req) == db
              else if d.failed != [] then OutcomeOf(db, req) == Insufficient(d.failed) && After(db, req) == db
              else OutcomeOf(db, req) == Committed(d.results) && After(db, req) == Apply(db, req, d)
  {
  }

  // ----- summed deltas derive the same buckets as the events themselves -----

  function Without(events: seq<StockEvent>, loc: Location, reason: string): seq<StockEvent> {
    if events == [] then []
    else
      var e, rest := events[|events| - 1], Without(events[..|events| - 1], loc, reason);
      if e.loc == loc && e.reason == reason then rest else rest + [e]
  }

  lemma DerivedOfAdds(reading: Reading, x: int, y: int)
    ensures DerivedOf(reading, x + y) == DerivedOf(reading, x).Plus(DerivedOf(reading, y))
  {
  }

  /** Taking one reason's events out takes out what their sum derives. */
  lemma {:induction false} TakeReasonOut(events: seq<StockEvent>, loc: Location, reason: string)
    ensures Derived(events, loc)
         == Derived(Without(events, loc, reason), loc).Plus(DerivedOf(Read(reason), SumFor(events, loc, reason)))
  {
    hide Read;
    hide ZERO;
    hide DerivedOf;
    if events == [] {
      DerivesNothing(Read(reason));
    } else {
      var e, before := events[|events| - 1], events[..|events| - 1];
      TakeReasonOut(before, loc, reason);
      var rest := Without(before, loc, reason);
      if e.loc == loc && e.reason == reason {
        DerivedOfAdds(Read(reason), SumFor(before, loc, reason), e.delta);
      } else {
        assert (rest + [e])[..|rest|] == rest;
      }
    }
  }

  lemma DerivesNothing(reading: Reading)
    ensures ZERO == ZERO.Plus(DerivedOf(reading, 0))
  {
  }

  lemma {:induction false} OthersStay(events: seq<StockEvent>, loc: Location, reason: string, other: string)
    requires other != reason
    ensures SumFor(Without(events, loc, reason), loc, other) == SumFor(events, loc, other)
  {
    if events != [] {
      var before := events[..|events| - 1];
      var rest := Without(before, loc, reason);
      OthersStay(before, loc, reason, other);
      assert (rest + [events[|events| - 1]])[..|rest|] == rest;
    }
  }

  lemma {:induction false} WhatStays(events: seq<StockEvent>, loc: Location, reason: string, k: nat)
    requires k < |Without(events, loc, reason)|
    ensures var e := Without(events, loc, reason)[k]; e in events && !(e.loc == loc && e.reason == reason)
  {
    if events != [] {
      var before := events[..|events| - 1];
      if k < |Without(before, loc, reason)| { WhatStays(before, loc, reason, k); }
    }
  }

  lemma {:induction false} NothingHere(events: seq<StockEvent>, loc: Location)
    requires forall k :: 0 <= k < |events| ==> events[k].loc != loc
    ensures Derived(events, loc) == ZERO
  {
    if events != [] { NothingHere(events[..|events| - 1], loc); }
  }

  /** Whatever order the groups come in, deriving from the sums is deriving from the events. */
  lemma {:induction false} GroupingDerives(sums: seq<ReasonSum>, events: seq<StockEvent>, loc: Location)
    requires IsGrouping(sums, events, loc)
    ensures DerivedFromSums(sums) == Derived(events, loc)
    decreases |sums|
  {
    hide Derived;
    hide Read;
    if sums == [] {
      NothingHere(events, loc);
    } else {
      var last, front := sums[|sums| - 1], sums[..|sums| - 1];
      GroupingShrinks(sums, events, loc);
      GroupingDerives(front, Without(events, loc, last.reason), loc);
      TakeReasonOut(events, loc, last.reason);
    }
  }

  lemma GroupingShrinks(sums: seq<ReasonSum>, events: seq<StockEvent>, loc: Location)
    requires sums != [] && IsGrouping(sums, events, loc)
    ensures IsGrouping(sums[..|sums| - 1], Without(events, loc, sums[|sums| - 1].reason), loc)
  {
    var reason, front := sums[|sums| - 1].reason, sums[..|sums| - 1];
    var rest := Without(events, loc, reason);
    forall i | 0 <= i < |front| ensures front[i].total == SumFor(rest, loc, front[i].reason) {
      OthersStay(events, loc, reason, front[i].reason);
    }
    forall k | 0 <= k < |rest| && rest[k].loc == loc ensures HasReason(front, rest[k].reason) {
      WhatStays(events, loc, reason, k);
      assert HasReason(sums, rest[k].reason);
      var i :| 0 <= i < |sums| && sums[i].reason == rest[k].reason;
      assert front[i].reason == rest[k].reason;
    }
  }
}
