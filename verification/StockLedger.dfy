/**
 The stock database and the meaning of one stock RPC.

 A transaction reads rows, overlays its own writes and appends to the two logs; nothing is
 visible until it commits. `DeltaAfter` is that overlay after k of the request's lines, so the
 same definition serves the sequential semantics (`After`) and the interleaved one.
 */
module StockLedger {
  import opened Base

  datatype Location = Location(tenant: string, sku: string, warehouse: string)

  datatype Line = Line(sku: string, warehouse: string, quantity: Int32)

  datatype Level = Level(available: Int32, reserved: Int32, alloc: Int32, locked: bool) {
    predicate NonNegative() {
      available >= 0 && reserved >= 0 && alloc >= 0
    }
  }

  datatype StockEvent =
    StockEvent(loc: Location, delta: Int32, reason: string, source: string, actor: string)

  datatype Payload =
    | LineMoved(action: string, order: string, line: Line)
    | Adjusted(sku: string, warehouse: string, delta: Int32, available: Int32, reason: string, source: string)
    | Deficit(sku: string, warehouse: string, delta: Int32, reason: string, source: string)

  datatype OutboxEvent =
    OutboxEvent(tenant: string, aggregateId: string, eventType: string, payload: Payload)

  datatype Key = Key(tenant: string, name: string)

  /** `checks` says whether the non-negativity constraints of the fourth stock migration are installed;
      `keys` maps each recorded idempotency key to its created_at. */
  datatype Tables = Tables(
    checks: bool,
    levels: map<Location, Level>,
    events: seq<StockEvent>,
    outbox: seq<OutboxEvent>,
    keys: map<Key, int>)

  datatype Kind =
    | Adjust(reason: string, source: string)
    | Reserve(order: string)
    | Release(order: string, reason: string)
    | Confirm(order: string)
    | Fulfill(order: string)
    | Unlock(reason: string, actor: string)

  /** `at` is the transaction's start time, recorded with its idempotency key. */
  datatype Request = Request(kind: Kind, tenant: string, key: string, lines: seq<Line>, at: int)

  datatype LineResult =
    | LevelNow(level: Level, clamped: bool)
    | ReleasedSku(sku: string)
    | AllocatedLine(sku: string, warehouse: string, quantity: Int32)
    | RemainingLine(sku: string, warehouse: string, quantity: Int32)
    | Unlocked

  datatype Outcome =
    | Committed(results: seq<LineResult>)
    | Duplicate(results: seq<LineResult>)
    | Insufficient(skus: seq<string>)
    | Invalid
    | Internal

  datatype RowEffect =
    | Abort
    | Short
    | Skip
    | Put(level: Level, event: StockEvent, outbox: seq<OutboxEvent>, results: seq<LineResult>)

  datatype Delta = Delta(
    writes: map<Location, Level>,
    events: seq<StockEvent>,
    outbox: seq<OutboxEvent>,
    results: seq<LineResult>,
    failed: seq<string>,
    aborted: bool)

  function Loc(tenant: string, l: Line): Location {
    Location(tenant, l.sku, l.warehouse)
  }

  function Published(tenant: string, l: Line, eventType: string, payload: Payload): OutboxEvent {
    OutboxEvent(tenant, tenant + ":" + l.sku, eventType, payload)
  }

  const FRESH := Level(0, 0, 0, false)

  /** The row the RPC writes back, in Go's wrapping int32. An adjustment clamps available at zero. */
  function Moved(kind: Kind, q: Int32, row: Level): Level {
    match kind
    case Adjust(_, _) =>
      row.(available := if row.available + q < 0 then 0 else Wrap32(row.available + q))
    case Reserve(_) =>
      row.(available := Wrap32(row.available - q), reserved := Wrap32(row.reserved + q))
    case Release(_, _) =>
      row.(available := Wrap32(row.available + q), reserved := Wrap32(row.reserved - q))
    case Confirm(_) =>
      row.(reserved := Wrap32(row.reserved - q), alloc := Wrap32(row.alloc + q))
    case Fulfill(_) =>
      row.(alloc := Wrap32(row.alloc - q))
    case Unlock(_, _) =>
      row.(locked := false)
  }

  /** The audit record written with it. */
  function EventFor(req: Request, l: Line): StockEvent {
    var loc := Loc(req.tenant, l);
    match req.kind
    case Adjust(reason, source) => StockEvent(loc, l.quantity, reason, source, "system")
    case Reserve(order) => StockEvent(loc, Wrap32(0 - l.quantity), "reserve", "reservation", order)
    case Release(order, reason) => StockEvent(loc, l.quantity, reason, "reservation", order)
    case Confirm(_) => StockEvent(loc, l.quantity, "allocate", "reservation", "system")
    case Fulfill(_) => StockEvent(loc, l.quantity, "fulfill", "fulfillment", "system")
    case Unlock(reason, actor) =>
      StockEvent(loc, 0, reason, "reconciliation", if actor == "" then "warehouse-manager" else actor)
  }

  /** The row an adjustment would insert is checked before the upsert finds the row that is there. */
  predicate ProposesNegative(kind: Kind, q: Int32) {
    kind.Adjust? && q < 0
  }

  function Clamps(kind: Kind, q: Int32, row: Level): bool {
    kind.Adjust? && row.available + q < 0
  }

  function OutboxFor(req: Request, l: Line, row: Level): seq<OutboxEvent> {
    match req.kind
    case Adjust(reason, source) =>
      [Published(req.tenant, l, "stock.adjusted",
                 Adjusted(l.sku, l.warehouse, l.quantity, Moved(req.kind, l.quantity, row).available, reason, source))]
      + (if Clamps(req.kind, l.quantity, row)
         then [Published(req.tenant, l, "stock.deficit_alert",
                         Deficit(l.sku, l.warehouse, l.quantity, reason, source))]
         else [])
    case Reserve(order) => [Published(req.tenant, l, "stock.reserved", LineMoved("reserve", order, l))]
    case Release(order, _) => [Published(req.tenant, l, "stock.released", LineMoved("release", order, l))]
    case Confirm(order) => [Published(req.tenant, l, "stock.allocated", LineMoved("allocate", order, l))]
    case Fulfill(order) => [Published(req.tenant, l, "stock.fulfilled", LineMoved("fulfill", order, l))]
    case Unlock(_, _) => []
  }

  function ResultFor(kind: Kind, l: Line, row: Level): seq<LineResult> {
    match kind
    case Adjust(_, _) => [LevelNow(Moved(kind, l.quantity, row), Clamps(kind, l.quantity, row))]
    case Reserve(_) => []
    case Release(_, _) => [ReleasedSku(l.sku)]
    case Confirm(_) => [AllocatedLine(l.sku, l.warehouse, l.quantity)]
    case Fulfill(_) => [RemainingLine(l.sku, l.warehouse, Moved(kind, l.quantity, row).alloc)]
    case Unlock(_, _) => [Unlocked]
  }

  /** What one line does to the row it names. A missing row fails a reservation line, is skipped by a release
      or an unlock, is created by an adjustment and is an error otherwise. PostgreSQL refuses an upsert out of
      the INT range, and with the CHECKs installed refuses any negative quantity, the one an upsert proposes and
      the one it results in included. */
  function RowStep(checks: bool, req: Request, l: Line, row: Option<Level>): RowEffect {
    var cur := row.GetOr(FRESH);
    if row.None? && (req.kind.Release? || req.kind.Unlock?) then Skip
    else if row.None? && (req.kind.Confirm? || req.kind.Fulfill?) then Abort
    else if req.kind.Reserve? && (row.None? || cur.locked || cur.available < l.quantity) then Short
    else if req.kind.Adjust? && !InInt32(cur.available + l.quantity) then Abort
    else
      var next := Moved(req.kind, l.quantity, cur);
      if checks && (ProposesNegative(req.kind, l.quantity) || Clamps(req.kind, l.quantity, cur) || !next.NonNegative())
      then Abort
      else Put(next, EventFor(req, l), OutboxFor(req, l, cur), ResultFor(req.kind, l, cur))
  }

  const NOTHING := Delta(map[], [], [], [], [], false)

  function Lookup(levels: map<Location, Level>, d: Delta, loc: Location): Option<Level> {
    if loc in d.writes then Some(d.writes[loc])
    else if loc in levels then Some(levels[loc])
    else None
  }

  function Absorb(d: Delta, loc: Location, e: RowEffect): Delta {
    match e
    case Abort => d.(aborted := true)
    case Short => d.(failed := d.failed + [loc.sku])
    case Skip => d
    case Put(level, event, outbox, results) =>
      d.(writes := d.writes[loc := level],
         events := d.events + [event],
         outbox := d.outbox + outbox,
         results := d.results + results)
  }

  /** The effect line k has on the transaction that has processed the k lines before it. */
  function EffectAt(checks: bool, levels: map<Location, Level>, req: Request, k: nat): RowEffect
    requires k < |req.lines|
    decreases k, 1
  {
    RowStep(checks, req, req.lines[k],
            Lookup(levels, DeltaAfter(checks, levels, req, k), Loc(req.tenant, req.lines[k])))
  }

  /** The transaction's overlay after its first k lines; an error stops it for good. */
  function DeltaAfter(checks: bool, levels: map<Location, Level>, req: Request, k: nat): Delta
    requires k <= |req.lines|
    decreases k, 0
  {
    if k == 0 then NOTHING
    else
      var d := DeltaAfter(checks, levels, req, k - 1);
      if d.aborted then d
      else Absorb(d, Loc(req.tenant, req.lines[k - 1]), EffectAt(checks, levels, req, k - 1))
  }

  function DeltaOf(db: Tables, req: Request): Delta {
    DeltaAfter(db.checks, db.levels, req, |req.lines|)
  }

  /** An errored transaction stays errored whatever its remaining lines would do. */
  lemma {:induction false} AbortSticks(checks: bool, levels: map<Location, Level>, req: Request, j: nat, k: nat)
    requires j <= k <= |req.lines|
    requires DeltaAfter(checks, levels, req, j).aborted
    ensures DeltaAfter(checks, levels, req, k).aborted
    decreases k
  {
    hide RowStep;
    if j < k { AbortSticks(checks, levels, req, j, k - 1); }
  }

  predicate IsDuplicate(db: Tables, req: Request) {
    req.key != "" && Key(req.tenant, req.key) in db.keys
  }

  /** What a replayed call is told: success, except that AdjustStock re-reads its row and fails without one. */
  function ReplayOf(db: Tables, req: Request): (r: Outcome)
    ensures !r.Committed?
  {
    if !req.kind.Adjust? || req.lines == [] then Duplicate([])
    else
      var loc := Loc(req.tenant, req.lines[0]);
      if loc in db.levels then Duplicate([LevelNow(db.levels[loc], db.levels[loc].available == 0)]) else Internal
  }

  /** What the caller is told. */
  function OutcomeOf(db: Tables, req: Request): Outcome {
    if req.kind.Reserve? && req.lines == [] then Invalid
    else if IsDuplicate(db, req) then ReplayOf(db, req)
    else
      var d := DeltaOf(db, req);
      if d.aborted then Internal
      else if d.failed != [] then Insufficient(d.failed)
      else Committed(d.results)
  }

  function KeysWith(keys: map<Key, int>, req: Request): map<Key, int> {
    if req.key == "" then keys else keys[Key(req.tenant, req.key) := req.at]
  }

  function Apply(db: Tables, req: Request, d: Delta): Tables {
    Tables(db.checks, db.levels + d.writes, db.events + d.events, db.outbox + d.outbox, KeysWith(db.keys, req))
  }

  /** The database after the RPC: everything or nothing. */
  function After(db: Tables, req: Request): Tables {
    if OutcomeOf(db, req).Committed? then Apply(db, req, DeltaOf(db, req)) else db
  }

  /** A call with one line does what that line does. */
  lemma OneLineCall(db: Tables, req: Request, l: Line)
    requires req.lines == [l] && !IsDuplicate(db, req)
    ensures
      var loc := Loc(req.tenant, l);
      var e := RowStep(db.checks, req, l, if loc in db.levels then Some(db.levels[loc]) else None);
      && (e.Abort? ==> OutcomeOf(db, req) == Internal)
      && (e.Short? ==> OutcomeOf(db, req) == Insufficient([l.sku]))
      && (e.Skip? ==> OutcomeOf(db, req) == Committed([]) && After(db, req) == db.(keys := KeysWith(db.keys, req)))
      && (e.Put? ==>
            && OutcomeOf(db, req) == Committed(e.results)
            && After(db, req) == Tables(db.checks, db.levels[loc := e.level], db.events + [e.event],
                                        db.outbox + e.outbox, KeysWith(db.keys, req)))
      && (!OutcomeOf(db, req).Committed? ==> After(db, req) == db)
  {
    hide RowStep;
    var e := EffectAt(db.checks, db.levels, req, 0);
    assert DeltaAfter(db.checks, db.levels, req, 0) == NOTHING;
    assert DeltaAfter(db.checks, db.levels, req, 1) == Absorb(NOTHING, Loc(req.tenant, l), e);
  }

  // ----- line order -----

  predicate Precedes(a: Line, b: Line) {
    Less(a.sku, b.sku) || (a.sku == b.sku && Less(a.warehouse, b.warehouse))
  }

  function Insert(l: Line, sorted: seq<Line>): seq<Line> {
    if sorted == [] then [l]
    else if Precedes(l, sorted[|sorted| - 1]) then Insert(l, sorted[..|sorted| - 1]) + [sorted[|sorted| - 1]]
    else sorted + [l]
  }

  /** The order rows are locked in: ascending (sku, warehouse), ties kept in request order. */
  function SortLines(lines: seq<Line>): seq<Line> {
    if lines == [] then [] else Insert(lines[|lines| - 1], SortLines(lines[..|lines| - 1]))
  }

  predicate Ascending(lines: seq<Line>) {
    forall i, j :: 0 <= i < j < |lines| ==> !Precedes(lines[j], lines[i])
  }

  function InLockOrder(req: Request): Request {
    req.(lines := SortLines(req.lines))
  }

  /** Quantity the first k lines ask for at a location. */
  function SumTo(tenant: string, lines: seq<Line>, k: nat, loc: Location): int
    requires k <= |lines|
  {
    if k == 0 then 0
    else SumTo(tenant, lines, k - 1, loc) + (if Loc(tenant, lines[k - 1]) == loc then lines[k - 1].quantity else 0)
  }

  function SumAt(tenant: string, lines: seq<Line>, loc: Location): int {
    SumTo(tenant, lines, |lines|, loc)
  }
}
