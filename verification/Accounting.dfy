/**
 Where every unit is, over whole runs of the stock service.

 Each committed line is entered in an `Account`: the units it moved, by how much the audit event
 written with it misstates that move to the reconciliation worker, and the int32 wrap-around in
 either (always a multiple of 2^32). The stored buckets of a location are `Stored` of its account
 and the buckets derived from the event log are `Derivable` of it, on every run.
 */
module Accounting {
  import opened Base
  import opened StockLedger

  datatype Buckets = Buckets(available: int, reserved: int, alloc: int) {
    function Plus(b: Buckets): Buckets {
      Buckets(available + b.available, reserved + b.reserved, alloc + b.alloc)
    }
    /** Every bucket a multiple of 2^32: what int32 arithmetic cannot see. */
    predicate Whole() {
      available % 0x1_0000_0000 == 0 && reserved % 0x1_0000_0000 == 0 && alloc % 0x1_0000_0000 == 0
    }
    function Total(): int {
      available + reserved + alloc
    }
    predicate Empty() {
      available == 0 && reserved == 0 && alloc == 0
    }
  }

  const ZERO := Buckets(0, 0, 0)

  datatype Account = Account(moved: Buckets, drift: Buckets, spill: Buckets, claimSpill: Buckets) {
    function Plus(a: Account): Account {
      Account(moved.Plus(a.moved), drift.Plus(a.drift), spill.Plus(a.spill), claimSpill.Plus(a.claimSpill))
    }
    /** What the row holds. */
    function Stored(): Buckets {
      moved.Plus(spill)
    }
    /** What the event log adds up to. */
    function Derivable(): Buckets {
      moved.Plus(drift).Plus(claimSpill)
    }
    predicate NoWrap() {
      spill.Empty() && claimSpill.Empty()
    }
  }

  const BLANK := Account(ZERO, ZERO, ZERO, ZERO)

  lemma AccountsAdd(a: Account, b: Account)
    ensures a.Plus(b).Stored() == a.Stored().Plus(b.Stored())
    ensures a.Plus(b).Derivable() == a.Derivable().Plus(b.Derivable())
    ensures a.NoWrap() && b.NoWrap() ==> a.Plus(b).NoWrap()
  {
  }

  lemma BlankIsNothing(b: Buckets)
    ensures b.Plus(BLANK.Stored()) == b
    ensures BLANK.Derivable() == ZERO
  {
  }

  lemma BlankDoesNotWrap()
    ensures BLANK.NoWrap()
  {
  }

  function OfLevel(row: Level): Buckets {
    Buckets(row.available, row.reserved, row.alloc)
  }

  /** A missing row holds nothing. */
  function OfRow(row: Option<Level>): Buckets {
    OfLevel(row.GetOr(FRESH))
  }

  function At(levels: map<Location, Level>, loc: Location): Buckets {
    OfLevel(if loc in levels then levels[loc] else FRESH)
  }

  ghost predicate NoNegatives(levels: map<Location, Level>) {
    forall loc :: loc in levels ==> levels[loc].NonNegative()
  }

  // ----- what a line moves, and what its event claims -----

  /** Units an external adjustment could not take because available would have gone below zero. */
  function Shortfall(kind: Kind, q: int, available: int): int {
    if kind.Adjust? && available + q < 0 then -(available + q) else 0
  }

  function MoveOf(kind: Kind, q: int, available: int): Buckets {
    match kind
    case Adjust(_, _) => Buckets(q + Shortfall(kind, q, available), 0, 0)
    case Reserve(_) => Buckets(-q, q, 0)
    case Release(_, _) => Buckets(q, -q, 0)
    case Confirm(_) => Buckets(0, -q, q)
    case Fulfill(_) => Buckets(0, 0, -q)
    case Unlock(_, _) => ZERO
  }

  /** How the reconciliation worker reads an event's reason. */
  datatype Reading = AsAllocate | AsFulfill | AsHold | AsAvailable

  function Read(reason: string): Reading {
    if reason == "allocate" then AsAllocate
    else if reason == "fulfill" then AsFulfill
    else if reason == "reserve" || reason == "release" then AsHold
    else AsAvailable
  }

  function DerivedOf(reading: Reading, delta: int): Buckets {
    match reading
    case AsAllocate => Buckets(0, -delta, delta)
    case AsFulfill => Buckets(0, 0, -delta)
    case AsHold => Buckets(delta, -delta, 0)
    case AsAvailable => Buckets(delta, 0, 0)
  }

  /** How far the log's account of one line is off. Only a caller-chosen reason or a clamp can put it off:
      a release under a reason other than "reserve" or "release", or an adjustment that borrows a bucket word. */
  function DriftOf(kind: Kind, q: int, shortfall: int): Buckets {
    match kind
    case Adjust(reason, _) =>
      (match Read(reason)
       case AsAllocate => Buckets(-q - shortfall, -q, q)
       case AsFulfill => Buckets(-q - shortfall, 0, -q)
       case AsHold => Buckets(-shortfall, -q, 0)
       case AsAvailable => Buckets(-shortfall, 0, 0))
    case Release(_, reason) =>
      (match Read(reason)
       case AsAllocate => Buckets(-q, 0, q)
       case AsFulfill => Buckets(-q, q, -q)
       case AsHold => ZERO
       case AsAvailable => Buckets(0, q, 0))
    case _ => ZERO
  }

  function SpillOf(kind: Kind, q: int, row: Level): Buckets {
    match kind
    case Adjust(_, _) => ZERO
    case Reserve(_) => Buckets(Spill(row.available - q), Spill(row.reserved + q), 0)
    case Release(_, _) => Buckets(Spill(row.available + q), Spill(row.reserved - q), 0)
    case Confirm(_) => Buckets(0, Spill(row.reserved - q), Spill(row.alloc + q))
    case Fulfill(_) => Buckets(0, 0, Spill(row.alloc - q))
    case Unlock(_, _) => ZERO
  }

  function ClaimSpillOf(kind: Kind, q: int): Buckets {
    if kind.Reserve? then Buckets(Spill(0 - q), -Spill(0 - q), 0) else ZERO
  }

  function LineAccount(kind: Kind, q: Int32, row: Level): Account {
    Account(MoveOf(kind, q, row.available),
            DriftOf(kind, q, Shortfall(kind, q, row.available)),
            SpillOf(kind, q, row),
            ClaimSpillOf(kind, q))
  }

  function Claim(e: StockEvent): Buckets {
    DerivedOf(Read(e.reason), e.delta)
  }

  /** The buckets the event log adds up to at a location. */
  function Derived(events: seq<StockEvent>, loc: Location): Buckets {
    if events == [] then ZERO
    else
      var e, before := events[|events| - 1], Derived(events[..|events| - 1], loc);
      if e.loc == loc then before.Plus(Claim(e)) else before
  }

  lemma {:induction false} DerivedAppends(a: seq<StockEvent>, b: seq<StockEvent>, loc: Location)
    ensures Derived(a + b, loc) == Derived(a, loc).Plus(Derived(b, loc))
  {
    if b == [] {
      assert a + b == a;
    } else {
      assert (a + b)[..|a + b| - 1] == a + b[..|b| - 1];
      DerivedAppends(a, b[..|b| - 1], loc);
    }
  }

  lemma RowStores(kind: Kind, q: Int32, row: Level)
    requires kind.Adjust? ==> InInt32(row.available + q)
    ensures OfLevel(Moved(kind, q, row)) == OfLevel(row).Plus(LineAccount(kind, q, row).Stored())
  {
    hide Wrap32;
    hide Read;
  }

  lemma Readings()
    ensures Read("reserve") == AsHold
    ensures Read("allocate") == AsAllocate
    ensures Read("fulfill") == AsFulfill
  {
    assert "reserve"[0] != "allocate"[0] && "reserve"[0] != "fulfill"[0] && "fulfill"[0] != "allocate"[0];
  }

  /** The reading and size of the event a line writes. */
  function ReadingOf(kind: Kind): Reading {
    match kind
    case Adjust(reason, _) => Read(reason)
    case Reserve(_) => AsHold
    case Release(_, reason) => Read(reason)
    case Confirm(_) => AsAllocate
    case Fulfill(_) => AsFulfill
    case Unlock(reason, _) => Read(reason)
  }

  lemma EventReads(req: Request, l: Line)
    ensures EventFor(req, l).loc == Loc(req.tenant, l)
    ensures Read(EventFor(req, l).reason) == ReadingOf(req.kind)
    ensures EventFor(req, l).delta
         == if req.kind.Reserve? then Wrap32(0 - l.quantity) else if req.kind.Unlock? then 0 else l.quantity
  {
    hide Read;
    Readings();
  }

  /** An event's claim is what the line moved, plus its drift, plus what wrapping its delta adds. */
  lemma KindClaims(kind: Kind, q: int, available: int, wrap: int)
    ensures
      var delta := if kind.Reserve? then 0 - q + wrap else if kind.Unlock? then 0 else q;
      var claim, move := DerivedOf(ReadingOf(kind), delta), MoveOf(kind, q, available);
      var drift, extra := DriftOf(kind, q, Shortfall(kind, q, available)), if kind.Reserve? then wrap else 0;
      && claim.available == move.available + drift.available + extra
      && claim.reserved == move.reserved + drift.reserved - extra
      && claim.alloc == move.alloc + drift.alloc
  {
    hide Read;
  }

  lemma ClaimSpills(kind: Kind, q: int)
    ensures
      var spill, wrap := ClaimSpillOf(kind, q), if kind.Reserve? then Spill(0 - q) else 0;
      spill.available == wrap && spill.reserved == -wrap && spill.alloc == 0
  {
    hide Wrap32;
  }

  lemma RowClaims(req: Request, l: Line, row: Level)
    ensures Claim(EventFor(req, l)) == LineAccount(req.kind, l.quantity, row).Derivable()
  {
    hide EventFor;
    hide Read;
    hide DerivedOf;
    hide MoveOf;
    hide DriftOf;
    hide SpillOf;
    hide ClaimSpillOf;
    hide Shortfall;
    EventReads(req, l);
    assert Wrap32(0 - l.quantity) == 0 - l.quantity + Spill(0 - l.quantity);
    KindClaims(req.kind, l.quantity, row.available, Spill(0 - l.quantity));
    ClaimSpills(req.kind, l.quantity);
  }

  /** Where no bucket is negative before or after a move, nothing wrapped. */
  lemma MoveSpillsNothing(kind: Kind, q: Int32, cur: Level)
    requires cur.NonNegative() && Moved(kind, q, cur).NonNegative()
    requires kind.Adjust? ==> InInt32(cur.available + q)
    requires kind.Reserve? ==> cur.available >= q
    ensures SpillOf(kind, q, cur).Empty() && ClaimSpillOf(kind, q).Empty()
  {
    hide Wrap32;
    match kind
    case Adjust(_, _) =>
    case Reserve(_) => NoSpill(cur.available, 0 - q); NoSpill(cur.reserved, q);
    case Release(_, _) => NoSpill(cur.available, q); NoSpill(cur.reserved, 0 - q);
    case Confirm(_) => NoSpill(cur.reserved, 0 - q); NoSpill(cur.alloc, q);
    case Fulfill(_) => NoSpill(cur.alloc, 0 - q);
    case Unlock(_, _) =>
  }

  lemma RowSpillsNothing(checks: bool, req: Request, l: Line, row: Option<Level>)
    requires checks && (row.Some? ==> row.value.NonNegative())
    requires RowStep(checks, req, l, row).Put?
    ensures RowStep(checks, req, l, row).level.NonNegative()
    ensures LineAccount(req.kind, l.quantity, row.GetOr(FRESH)).NoWrap()
  {
    hide MoveOf;
    hide DriftOf;
    hide Shortfall;
    hide SpillOf;
    hide ClaimSpillOf;
    hide EventFor;
    hide OutboxFor;
    hide ResultFor;
    hide Moved;
    hide Wrap32;
    MoveSpillsNothing(req.kind, l.quantity, row.GetOr(FRESH));
  }

  // ----- one transaction -----

  /** The row line k finds, through the transaction's own earlier writes. */
  function RowAt(checks: bool, levels: map<Location, Level>, req: Request, k: nat): Option<Level>
    requires k < |req.lines|
  {
    Lookup(levels, DeltaAfter(checks, levels, req, k), Loc(req.tenant, req.lines[k]))
  }

  /** Whether line k is entered in a location's account, and what is. */
  predicate Counts(checks: bool, levels: map<Location, Level>, req: Request, k: nat, loc: Location)
    requires k < |req.lines|
  {
    Loc(req.tenant, req.lines[k]) == loc && EffectAt(checks, levels, req, k).Put?
  }

  function EntryAt(checks: bool, levels: map<Location, Level>, req: Request, k: nat): Account
    requires k < |req.lines|
  {
    LineAccount(req.kind, req.lines[k].quantity, RowAt(checks, levels, req, k).GetOr(FRESH))
  }

  function AccountTo(checks: bool, levels: map<Location, Level>, req: Request, k: nat, loc: Location): Account
    requires k <= |req.lines|
  {
    if k == 0 then BLANK
    else if Counts(checks, levels, req, k - 1, loc)
    then AccountTo(checks, levels, req, k - 1, loc).Plus(EntryAt(checks, levels, req, k - 1))
    else AccountTo(checks, levels, req, k - 1, loc)
  }

  lemma AccountGrows(checks: bool, levels: map<Location, Level>, req: Request, k: nat, loc: Location)
    requires k < |req.lines|
    ensures AccountTo(checks, levels, req, k + 1, loc)
         == if Counts(checks, levels, req, k, loc)
            then AccountTo(checks, levels, req, k, loc).Plus(EntryAt(checks, levels, req, k))
            else AccountTo(checks, levels, req, k, loc)
  {
    hide EntryAt;
    hide Counts;
    hide Account.Plus;
  }

  lemma {:induction false} NeverNegative(levels: map<Location, Level>, req: Request, k: nat)
    requires k <= |req.lines|
    requires NoNegatives(levels)
    requires !DeltaAfter(true, levels, req, k).aborted
    ensures NoNegatives(DeltaAfter(true, levels, req, k).writes)
    decreases k
  {
    hide RowStep;
    if k > 0 {
      NeverNegative(levels, req, k - 1);
      if EffectAt(true, levels, req, k - 1).Put? {
        RowSpillsNothing(true, req, req.lines[k - 1], RowAt(true, levels, req, k - 1));
      }
    }
  }

  lemma {:induction false} NeverWraps(levels: map<Location, Level>, req: Request, k: nat, loc: Location)
    requires k <= |req.lines|
    requires NoNegatives(levels)
    requires !DeltaAfter(true, levels, req, k).aborted
    ensures AccountTo(true, levels, req, k, loc).NoWrap()
    decreases k
  {
    hide RowStep;
    hide LineAccount;
    hide BLANK;
    hide FRESH;
    hide Account.NoWrap;
    hide ZERO;
    BlankDoesNotWrap();
    if k > 0 {
      NeverNegative(levels, req, k - 1);
      NeverWraps(levels, req, k - 1, loc);
      if Counts(true, levels, req, k - 1, loc) {
        var row := RowAt(true, levels, req, k - 1);
        RowSpillsNothing(true, req, req.lines[k - 1], row);
        AccountsAdd(AccountTo(true, levels, req, k - 1, loc),
                    LineAccount(req.kind, req.lines[k - 1].quantity, row.GetOr(FRESH)));
      }
    }
  }

  lemma EffectIsAccounted(checks: bool, req: Request, l: Line, row: Option<Level>)
    requires RowStep(checks, req, l, row).Put?
    ensures
      var e := RowStep(checks, req, l, row);
      var entry := LineAccount(req.kind, l.quantity, row.GetOr(FRESH));
      && OfLevel(e.level) == OfRow(row).Plus(entry.Stored())
      && e.event == EventFor(req, l)
      && e.event.loc == Loc(req.tenant, l)
      && Claim(e.event) == entry.Derivable()
  {
    hide LineAccount;
    hide Moved;
    hide EventFor;
    RowStores(req.kind, l.quantity, row.GetOr(FRESH));
    RowClaims(req, l, row.GetOr(FRESH));
    EventReads(req, l);
  }

  /** The rows a transaction would write back are its starting rows plus its account, and the events it would
      append claim exactly what the account says they do. */
  lemma {:induction false} TransactionAccounts(checks: bool, levels: map<Location, Level>, req: Request, k: nat,
                                               loc: Location)
    requires k <= |req.lines|
    requires !DeltaAfter(checks, levels, req, k).aborted
    ensures
      var d := DeltaAfter(checks, levels, req, k);
      var account := AccountTo(checks, levels, req, k, loc);
      && OfRow(Lookup(levels, d, loc)) == At(levels, loc).Plus(account.Stored())
      && Derived(d.events, loc) == account.Derivable()
    decreases k
  {
    hide RowStep;
    hide LineAccount;
    hide EventFor;
    hide Claim;
    hide FRESH;
    hide BLANK;
    hide ZERO;
    hide Account.NoWrap;
    BlankIsNothing(At(levels, loc));
    if k > 0 {
      var e := EffectAt(checks, levels, req, k - 1);
      var d := DeltaAfter(checks, levels, req, k - 1);
      TransactionAccounts(checks, levels, req, k - 1, loc);
      if e.Put? {
        EffectIsAccounted(checks, req, req.lines[k - 1], RowAt(checks, levels, req, k - 1));
        assert (d.events + [e.event])[..|d.events|] == d.events;
        AccountsAdd(AccountTo(checks, levels, req, k - 1, loc), EntryAt(checks, levels, req, k - 1));
      }
    }
  }

  // ----- runs -----

  /** A location whose truncated derived buckets disagree with the stored ones. */
  predicate Drifted(db: Tables, loc: Location)
    requires loc in db.levels
  {
    var b := Derived(db.events, loc);
    || Wrap32(b.available) != db.levels[loc].available
    || Wrap32(b.reserved) != db.levels[loc].reserved
    || Wrap32(b.alloc) != db.levels[loc].alloc
  }

  function EventLocations(events: seq<StockEvent>): set<Location> {
    set i | 0 <= i < |events| :: events[i].loc
  }

  /** The database after one reconciliation pass: drifted rows with events are locked for audit. */
  function Reconciled(db: Tables): Tables {
    db.(levels := map loc | loc in db.levels ::
          if loc in EventLocations(db.events) && Drifted(db, loc)
          then db.levels[loc].(locked := true) else db.levels[loc])
  }

  /** Anything that happens to the stock database: an RPC, a reconciliation pass, the pruning of some keys. */
  datatype Op = Call(req: Request) | ReconcilePass | PrunePass(removed: set<Key>)

  function Do(db: Tables, op: Op): Tables {
    match op
    case Call(req) => After(db, req)
    case ReconcilePass => Reconciled(db)
    case PrunePass(removed) => db.(keys := db.keys - removed)
  }

  function Run(db: Tables, ops: seq<Op>): Tables {
    if ops == [] then db else Do(Run(db, ops[..|ops| - 1]), ops[|ops| - 1])
  }

  predicate Commits(db: Tables, op: Op) {
    op.Call? && OutcomeOf(db, op.req).Committed?
  }

  /** The account of a location over a run. */
  function AccountRun(db: Tables, ops: seq<Op>, loc: Location): Account {
    if ops == [] then BLANK
    else
      var before, op := ops[..|ops| - 1], ops[|ops| - 1];
      var now := Run(db, before);
      if Commits(now, op)
      then AccountRun(db, before, loc).Plus(AccountTo(now.checks, now.levels, op.req, |op.req.lines|, loc))
      else AccountRun(db, before, loc)
  }

  function EmptyTables(checks: bool): Tables {
    Tables(checks, map[], [], [], map[])
  }

  lemma CallAccounts(db: Tables, req: Request, loc: Location)
    requires OutcomeOf(db, req).Committed?
    ensures
      var account := AccountTo(db.checks, db.levels, req, |req.lines|, loc);
      && After(db, req).checks == db.checks
      && At(After(db, req).levels, loc) == At(db.levels, loc).Plus(account.Stored())
      && Derived(After(db, req).events, loc) == Derived(db.events, loc).Plus(account.Derivable())
      && (db.checks && NoNegatives(db.levels) ==> NoNegatives(After(db, req).levels) && account.NoWrap())
  {
    hide DeltaAfter;
    hide AccountTo;
    hide Derived;
    hide FRESH;
    var d := DeltaOf(db, req);
    TransactionAccounts(db.checks, db.levels, req, |req.lines|, loc);
    DerivedAppends(db.events, d.events, loc);
    if db.checks && NoNegatives(db.levels) {
      NeverNegative(db.levels, req, |req.lines|);
      NeverWraps(db.levels, req, |req.lines|, loc);
    }
  }

  /** Anything else keeps every bucket and every event. */
  lemma OtherOpsKeepBuckets(db: Tables, op: Op, loc: Location)
    requires !Commits(db, op)
    ensures Do(db, op).checks == db.checks && Do(db, op).events == db.events
    ensures At(Do(db, op).levels, loc) == At(db.levels, loc)
    ensures NoNegatives(db.levels) ==> NoNegatives(Do(db, op).levels)
  {
    hide Drifted;
    hide FRESH;
    hide OutcomeOf;
  }

  /** Over every run from an empty database, stored buckets and the buckets derived from the event log are what
      the account says; with the constraints on nothing is ever negative and nothing ever wraps. */
  lemma {:induction false} RunAccounts(checks: bool, ops: seq<Op>, loc: Location)
    ensures
      var db := Run(EmptyTables(checks), ops);
      var account := AccountRun(EmptyTables(checks), ops, loc);
      && db.checks == checks
      && At(db.levels, loc) == account.Stored()
      && Derived(db.events, loc) == account.Derivable()
      && (checks ==> NoNegatives(db.levels) && account.NoWrap())
  {
    hide Do;
    hide Derived;
    hide AccountTo;
    hide At;
    hide NoNegatives;
    hide After;
    hide OutcomeOf;
    hide BLANK;
    hide Account.NoWrap;
    hide ZERO;
    if ops == [] {
      StartsBlank(checks, loc);
    } else {
      var before, op := ops[..|ops| - 1], ops[|ops| - 1];
      var db := Run(EmptyTables(checks), before);
      RunAccounts(checks, before, loc);
      if Commits(db, op) {
        DoCalls(db, op);
        CallAccounts(db, op.req, loc);
        AccountsAdd(AccountRun(EmptyTables(checks), before, loc),
                    AccountTo(db.checks, db.levels, op.req, |op.req.lines|, loc));
      } else {
        OtherOpsKeepBuckets(db, op, loc);
      }
    }
  }

  lemma DoCalls(db: Tables, op: Op)
    requires op.Call?
    ensures Do(db, op) == After(db, op.req)
  {
  }

  lemma StartsBlank(checks: bool, loc: Location)
    ensures At(EmptyTables(checks).levels, loc) == BLANK.Stored()
    ensures Derived([], loc) == BLANK.Derivable()
    ensures NoNegatives(EmptyTables(checks).levels) && BLANK.NoWrap()
  {
  }
}
