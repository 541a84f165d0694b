/**
 From the stock service to the sales channel: the outbox as the channel consumer reads it, and what the channel then
 shows of the stock.
 */
module Feed {
  import opened Base
  import opened StockLedger
  import opened Accounting
  import opened Conservation
  import opened Effects
  import opened CompositeKeys
  import opened ChannelSync
  import Trail

  /** An outbox row as a message; ids are the outbox row ids. */
  function MessageOf(e: OutboxEvent, id: string): Message {
    match e.payload
    case Adjusted(_, warehouse, delta, available, reason, source) =>
      Message(id, e.aggregateId, e.eventType, true, warehouse, available, delta, reason, source)
    case Deficit(_, warehouse, delta, reason, source) =>
      Message(id, e.aggregateId, e.eventType, true, warehouse, 0, delta, reason, source)
    case LineMoved(_, _, line) =>
      Message(id, e.aggregateId, e.eventType, true, line.warehouse, 0, line.quantity, "", "")
  }

  function Messages(outbox: seq<OutboxEvent>, ids: seq<string>): (m: seq<Message>)
    requires |outbox| == |ids|
    ensures |m| == |outbox| && forall i :: 0 <= i < |m| ==> m[i] == MessageOf(outbox[i], ids[i])
  {
    seq(|outbox|, i requires 0 <= i < |outbox| => MessageOf(outbox[i], ids[i]))
  }

  /** Tenants are identifiers without colons. */
  predicate PlainTenants(ops: seq<Op>) {
    forall i :: 0 <= i < |ops| && ops[i].Call? ==> ':' !in ops[i].req.tenant
  }

  /** A location the channel can show. */
  predicate Listable(failing: set<string>, loc: Location) {
    && loc.tenant != "" && loc.sku != "" && loc.warehouse != "" && Plain(loc) && loc.sku !in failing
  }

  /** The operation is a committed adjustment of the location. */
  predicate Adjusts(db: Tables, op: Op, loc: Location) {
    Commits(db, op) && op.req.kind.Adjust? && |op.req.lines| == 1 && Loc(op.req.tenant, op.req.lines[0]) == loc
  }

  /** What the location had available right after it was last adjusted. */
  function LastAdjusted(db: Tables, ops: seq<Op>, loc: Location): Option<int> {
    if ops == [] then None
    else
      var before, op := ops[..|ops| - 1], ops[|ops| - 1];
      if Adjusts(Run(db, before), op, loc) then Some(At(Run(db, ops).levels, loc).available)
      else LastAdjusted(db, before, loc)
  }

  /** What reservations have taken from it and releases have given back since. */
  function MovedSince(db: Tables, ops: seq<Op>, loc: Location): int {
    if ops == [] then 0
    else
      var before, op := ops[..|ops| - 1], ops[|ops| - 1];
      var now := Run(db, before);
      if Adjusts(now, op, loc) then 0
      else
        MovedSince(db, before, loc)
        + (if !Commits(now, op) then 0
           else if op.req.kind.Reserve? then -SumAt(op.req.tenant, op.req.lines, loc)
           else if op.req.kind.Release? && loc in now.levels then SumAt(op.req.tenant, op.req.lines, loc)
           else 0)
  }

  // ----- what the last message says -----

  lemma {:induction false} SameTouch(failing: set<string>, a: seq<Message>, b: seq<Message>, n: nat, loc: Location)
    requires n <= |a| && n <= |b| && a[..n] == b[..n]
    ensures LastTouch(failing, a, n, loc) == LastTouch(failing, b, n, loc)
  {
    hide Touches;
    if n > 0 {
      assert a[..n][..n - 1] == a[..n - 1] && b[..n][..n - 1] == b[..n - 1];
      assert a[n - 1] == a[..n][n - 1] == b[n - 1];
      SameTouch(failing, a, b, n - 1, loc);
    }
  }

  /** Messages that do not touch the location leave its last word as it was. */
  lemma NothingNew(failing: set<string>, was: seq<OutboxEvent>, now: seq<OutboxEvent>, ids: seq<string>, loc: Location)
    requires was <= now && |ids| == |now|
    requires forall i :: |was| <= i < |now| ==> !Touches(failing, MessageOf(now[i], ids[i]), loc)
    ensures Latest(failing, Messages(now, ids), |now|, loc)
         == Latest(failing, Messages(was, ids[..|was|]), |was|, loc)
  {
    hide Touches;
    hide MessageOf;
    var a, b := Messages(was, ids[..|was|]), Messages(now, ids);
    LatestSkips(failing, b, |was|, |now|, loc);
    assert forall i :: 0 <= i < |was| ==> a[i] == b[i];
    SameTouch(failing, a, b, |was|, loc);
  }

  lemma UnlockPublishes(checks: bool, levels: map<Location, Level>, req: Request, k: nat)
    requires k <= |req.lines| && req.kind.Unlock?
    ensures DeltaAfter(checks, levels, req, k).outbox == []
  {
  }

  /** Only an adjustment publishes an adjusted event. */
  lemma OthersDoNotAdjust(db: Tables, op: Op)
    requires op.Call? ==> !op.req.kind.Adjust?
    ensures db.outbox <= Do(db, op).outbox
    ensures forall i :: |db.outbox| <= i < |Do(db, op).outbox| ==> Do(db, op).outbox[i].eventType != "stock.adjusted"
  {
    hide DeltaAfter;
    hide Drifted;
    if Commits(db, op) {
      if op.req.kind.Unlock? {
        UnlockPublishes(db.checks, db.levels, op.req, |op.req.lines|);
      } else {
        Trail.CommittedTrail(db, op.req);
        LineEventsAreNamed(db, op.req);
      }
    }
  }

  lemma LineEventsAreNamed(db: Tables, req: Request)
    requires Trail.ByLine(req.kind) && OutcomeOf(db, req).Committed?
    ensures db.outbox <= After(db, req).outbox
    ensures forall i :: |db.outbox| <= i < |After(db, req).outbox| ==>
              After(db, req).outbox[i].eventType != "stock.adjusted"
  {
    hide OutcomeOf;
    hide After;
    Trail.CommittedTrail(db, req);
    var after, p := After(db, req), Trail.Present(db.levels, req.tenant, req.lines, |req.lines|);
    var n := |db.outbox|;
    forall i | n <= i < |after.outbox| ensures after.outbox[i].eventType != "stock.adjusted" {
      assert after.outbox[n..][i - n] == after.outbox[i];
      assert Trail.Recorded(req, p[i - n], after.events[|db.events|..][i - n], after.outbox[n..][i - n]);
      NamesDiffer();
    }
  }

  lemma NamesDiffer()
    ensures "stock.adjusted" !in {"stock.reserved", "stock.released", "stock.allocated", "stock.fulfilled"}
    ensures "stock.adjusted" != "stock.deficit_alert"
  {
    assert "stock.adjusted"[6] == 'a' && "stock.reserved"[6] == 'r' && "stock.released"[6] == 'r';
    assert "stock.fulfilled"[6] == 'f' && "stock.adjusted"[7] == 'd' && "stock.allocated"[7] == 'l';
    assert "stock.deficit_alert"[6] == 'd';
  }

  /** An adjustment's message touches its own location and no other. */
  lemma AdjustedTouches(failing: set<string>, tenant: string, l: Line, p: Payload, id: string, loc: Location)
    requires ':' !in tenant && p.Adjusted? && p.warehouse == l.warehouse && p.available >= 0
    requires Listable(failing, loc)
    ensures Touches(failing, MessageOf(OutboxEvent(tenant, tenant + ":" + l.sku, "stock.adjusted", p), id), loc)
            <==> Loc(tenant, l) == loc
  {
    CutRecovers(tenant, l.sku);
    CutRecovers(loc.tenant, loc.sku);
    assert Join(tenant, l.sku) == tenant + ":" + l.sku;
  }

  lemma AdjustmentSpeaks(failing: set<string>, db: Tables, req: Request, l: Line, ids: seq<string>, loc: Location)
    requires req.kind.Adjust? && req.lines == [l] && OutcomeOf(db, req).Committed? && ':' !in req.tenant
    requires (db.checks ==> NoNegatives(db.levels)) && Listable(failing, loc) && |ids| == |After(db, req).outbox|
    ensures db.outbox <= After(db, req).outbox
    ensures Latest(failing, Messages(After(db, req).outbox, ids), |ids|, loc)
         == if Loc(req.tenant, l) == loc then Some(At(After(db, req).levels, loc).available)
            else Latest(failing, Messages(db.outbox, ids[..|db.outbox|]), |db.outbox|, loc)
  {
    hide OutcomeOf;
    hide After;
    hide Latest;
    hide Touches;
    hide Messages;
    CommittedIsNew(db, req);
    AdjustCommitsExactlyWhen(db, req, l);
    var now, n := After(db, req).outbox, |db.outbox|;
    AdjustedTouches(failing, req.tenant, l, now[n].payload, ids[n], loc);
    forall i | n < i < |now| ensures !Touches(failing, MessageOf(now[i], ids[i]), loc) {
      NamesDiffer();
      DeficitIsQuiet(failing, now[i], ids[i], loc);
    }
    if Loc(req.tenant, l) == loc {
      LastWord(failing, now, ids, n, loc);
    } else {
      NothingNew(failing, db.outbox, now, ids, loc);
    }
  }

  lemma CommittedIsNew(db: Tables, req: Request)
    requires OutcomeOf(db, req).Committed?
    ensures !IsDuplicate(db, req)
  {
  }

  lemma DeficitIsQuiet(failing: set<string>, e: OutboxEvent, id: string, loc: Location)
    requires e.eventType != "stock.adjusted"
    ensures !Touches(failing, MessageOf(e, id), loc)
  {
  }

  lemma LastWord(failing: set<string>, now: seq<OutboxEvent>, ids: seq<string>, n: nat, loc: Location)
    requires |ids| == |now| && n < |now| && Touches(failing, MessageOf(now[n], ids[n]), loc)
    requires forall i :: n < i < |now| ==> !Touches(failing, MessageOf(now[i], ids[i]), loc)
    ensures Latest(failing, Messages(now, ids), |now|, loc) == Some(MessageOf(now[n], ids[n]).available)
  {
    hide Touches;
    hide MessageOf;
    LatestSkips(failing, Messages(now, ids), n + 1, |now|, loc);
  }

  /** One operation, on the feed's side. */
  lemma OpSpeaks(failing: set<string>, db: Tables, op: Op, ids: seq<string>, loc: Location)
    requires (op.Call? ==> Rpc(op.req) && ':' !in op.req.tenant) && (db.checks ==> NoNegatives(db.levels))
    requires Listable(failing, loc) && |ids| == |Do(db, op).outbox|
    ensures db.outbox <= Do(db, op).outbox
    ensures Latest(failing, Messages(Do(db, op).outbox, ids), |ids|, loc)
         == if Adjusts(db, op, loc) then Some(At(Do(db, op).levels, loc).available)
            else Latest(failing, Messages(db.outbox, ids[..|db.outbox|]), |db.outbox|, loc)
  {
    hide OutcomeOf;
    hide Latest;
    hide Touches;
    hide Messages;
    hide At;
    hide Drifted;
    hide NoNegatives;
    if op.Call? && op.req.kind.Adjust? {
      if Commits(db, op) {
        AdjustmentSpeaks(failing, db, op.req, op.req.lines[0], ids, loc);
      } else {
        assert Do(db, op) == db && ids[..|db.outbox|] == ids;
      }
    } else {
      OthersDoNotAdjust(db, op);
      var now := Do(db, op).outbox;
      forall i | |db.outbox| <= i < |now| ensures !Touches(failing, MessageOf(now[i], ids[i]), loc) {
        DeficitIsQuiet(failing, now[i], ids[i], loc);
      }
      NothingNew(failing, db.outbox, now, ids, loc);
    }
  }

  /** Over every run of the stock service, the last message of the outbox that touches a location says what the location
      had available right after it was last adjusted. */
  lemma {:induction false} FeedCarriesTheStock(failing: set<string>, checks: bool, ops: seq<Op>, ids: seq<string>,
                                               loc: Location)
    requires Rpcs(ops) && PlainTenants(ops) && Listable(failing, loc)
    requires |ids| == |Run(EmptyTables(checks), ops).outbox|
    ensures Latest(failing, Messages(Run(EmptyTables(checks), ops).outbox, ids), |ids|, loc)
         == LastAdjusted(EmptyTables(checks), ops, loc)
  {
    hide Do;
    hide Latest;
    hide Adjusts;
    hide Listable;
    hide Messages;
    hide At;
    hide NoNegatives;
    var start := EmptyTables(checks);
    if ops == [] {
      NoMessages(failing, ids, loc);
    } else {
      var before, op := ops[..|ops| - 1], ops[|ops| - 1];
      var db := Run(start, before);
      StaysSound(checks, before);
      OpSpeaks(failing, db, op, ids, loc);
      FeedCarriesTheStock(failing, checks, before, ids[..|db.outbox|], loc);
    }
  }

  lemma StaysSound(checks: bool, ops: seq<Op>)
    ensures
      var db := Run(EmptyTables(checks), ops);
      db.checks == checks && (checks ==> NoNegatives(db.levels))
  {
    RunAccounts(checks, ops, Location("", "", ""));
  }

  lemma NoMessages(failing: set<string>, ids: seq<string>, loc: Location)
    requires ids == []
    ensures Latest(failing, Messages([], ids), 0, loc) == None
  {
  }

  /** End to end: when the channel consumer has been through the whole outbox, whatever was redelivered or could not be
      recorded on the way, the channel shows what each location had available right after it was last adjusted. */
  lemma ChannelShowsTheLastAdjustment(failing: set<string>, checks: bool, ops: seq<Op>, ids: seq<string>,
                                      run: seq<Sync>, trace: seq<Delivery>, n: nat, loc: Location)
    requires Rpcs(ops) && PlainTenants(ops) && Listable(failing, loc)
    requires |ids| == |Run(EmptyTables(checks), ops).outbox|
    requires
      var events := Messages(Run(EmptyTables(checks), ops).outbox, ids);
      && IsTrace(failing, events, run, trace) && WellKeyed(failing, events)
      && 0 < n <= |trace| && trace[n - 1].offset + 1 == Reached(trace[..n]) == |events|
    ensures Shown(run[n], loc) == LastAdjusted(EmptyTables(checks), ops, loc)
  {
    hide Latest;
    hide Messages;
    hide IsTrace;
    hide WellKeyed;
    var events := Messages(Run(EmptyTables(checks), ops).outbox, ids);
    ChannelCatchesUp(failing, events, run, trace, n, loc);
    FeedCarriesTheStock(failing, checks, ops, ids, loc);
  }

  // ----- what the channel does not see -----

  /** What is available is what the last adjustment left, less what was reserved and plus what was released since. */
  lemma {:induction false} AvailableSinceAdjusted(ops: seq<Op>, loc: Location)
    requires Rpcs(ops)
    ensures
      var start := EmptyTables(true);
      var last := LastAdjusted(start, ops, loc);
      At(Run(start, ops).levels, loc).available
      == (if last.Some? then last.value else 0) + MovedSince(start, ops, loc)
  {
    hide Do;
    hide EmptyTables;
    hide Adjusts;
    hide At;
    hide SumTo;
    hide NoNegatives;
    var start := EmptyTables(true);
    if ops == [] {
      NothingStored(loc);
    } else {
      var before, op := ops[..|ops| - 1], ops[|ops| - 1];
      AvailableSinceAdjusted(before, loc);
      StaysSound(true, before);
      if !Adjusts(Run(start, before), op, loc) { OpMoves(Run(start, before), op, loc); }
    }
  }

  lemma NothingStored(loc: Location)
    ensures At(EmptyTables(true).levels, loc).available == 0
  {
  }

  lemma OpMoves(db: Tables, op: Op, loc: Location)
    requires (op.Call? ==> Rpc(op.req)) && db.checks && NoNegatives(db.levels) && !Adjusts(db, op, loc)
    ensures At(Do(db, op).levels, loc).available
         == At(db.levels, loc).available
            + (if !Commits(db, op) then 0
               else if op.req.kind.Reserve? then -SumAt(op.req.tenant, op.req.lines, loc)
               else if op.req.kind.Release? && loc in db.levels then SumAt(op.req.tenant, op.req.lines, loc)
               else 0)
  {
    hide OutcomeOf;
    hide After;
    hide Drifted;
    hide SumTo;
    hide NoNegatives;
    if Commits(db, op) {
      if op.req.kind.Adjust? {
        CommittedIsNew(db, op.req);
        AdjustCommitsExactlyWhen(db, op.req, op.req.lines[0]);
      } else {
        CommittedMoves(db, op.req, loc);
      }
    } else if op.Call? {
      Refused(db, op.req);
    }
  }

  lemma Refused(db: Tables, req: Request)
    requires !OutcomeOf(db, req).Committed?
    ensures After(db, req) == db
  {
  }

  /** So what the channel shows is what is available exactly when reservations and releases since the last adjustment
      cancel out: the line events they publish carry no availability, and the channel passes them over. */
  lemma ShownIsCurrentExactlyWhen(failing: set<string>, ops: seq<Op>, ids: seq<string>, run: seq<Sync>,
                                  trace: seq<Delivery>, n: nat, loc: Location)
    requires Rpcs(ops) && PlainTenants(ops) && Listable(failing, loc)
    requires |ids| == |Run(EmptyTables(true), ops).outbox|
    requires
      var events := Messages(Run(EmptyTables(true), ops).outbox, ids);
      && IsTrace(failing, events, run, trace) && WellKeyed(failing, events)
      && 0 < n <= |trace| && trace[n - 1].offset + 1 == Reached(trace[..n]) == |events|
    requires LastAdjusted(EmptyTables(true), ops, loc).Some?
    ensures Shown(run[n], loc) == Some(At(Run(EmptyTables(true), ops).levels, loc).available)
            <==> MovedSince(EmptyTables(true), ops, loc) == 0
  {
    hide Messages;
    hide IsTrace;
    hide WellKeyed;
    hide At;
    ChannelShowsTheLastAdjustment(failing, true, ops, ids, run, trace, n, loc);
    AvailableSinceAdjusted(ops, loc);
  }
}
