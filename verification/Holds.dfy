/**
 The hold invariant across the reservation and stock services: at every location the reserved bucket
 is the sum of its ACTIVE rows plus its ALLOCATED rows whose allocation has not been confirmed.
 */
module Holds {
  import opened Base
  import opened StockLedger
  import opened Accounting
  import opened AllOrNothing
  import opened Effects
  import opened Settling
  import opened Reservations

  datatype OrderId = OrderId(tenant: string, order: string)

  function Id(r: Row): OrderId {
    OrderId(r.tenant, r.order)
  }

  /** The services' state, and the orders whose stock allocation has been confirmed. */
  datatype Books = Books(w: World, settled: set<OrderId>)

  // ----- what the rows say is held -----

  /** The row stands for units in reserved. */
  predicate IsOwed(r: Row, settled: set<OrderId>) {
    r.status == Active || (r.status == Allocated && Id(r) !in settled)
  }

  function Owed(r: Row, settled: set<OrderId>, loc: Location): int {
    if Loc(r.tenant, r.line) == loc && IsOwed(r, settled) then r.line.quantity else 0
  }

  function HeldAt(rows: seq<Row>, settled: set<OrderId>, loc: Location): int {
    if rows == [] then 0
    else HeldAt(rows[..|rows| - 1], settled, loc) + Owed(rows[|rows| - 1], settled, loc)
  }

  lemma {:induction false} HeldAfterUpdate(rows: seq<Row>, id: nat, r: Row, settled: set<OrderId>, loc: Location)
    requires id < |rows|
    ensures HeldAt(rows[id := r], settled, loc)
         == HeldAt(rows, settled, loc) - Owed(rows[id], settled, loc) + Owed(r, settled, loc)
  {
    hide Owed;
    var n := |rows| - 1;
    if id < n {
      assert rows[id := r][..n] == rows[..n][id := r];
      HeldAfterUpdate(rows[..n], id, r, settled, loc);
    } else {
      assert rows[id := r][..n] == rows[..n];
    }
  }

  lemma {:induction false} MarkAt(rows: seq<Row>, ids: seq<nat>, status: Status, k: nat)
    requires Ids(rows, ids) && k < |rows|
    ensures Mark(rows, ids, status)[k] == if k in ids then rows[k].(status := status) else rows[k]
  {
    if ids != [] { MarkAt(rows, ids[..|ids| - 1], status, k); }
  }

  predicate Distinct(ids: seq<nat>) {
    forall i, j :: 0 <= i < j < |ids| ==> ids[i] != ids[j]
  }

  /** Distinct active rows of one tenant. */
  predicate ActiveRows(rows: seq<Row>, ids: seq<nat>, tenant: string) {
    && Ids(rows, ids) && Distinct(ids)
    && forall i :: 0 <= i < |ids| ==> rows[ids[i]].status == Active && rows[ids[i]].tenant == tenant
  }

  /** Distinct rows of one tenant that stand for units in reserved. */
  predicate OwedRows(rows: seq<Row>, ids: seq<nat>, tenant: string, settled: set<OrderId>) {
    && Ids(rows, ids) && Distinct(ids)
    && forall i :: 0 <= i < |ids| ==> IsOwed(rows[ids[i]], settled) && rows[ids[i]].tenant == tenant
  }

  /** Ending rows lowers what is held by exactly their lines when they stand for units, */
  lemma {:induction false} EndingRows(rows: seq<Row>, ids: seq<nat>, tenant: string, status: Status,
                                      settled: set<OrderId>, loc: Location)
    requires OwedRows(rows, ids, tenant, settled) && (status == Released || status == Expired)
    ensures HeldAt(Mark(rows, ids, status), settled, loc)
         == HeldAt(rows, settled, loc) - SumAt(tenant, LinesAt(rows, ids), loc)
  {
    hide HeldAt;
    if ids != [] {
      var front, id := ids[..|ids| - 1], ids[|ids| - 1];
      EndingRows(rows, front, tenant, status, settled, loc);
      MarkAt(rows, front, status, id);
      var before := Mark(rows, front, status);
      assert before[id] == rows[id];
      HeldAfterUpdate(before, id, before[id].(status := status), settled, loc);
      LinesGrow(rows, ids, tenant, loc);
    }
  }

  /** and not at all when they do not. */
  lemma {:induction false} EndingNothing(rows: seq<Row>, ids: seq<nat>, status: Status, settled: set<OrderId>,
                                         loc: Location)
    requires Ids(rows, ids) && (status == Released || status == Expired)
    requires forall i :: 0 <= i < |ids| ==> !IsOwed(rows[ids[i]], settled)
    ensures HeldAt(Mark(rows, ids, status), settled, loc) == HeldAt(rows, settled, loc)
  {
    hide HeldAt;
    if ids != [] {
      var front, id := ids[..|ids| - 1], ids[|ids| - 1];
      EndingNothing(rows, front, status, settled, loc);
      MarkAt(rows, front, status, id);
      var before := Mark(rows, front, status);
      HeldAfterUpdate(before, id, before[id].(status := status), settled, loc);
    }
  }

  lemma LinesGrow(rows: seq<Row>, ids: seq<nat>, tenant: string, loc: Location)
    requires ids != [] && Ids(rows, ids)
    ensures
      var l := rows[ids[|ids| - 1]].line;
      SumAt(tenant, LinesAt(rows, ids), loc)
      == SumAt(tenant, LinesAt(rows, ids[..|ids| - 1]), loc) + (if Loc(tenant, l) == loc then l.quantity else 0)
  {
    var before := LinesAt(rows, ids[..|ids| - 1]);
    SamePrefix(tenant, LinesAt(rows, ids), before, |before|, loc);
  }

  /** Allocating active rows of an unconfirmed order changes nothing held. */
  lemma {:induction false} AllocatingRows(rows: seq<Row>, ids: seq<nat>, tenant: string, settled: set<OrderId>,
                                          loc: Location)
    requires ActiveRows(rows, ids, tenant)
    requires forall i :: 0 <= i < |ids| ==> Id(rows[ids[i]]) !in settled
    ensures HeldAt(Mark(rows, ids, Allocated), settled, loc) == HeldAt(rows, settled, loc)
  {
    hide HeldAt;
    if ids != [] {
      var front, id := ids[..|ids| - 1], ids[|ids| - 1];
      AllocatingRows(rows, front, tenant, settled, loc);
      MarkAt(rows, front, Allocated, id);
      var before := Mark(rows, front, Allocated);
      assert before[id] == rows[id];
      HeldAfterUpdate(before, id, before[id].(status := Allocated), settled, loc);
    }
  }

  lemma {:induction false} RecordingRows(rows: seq<Row>, c: ReserveCall, n: nat, settled: set<OrderId>, loc: Location)
    requires n <= |c.items|
    ensures HeldAt(rows + NewRows(c, n), settled, loc) == HeldAt(rows, settled, loc) + SumTo(c.tenant, c.items, n, loc)
    decreases n
  {
    if n == 0 {
      assert rows + [] == rows;
    } else {
      RecordingRows(rows, c, n - 1, settled, loc);
      var all := rows + NewRows(c, n);
      assert all[..|all| - 1] == rows + NewRows(c, n - 1);
    }
  }

  /** What an order's rows stand for at a location, whatever has become of them. */
  function OrderAt(rows: seq<Row>, o: OrderId, loc: Location): int {
    if rows == [] then 0
    else
      var r := rows[|rows| - 1];
      OrderAt(rows[..|rows| - 1], o, loc) + (if Id(r) == o && Loc(r.tenant, r.line) == loc then r.line.quantity else 0)
  }

  /** What an order's allocated rows hold at a location. */
  function AllocatedAt(rows: seq<Row>, o: OrderId, loc: Location): int {
    if rows == [] then 0
    else
      var r := rows[|rows| - 1];
      AllocatedAt(rows[..|rows| - 1], o, loc)
      + (if Id(r) == o && r.status == Allocated && Loc(r.tenant, r.line) == loc then r.line.quantity else 0)
  }

  lemma {:induction false} SettlingOrder(rows: seq<Row>, settled: set<OrderId>, o: OrderId, loc: Location)
    requires o !in settled
    ensures HeldAt(rows, settled + {o}, loc) == HeldAt(rows, settled, loc) - AllocatedAt(rows, o, loc)
  {
    if rows != [] { SettlingOrder(rows[..|rows| - 1], settled, o, loc); }
  }

  predicate AllStand(rows: seq<Row>, o: OrderId, status: Status) {
    forall i :: 0 <= i < |rows| && Id(rows[i]) == o ==> rows[i].status == status
  }

  lemma {:induction false} AllAllocated(rows: seq<Row>, o: OrderId, loc: Location)
    requires AllStand(rows, o, Allocated)
    ensures AllocatedAt(rows, o, loc) == OrderAt(rows, o, loc)
  {
    if rows != [] { AllAllocated(rows[..|rows| - 1], o, loc); }
  }

  lemma {:induction false} NoneAllocated(rows: seq<Row>, o: OrderId, loc: Location)
    requires forall i :: 0 <= i < |rows| && Id(rows[i]) == o ==> rows[i].status != Allocated
    ensures AllocatedAt(rows, o, loc) == 0
  {
    if rows != [] { NoneAllocated(rows[..|rows| - 1], o, loc); }
  }

  lemma {:induction false} OrderStands(rows: seq<Row>, o: OrderId, k: nat, loc: Location)
    requires forall i :: 0 <= i < |rows| ==> rows[i].line.quantity > 0
    ensures OrderAt(rows, o, loc) >= 0
    ensures k < |rows| && Id(rows[k]) == o && Loc(rows[k].tenant, rows[k].line) == loc ==> OrderAt(rows, o, loc) > 0
  {
    if rows != [] { OrderStands(rows[..|rows| - 1], o, k, loc); }
  }

  // ----- stock calls in lock order -----

  lemma SortedSums(req: Request, loc: Location)
    ensures SumAt(req.tenant, InLockOrder(req).lines, loc) == SumAt(req.tenant, req.lines, loc)
  {
    SortedIsAscending(req.lines);
    SumsIgnoreOrder(req.tenant, SortLines(req.lines), req.lines, loc);
  }

  // ----- compensation keys -----

  predicate IsComp(key: string) {
    |key| >= 5 && key[..5] == "comp:"
  }

  lemma CompKeys(tenant: string, a: string, b: string)
    ensures IsComp(CompKey(tenant, a)) && CompKey(tenant, a) != ""
    ensures CompKey(tenant, a) == CompKey(tenant, b) ==> a == b
  {
    var n := |"comp:" + tenant + ":"|;
    assert CompKey(tenant, a)[n..] == a;
    assert CompKey(tenant, b)[n..] == b;
  }

  // ----- the invariant -----

  ghost predicate Mirrored(b: Books) {
    forall loc :: At(b.w.stock.levels, loc).reserved == HeldAt(b.w.rows, b.settled, loc)
  }

  /** A row is positive and has a stock row; an active one belongs to an unconfirmed order, and one that stands for
      units belongs to an order whose compensation key is unspent. */
  predicate RowOk(b: Books, r: Row) {
    && r.line.quantity > 0 && Loc(r.tenant, r.line) in b.w.stock.levels
    && (r.status == Active ==> Id(r) !in b.settled)
    && (IsOwed(r, b.settled) ==> Key(r.tenant, CompKey(r.tenant, r.order)) !in b.w.stock.keys)
  }

  /** The rows of an order share their fate. */
  predicate Uniform(rows: seq<Row>) {
    forall i, j :: 0 <= i < |rows| && 0 <= j < |rows| && Id(rows[i]) == Id(rows[j]) ==> rows[i].status == rows[j].status
  }

  ghost predicate Inv(b: Books) {
    && b.w.stock.checks && NoNegatives(b.w.stock.levels)
    && (forall i :: 0 <= i < |b.w.rows| ==> RowOk(b, b.w.rows[i]))
    && Uniform(b.w.rows)
    && Mirrored(b)
  }

  datatype Step =
    | DoReserve(c: ReserveCall)
    | DoRelease(o: OrderCall)
    | DoAllocate(o: OrderCall)
    | DoConfirm(req: Request)
    | DoSweep(g: Group, at: int)
    | DoStock(req: Request)
    | DoPrune(stockKeys: set<Key>, keys: set<Key>)

  ghost predicate NewOrder(b: Books, o: OrderId) {
    && o !in b.settled
    && (forall i :: 0 <= i < |b.w.rows| ==> Id(b.w.rows[i]) != o)
    && Key(o.tenant, CompKey(o.tenant, o.order)) !in b.w.stock.keys
  }

  /** All the rows of one order, whatever has become of them since the sweeper read them. */
  predicate WholeOrder(rows: seq<Row>, g: Group) {
    && Ids(rows, g.ids) && Distinct(g.ids) && g.ids != []
    && (forall i :: 0 <= i < |g.ids| ==> Id(rows[g.ids[i]]) == OrderId(g.tenant, g.order))
    && (forall i :: 0 <= i < |rows| && Id(rows[i]) == OrderId(g.tenant, g.order) ==> i in g.ids)
  }

  /** The batch holds all active rows of every order it touches. */
  predicate Unsplit(rows: seq<Row>, batch: seq<nat>)
    requires Ids(rows, batch)
  {
    forall k, i :: 0 <= k < |batch| && 0 <= i < |rows| && rows[i].status == Active && Id(rows[i]) == Id(rows[batch[k]])
      ==> i in batch
  }

  /** What the services are promised: one Reserve per order with counted quantities and fresh keys, release keys
      that are fresh or the order's own compensation key, one confirmation per order that names the order's own
      lines, sweep batches that split no order, and no other caller using compensation keys. Nothing is promised
      about when: a hold may expire before its order is allocated or confirmed, and the sweeper may release and mark
      rows that it read long before. */
  ghost predicate Allowed(b: Books, step: Step) {
    match step
    case DoReserve(c) =>
      && NewOrder(b, OrderId(c.tenant, c.order)) && Counted(c.items) && !IsComp(c.key)
      && !InUse(b.w.keys, c.tenant, c.key) && !IsDuplicate(b.w.stock, HoldRequest(c))
    case DoRelease(o) =>
      || o.key == CompKey(o.tenant, o.order)
      || (!IsComp(o.key) && (o.key != "" ==> Key(o.tenant, o.key) !in b.w.stock.keys))
    case DoAllocate(_) => true
    case DoConfirm(req) =>
      && req.kind.Confirm? && !IsComp(req.key)
      && (!IsDuplicate(b.w.stock, req) ==>
            var o := OrderId(req.tenant, req.kind.order);
            && o !in b.settled
            && (forall loc :: SumAt(req.tenant, req.lines, loc) == OrderAt(b.w.rows, o, loc)))
    case DoSweep(g, _) => WholeOrder(b.w.rows, g)
    case DoStock(req) =>
      && (req.kind.Adjust? || req.kind.Fulfill? || req.kind.Unlock?)
      && (req.kind.Adjust? ==> |req.lines| == 1) && !IsComp(req.key)
    case DoPrune(_, _) => true
  }

  ghost function Next(b: Books, step: Step): Books
    requires Allowed(b, step)
  {
    match step
    case DoReserve(c) => b.(w := AfterReserve(b.w, c))
    case DoRelease(o) => b.(w := AfterRelease(b.w, o))
    case DoAllocate(o) => b.(w := AfterAllocate(b.w, o))
    case DoConfirm(req) =>
      Books(b.w.(stock := After(b.w.stock, req)),
            if OutcomeOf(b.w.stock, req).Committed? then b.settled + {OrderId(req.tenant, req.kind.order)}
            else b.settled)
    case DoSweep(g, at) => b.(w := AfterGroup(b.w, g, at))
    case DoStock(req) => b.(w := b.w.(stock := After(b.w.stock, req)))
    case DoPrune(stockKeys, keys) =>
      b.(w := b.w.(stock := b.w.stock.(keys := b.w.stock.keys - stockKeys), keys := b.w.keys - keys))
  }

  /** The step comes in time. A confirmation that commits finds its order's rows allocated, and a sweeper's release
      that commits finds the rows still standing for units. */
  ghost predicate Sound(b: Books, step: Step)
    requires Allowed(b, step)
  {
    match step
    case DoConfirm(req) =>
      OutcomeOf(b.w.stock, req).Committed? ==> AllStand(b.w.rows, OrderId(req.tenant, req.kind.order), Allocated)
    case DoSweep(g, at) =>
      OutcomeOf(b.w.stock, SweepRequest(b.w, g, at)).Committed? ==>
        forall i :: 0 <= i < |g.ids| ==> IsOwed(b.w.rows[g.ids[i]], b.settled)
    case _ => true
  }

  /** A stock call that does not touch reserved, under a key that is nobody's compensation key. */
  lemma StockKeeps(b: Books, req: Request)
    requires Inv(b) && Allowed(b, DoStock(req))
    ensures Inv(Next(b, DoStock(req)))
  {
    hide OutcomeOf;
    hide After;
    hide At;
    hide HeldAt;
    hide NoNegatives;
    var b' := Next(b, DoStock(req));
    KeysKept(b, req);
    forall loc ensures At(b'.w.stock.levels, loc).reserved == At(b.w.stock.levels, loc).reserved {
      if OutcomeOf(b.w.stock, req).Committed? {
        CommittedMoves(b.w.stock, req, loc);
      } else {
        NotCommitted(b.w.stock, req);
      }
    }
    if OutcomeOf(b.w.stock, req).Committed? {
      CommittedMoves(b.w.stock, req, Location("", "", ""));
    } else {
      NotCommitted(b.w.stock, req);
    }
    StillChecked(b.w.stock, req);
  }

  lemma NotCommitted(db: Tables, req: Request)
    requires !OutcomeOf(db, req).Committed?
    ensures After(db, req) == db
  {
  }

  lemma StillChecked(db: Tables, req: Request)
    ensures After(db, req).checks == db.checks && db.levels.Keys <= After(db, req).levels.Keys
  {
    hide DeltaOf;
  }

  /** A key that is not a compensation key spends none. */
  lemma KeysKept(b: Books, req: Request)
    requires !IsComp(req.key)
    ensures forall t, o :: Key(t, CompKey(t, o)) in After(b.w.stock, req).keys ==>
              Key(t, CompKey(t, o)) in b.w.stock.keys
  {
    hide OutcomeOf;
    forall t, o | Key(t, CompKey(t, o)) in After(b.w.stock, req).keys
      ensures Key(t, CompKey(t, o)) in b.w.stock.keys
    {
      CompKeys(t, o, o);
    }
  }

  lemma PruneKeeps(b: Books, stockKeys: set<Key>, keys: set<Key>)
    requires Inv(b)
    ensures Inv(Next(b, DoPrune(stockKeys, keys)))
  {
    hide At;
    hide HeldAt;
    hide NoNegatives;
    var b' := Next(b, DoPrune(stockKeys, keys));
    forall loc ensures At(b'.w.stock.levels, loc).reserved == HeldAt(b'.w.rows, b'.settled, loc) {
      assert At(b.w.stock.levels, loc).reserved == HeldAt(b.w.rows, b.settled, loc);
    }
    forall i | 0 <= i < |b'.w.rows| ensures RowOk(b', b'.w.rows[i]) { assert RowOk(b, b.w.rows[i]); }
  }

  /** What a committed confirmation does to the two sides: reserved falls by the order's lines, what is held by its
      allocated rows. */
  lemma ConfirmShifts(b: Books, req: Request, loc: Location)
    requires b.w.stock.checks && NoNegatives(b.w.stock.levels) && Allowed(b, DoConfirm(req))
    requires OutcomeOf(b.w.stock, req).Committed?
    ensures
      var b', o := Next(b, DoConfirm(req)), OrderId(req.tenant, req.kind.order);
      && At(b'.w.stock.levels, loc).reserved == At(b.w.stock.levels, loc).reserved - OrderAt(b.w.rows, o, loc)
      && HeldAt(b'.w.rows, b'.settled, loc) == HeldAt(b.w.rows, b.settled, loc) - AllocatedAt(b.w.rows, o, loc)
      && NoNegatives(b'.w.stock.levels)
  {
    hide OutcomeOf;
    hide After;
    hide HeldAt;
    hide OrderAt;
    hide AllocatedAt;
    hide At;
    hide SumTo;
    hide NoNegatives;
    CommittedIsFresh(b.w.stock, req);
    CommittedMoves(b.w.stock, req, loc);
    SettlingOrder(b.w.rows, b.settled, OrderId(req.tenant, req.kind.order), loc);
  }

  lemma ConfirmKeeps(b: Books, req: Request)
    requires Inv(b) && Allowed(b, DoConfirm(req))
    ensures Inv(Next(b, DoConfirm(req))) <==> Sound(b, DoConfirm(req))
  {
    hide OutcomeOf;
    hide After;
    hide HeldAt;
    hide OrderAt;
    hide AllocatedAt;
    hide At;
    hide NoNegatives;
    var b', o := Next(b, DoConfirm(req)), OrderId(req.tenant, req.kind.order);
    KeysKept(b, req);
    StillChecked(b.w.stock, req);
    if !OutcomeOf(b.w.stock, req).Committed? {
      NotCommitted(b.w.stock, req);
    } else if AllStand(b.w.rows, o, Allocated) {
      forall loc ensures At(b'.w.stock.levels, loc).reserved == HeldAt(b'.w.rows, b'.settled, loc) {
        ConfirmShifts(b, req, loc);
        AllAllocated(b.w.rows, o, loc);
      }
      ConfirmShifts(b, req, Location("", "", ""));
      forall i | 0 <= i < |b'.w.rows| ensures RowOk(b', b'.w.rows[i]) { assert RowOk(b, b.w.rows[i]); }
    } else {
      LateConfirmFallsShort(b, req);
    }
  }

  /** A confirmation of rows that are not allocated takes units nobody holds for the order. */
  lemma LateConfirmFallsShort(b: Books, req: Request)
    requires Inv(b) && Allowed(b, DoConfirm(req)) && OutcomeOf(b.w.stock, req).Committed?
    requires !AllStand(b.w.rows, OrderId(req.tenant, req.kind.order), Allocated)
    ensures !Mirrored(Next(b, DoConfirm(req)))
    ensures
      var b' := Next(b, DoConfirm(req));
      forall loc :: At(b'.w.stock.levels, loc).reserved
                    == HeldAt(b'.w.rows, b'.settled, loc) - OrderAt(b.w.rows, OrderId(req.tenant, req.kind.order), loc)
  {
    hide OutcomeOf;
    hide After;
    hide HeldAt;
    hide OrderAt;
    hide AllocatedAt;
    hide At;
    hide NoNegatives;
    var b', o := Next(b, DoConfirm(req)), OrderId(req.tenant, req.kind.order);
    forall loc
      ensures At(b'.w.stock.levels, loc).reserved == HeldAt(b'.w.rows, b'.settled, loc) - OrderAt(b.w.rows, o, loc)
    {
      ConfirmShifts(b, req, loc);
      NoneAllocated(b.w.rows, o, loc);
      assert At(b.w.stock.levels, loc).reserved == HeldAt(b.w.rows, b.settled, loc);
    }
    var k :| 0 <= k < |b.w.rows| && Id(b.w.rows[k]) == o && b.w.rows[k].status != Allocated;
    var loc := Loc(b.w.rows[k].tenant, b.w.rows[k].line);
    assert forall i :: 0 <= i < |b.w.rows| ==> RowOk(b, b.w.rows[i]);
    OrderStands(b.w.rows, o, k, loc);
    assert At(b'.w.stock.levels, loc).reserved != HeldAt(b'.w.rows, b'.settled, loc);
  }

  lemma CommittedIsFresh(db: Tables, req: Request)
    requires OutcomeOf(db, req).Committed?
    ensures !IsDuplicate(db, req)
  {
  }

  lemma {:induction false} HeldIsCounted(rows: seq<Row>, settled: set<OrderId>, loc: Location)
    requires forall i :: 0 <= i < |rows| ==> rows[i].line.quantity > 0
    ensures HeldAt(rows, settled, loc) >= 0
  {
    if rows != [] { HeldIsCounted(rows[..|rows| - 1], settled, loc); }
  }

  lemma {:induction false} LinesAreCounted(rows: seq<Row>, ids: seq<nat>)
    requires Ids(rows, ids) && forall i :: 0 <= i < |rows| ==> rows[i].line.quantity > 0
    ensures Counted(LinesAt(rows, ids))
  {
    if ids != [] { LinesAreCounted(rows, ids[..|ids| - 1]); }
  }

  /** Releasing active rows through the stock service, both sides together. */
  lemma ReleasingKeepsMirror(b: Books, req: Request, ids: seq<nat>, tenant: string, order: string, reason: string,
                             key: string, at: int, status: Status)
    requires Inv(b) && OwedRows(b.w.rows, ids, tenant, b.settled) && (status == Released || status == Expired)
    requires req == ReleaseRequest(tenant, order, reason, key, LinesAt(b.w.rows, ids), at)
    requires OutcomeOf(b.w.stock, req).Committed?
    ensures NoNegatives(After(b.w.stock, req).levels)
    ensures forall loc ::
              At(After(b.w.stock, req).levels, loc).reserved == HeldAt(Mark(b.w.rows, ids, status), b.settled, loc)
  {
    hide OutcomeOf;
    hide After;
    hide HeldAt;
    hide Mark;
    hide LinesAt;
    hide SumTo;
    hide SortLines;
    var lines := LinesAt(b.w.rows, ids);
    var rows' := Mark(b.w.rows, ids, status);
    forall i | 0 <= i < |rows'| ensures rows'[i].line.quantity > 0 {
      MarkAt(b.w.rows, ids, status, i);
      assert RowOk(b, b.w.rows[i]);
    }
    forall loc
      ensures At(After(b.w.stock, req).levels, loc).reserved == HeldAt(rows', b.settled, loc)
    {
      CommittedMoves(b.w.stock, req, loc);
      EndingRows(b.w.rows, ids, tenant, status, b.settled, loc);
      SortedSums(Request(Kind.Release(order, reason), tenant, key, lines, at), loc);
      HeldIsCounted(rows', b.settled, loc);
      assert forall i :: 0 <= i < |b.w.rows| ==> RowOk(b, b.w.rows[i]);
      LinesAreCounted(b.w.rows, ids);
      SumsGrow(tenant, lines, |lines|, |lines|, loc);
      assert At(b.w.stock.levels, loc).reserved == HeldAt(b.w.rows, b.settled, loc);
    }
    CommittedMoves(b.w.stock, req, Location("", "", ""));
  }

  lemma {:induction false} ActiveIdsComplete(rows: seq<Row>, tenant: string, order: string, i: nat)
    requires i < |rows| && rows[i].status == Active && Id(rows[i]) == OrderId(tenant, order)
    ensures i in ActiveIds(rows, tenant, order)
  {
    if i < |rows| - 1 { ActiveIdsComplete(rows[..|rows| - 1], tenant, order, i); }
  }

  /** The rows once `ids`, all the rows of one order, have left the active state. */
  lemma RowsStayOk(b: Books, b': Books, ids: seq<nat>, o: OrderId, status: Status)
    requires Inv(b) && Ids(b.w.rows, ids) && status != Active
    requires b'.w.rows == Mark(b.w.rows, ids, status) && b'.settled == b.settled
    requires b.w.stock.levels.Keys <= b'.w.stock.levels.Keys
    requires forall i :: 0 <= i < |b.w.rows| ==> (i in ids <==> Id(b.w.rows[i]) == o)
    requires forall t, r :: Key(t, CompKey(t, r)) in b'.w.stock.keys ==>
               Key(t, CompKey(t, r)) in b.w.stock.keys || (OrderId(t, r) == o && status != Allocated)
    requires status == Allocated ==> o !in b.settled && forall i :: i in ids ==> b.w.rows[i].status == Active
    ensures Uniform(b'.w.rows)
    ensures forall i :: 0 <= i < |b'.w.rows| ==> RowOk(b', b'.w.rows[i])
  {
    hide Mark;
    forall i | 0 <= i < |b'.w.rows|
      ensures b'.w.rows[i] == if i in ids then b.w.rows[i].(status := status) else b.w.rows[i]
    {
      MarkAt(b.w.rows, ids, status, i);
    }
    forall i | 0 <= i < |b'.w.rows| ensures RowOk(b', b'.w.rows[i]) {
      assert RowOk(b, b.w.rows[i]);
    }
  }

  /** Only the order's own compensation key, or none, is spent by a call for that order. */
  lemma OwnKeyOnly(db: Tables, req: Request, o: OrderId)
    requires req.tenant == o.tenant && (req.key == CompKey(o.tenant, o.order) || !IsComp(req.key))
    ensures forall t, r :: Key(t, CompKey(t, r)) in After(db, req).keys ==>
              Key(t, CompKey(t, r)) in db.keys || OrderId(t, r) == o
  {
    hide OutcomeOf;
    hide CompKey;
    forall t, r | Key(t, CompKey(t, r)) in After(db, req).keys
      ensures Key(t, CompKey(t, r)) in db.keys || OrderId(t, r) == o
    {
      CompKeys(t, r, o.order);
    }
  }

  lemma AllActiveIds(rows: seq<Row>, tenant: string, order: string)
    ensures forall i :: 0 <= i < |rows| && rows[i].status == Active && Id(rows[i]) == OrderId(tenant, order)
              ==> i in ActiveIds(rows, tenant, order)
  {
    forall i | 0 <= i < |rows| && rows[i].status == Active && Id(rows[i]) == OrderId(tenant, order)
      ensures i in ActiveIds(rows, tenant, order)
    {
      ActiveIdsComplete(rows, tenant, order, i);
    }
  }

  /** The active rows of an order that has any are all of its rows. */
  lemma ActiveIdsAreAll(b: Books, tenant: string, order: string)
    requires Inv(b) && ActiveIds(b.w.rows, tenant, order) != []
    ensures
      var ids := ActiveIds(b.w.rows, tenant, order);
      && (forall i :: 0 <= i < |b.w.rows| ==> (i in ids <==> Id(b.w.rows[i]) == OrderId(tenant, order)))
      && (forall i :: i in ids ==> b.w.rows[i].status == Active) && OrderId(tenant, order) !in b.settled
  {
    hide ActiveIds;
    AllActiveIds(b.w.rows, tenant, order);
    var first := ActiveIds(b.w.rows, tenant, order)[0];
    assert RowOk(b, b.w.rows[first]);
    assert b.w.rows[first].status == Active;
  }

  /** Allocated rows stay held until the order is confirmed. */
  lemma AllocatingKeepsMirror(b: Books, tenant: string, order: string, loc: Location)
    requires Inv(b)
    ensures
      var rows' := Mark(b.w.rows, ActiveIds(b.w.rows, tenant, order), Allocated);
      At(b.w.stock.levels, loc).reserved == HeldAt(rows', b.settled, loc)
  {
    hide Mark;
    hide At;
    hide HeldAt;
    hide ActiveIds;
    var ids := ActiveIds(b.w.rows, tenant, order);
    assert forall i :: 0 <= i < |ids| ==> RowOk(b, b.w.rows[ids[i]]);
    assert At(b.w.stock.levels, loc).reserved == HeldAt(b.w.rows, b.settled, loc);
    AllocatingRows(b.w.rows, ids, tenant, b.settled, loc);
  }

  lemma MarkNothing(rows: seq<Row>, status: Status)
    ensures Mark(rows, [], status) == rows
  {
  }

  lemma RowStaysOk(b: Books, b': Books, r: Row, i: nat)
    requires Inv(b) && i < |b.w.rows| && r == b.w.rows[i] && b'.w.stock == b.w.stock && b'.settled == b.settled
    ensures RowOk(b', r)
  {
    assert RowOk(b, b.w.rows[i]);
  }

  lemma AllocateKeeps(b: Books, o: OrderCall)
    requires Inv(b)
    ensures Inv(Next(b, DoAllocate(o)))
  {
    hide ActiveIds;
    hide Mark;
    hide At;
    hide HeldAt;
    hide NoNegatives;
    hide RowOk;
    if !InUse(b.w.keys, o.tenant, o.key) {
      var ids, b' := ActiveIds(b.w.rows, o.tenant, o.order), Next(b, DoAllocate(o));
      if ids == [] {
        MarkNothing(b.w.rows, Allocated);
        forall i | 0 <= i < |b'.w.rows| ensures RowOk(b', b'.w.rows[i]) { RowStaysOk(b, b', b.w.rows[i], i); }
      } else {
        ActiveIdsAreAll(b, o.tenant, o.order);
        RowsStayOk(b, b', ids, OrderId(o.tenant, o.order), Allocated);
      }
      forall loc ensures At(b'.w.stock.levels, loc).reserved == HeldAt(b'.w.rows, b'.settled, loc) {
        AllocatingKeepsMirror(b, o.tenant, o.order, loc);
      }
    }
  }

  /** A release of active rows cannot be taken for a replay. */
  lemma ReleaseIsFresh(b: Books, o: OrderCall)
    requires Inv(b) && Allowed(b, DoRelease(o)) && ActiveIds(b.w.rows, o.tenant, o.order) != []
    ensures !IsDuplicate(b.w.stock, ReleaseOf(b.w, o))
    ensures OutcomeOf(b.w.stock, ReleaseOf(b.w, o)).Committed? || !StockSaysYes(OutcomeOf(b.w.stock, ReleaseOf(b.w, o)))
  {
    hide DeltaOf;
    hide SortLines;
    assert RowOk(b, b.w.rows[ActiveIds(b.w.rows, o.tenant, o.order)[0]]);
  }

  lemma ReleaseKeeps(b: Books, o: OrderCall)
    requires Inv(b) && Allowed(b, DoRelease(o))
    ensures Inv(Next(b, DoRelease(o)))
  {
    hide OutcomeOf;
    hide After;
    hide ActiveIds;
    hide Mark;
    hide At;
    hide HeldAt;
    hide NoNegatives;
    var ids, b' := ActiveIds(b.w.rows, o.tenant, o.order), Next(b, DoRelease(o));
    if InUse(b.w.keys, o.tenant, o.key) {
    } else if ids == [] {
      assert forall i :: 0 <= i < |b.w.rows| ==> RowOk(b, b.w.rows[i]);
      assert forall loc :: At(b'.w.stock.levels, loc) == At(b.w.stock.levels, loc);
    } else {
      ReleaseIsFresh(b, o);
      var req := ReleaseOf(b.w, o);
      if StockSaysYes(OutcomeOf(b.w.stock, req)) {
        ActiveIdsAreAll(b, o.tenant, o.order);
        ReleasingKeepsMirror(b, req, ids, o.tenant, o.order, o.reason, o.key, o.at, Released);
        StillChecked(b.w.stock, req);
        OwnKeyOnly(b.w.stock, req, OrderId(o.tenant, o.order));
        RowsStayOk(b, b', ids, OrderId(o.tenant, o.order), Released);
      }
    }
  }

  // ----- sweeping -----

  lemma {:induction false} PickMembers(rows: seq<Row>, batch: seq<nat>, tenant: string, order: string)
    requires Ids(rows, batch)
    ensures forall id ::
              id in Pick(rows, batch, tenant, order) <==> id in batch && Id(rows[id]) == OrderId(tenant, order)
    ensures Distinct(batch) ==> Distinct(Pick(rows, batch, tenant, order))
  {
    if batch != [] {
      var front := batch[..|batch| - 1];
      PickMembers(rows, front, tenant, order);
      assert batch == front + [batch[|batch| - 1]];
    }
  }

  lemma SweepIsKeyed(db: Tables, g: Group, req: Request)
    requires req.kind.Release? && req.tenant == g.tenant && req.key == CompKey(g.tenant, g.order)
    ensures
      var out := OutcomeOf(db, req);
      StockSaysYes(out) ==> (out.Committed? <==> Key(g.tenant, CompKey(g.tenant, g.order)) !in db.keys)
  {
    hide DeltaOf;
    CompKeys(g.tenant, g.order, g.order);
  }

  /** Sweeping an order keeps the invariant exactly when a release that commits finds the rows still standing for
      units. A release that is taken for a replay finds rows that stand for none. */
  lemma SweepKeeps(b: Books, g: Group, at: int)
    requires Inv(b) && Allowed(b, DoSweep(g, at))
    ensures Inv(Next(b, DoSweep(g, at))) <==> Sound(b, DoSweep(g, at))
  {
    hide OutcomeOf;
    hide After;
    hide Mark;
    hide At;
    hide HeldAt;
    hide NoNegatives;
    hide CompKey;
    hide Mirrored;
    hide RowOk;
    hide Uniform;
    hide LinesAt;
    var req := SweepRequest(b.w, g, at);
    SweepIsKeyed(b.w.stock, g, req);
    if OutcomeOf(b.w.stock, req).Committed? {
      if forall i :: 0 <= i < |g.ids| ==> IsOwed(b.w.rows[g.ids[i]], b.settled) {
        TimelySweepKeeps(b, g, at);
      } else {
        LateSweepFallsShort(b, g, at);
      }
    } else if StockSaysYes(OutcomeOf(b.w.stock, req)) {
      ReplayedSweepKeeps(b, g, at);
    } else {
      assert Next(b, DoSweep(g, at)) == b;
    }
  }

  lemma WholeOrderMembers(rows: seq<Row>, g: Group)
    requires WholeOrder(rows, g)
    ensures forall i :: 0 <= i < |rows| ==> (i in g.ids <==> Id(rows[i]) == OrderId(g.tenant, g.order))
  {
  }

  lemma TimelySweepKeeps(b: Books, g: Group, at: int)
    requires Inv(b) && WholeOrder(b.w.rows, g) && OutcomeOf(b.w.stock, SweepRequest(b.w, g, at)).Committed?
    requires forall i :: 0 <= i < |g.ids| ==> IsOwed(b.w.rows[g.ids[i]], b.settled)
    ensures Inv(b.(w := AfterGroup(b.w, g, at)))
  {
    hide OutcomeOf;
    hide After;
    hide Mark;
    hide At;
    hide HeldAt;
    hide NoNegatives;
    hide CompKey;
    var req, o := SweepRequest(b.w, g, at), OrderId(g.tenant, g.order);
    ReleasingKeepsMirror(b, req, g.ids, g.tenant, g.order, "ttl_expiry", CompKey(g.tenant, g.order), at, Expired);
    StillChecked(b.w.stock, req);
    OwnKeyOnly(b.w.stock, req, o);
    WholeOrderMembers(b.w.rows, g);
    RowsStayOk(b, b.(w := AfterGroup(b.w, g, at)), g.ids, o, Expired);
  }

  /** A spent compensation key means the order's rows stand for nothing. */
  lemma ReplayedSweepKeeps(b: Books, g: Group, at: int)
    requires Inv(b) && WholeOrder(b.w.rows, g) && Key(g.tenant, CompKey(g.tenant, g.order)) in b.w.stock.keys
    requires !OutcomeOf(b.w.stock, SweepRequest(b.w, g, at)).Committed?
    ensures Inv(b.(w := AfterGroup(b.w, g, at)))
  {
    hide OutcomeOf;
    hide After;
    hide Mark;
    hide At;
    hide HeldAt;
    hide NoNegatives;
    hide CompKey;
    var b', o := b.(w := AfterGroup(b.w, g, at)), OrderId(g.tenant, g.order);
    NotCommitted(b.w.stock, SweepRequest(b.w, g, at));
    if b' != b {
      forall i | 0 <= i < |g.ids| ensures !IsOwed(b.w.rows[g.ids[i]], b.settled) {
        assert RowOk(b, b.w.rows[g.ids[i]]) && Id(b.w.rows[g.ids[i]]) == o;
      }
      forall loc ensures At(b'.w.stock.levels, loc).reserved == HeldAt(b'.w.rows, b'.settled, loc) {
        EndingNothing(b.w.rows, g.ids, Expired, b.settled, loc);
        assert At(b.w.stock.levels, loc).reserved == HeldAt(b.w.rows, b.settled, loc);
      }
      WholeOrderMembers(b.w.rows, g);
      RowsStayOk(b, b', g.ids, o, Expired);
    }
  }

  lemma {:induction false} LinesStand(rows: seq<Row>, ids: seq<nat>, tenant: string, k: nat, loc: Location)
    requires Ids(rows, ids) && (forall i :: 0 <= i < |rows| ==> rows[i].line.quantity > 0)
    ensures SumAt(tenant, LinesAt(rows, ids), loc) >= 0
    ensures k in ids && Loc(tenant, rows[k].line) == loc ==> SumAt(tenant, LinesAt(rows, ids), loc) > 0
  {
    hide SumTo;
    if ids == [] {
      NothingSummed(tenant, LinesAt(rows, ids), loc);
    } else {
      LinesStand(rows, ids[..|ids| - 1], tenant, k, loc);
      LinesGrow(rows, ids, tenant, loc);
      assert ids == ids[..|ids| - 1] + [ids[|ids| - 1]];
    }
  }

  lemma NothingSummed(tenant: string, lines: seq<Line>, loc: Location)
    requires lines == []
    ensures SumAt(tenant, lines, loc) == 0
  {
  }

  /** A release that commits for rows that stand for nothing takes units held for others. */
  lemma LateSweepFallsShort(b: Books, g: Group, at: int)
    requires Inv(b) && WholeOrder(b.w.rows, g) && OutcomeOf(b.w.stock, SweepRequest(b.w, g, at)).Committed?
    requires !forall i :: 0 <= i < |g.ids| ==> IsOwed(b.w.rows[g.ids[i]], b.settled)
    ensures
      var b' := b.(w := AfterGroup(b.w, g, at));
      && !Mirrored(b')
      && forall loc :: loc in b.w.stock.levels ==>
           At(b'.w.stock.levels, loc).reserved
           == HeldAt(b'.w.rows, b'.settled, loc) - SumAt(g.tenant, LinesAt(b.w.rows, g.ids), loc)
  {
    hide OutcomeOf;
    hide After;
    hide Mark;
    hide At;
    hide HeldAt;
    hide NoNegatives;
    hide CompKey;
    hide LinesAt;
    hide SumTo;
    hide SortLines;
    var req, b' := SweepRequest(b.w, g, at), b.(w := AfterGroup(b.w, g, at));
    var lines := LinesAt(b.w.rows, g.ids);
    var j :| 0 <= j < |g.ids| && !IsOwed(b.w.rows[g.ids[j]], b.settled);
    forall i | 0 <= i < |g.ids| ensures !IsOwed(b.w.rows[g.ids[i]], b.settled) {
      assert Id(b.w.rows[g.ids[i]]) == Id(b.w.rows[g.ids[j]]);
    }
    forall loc | loc in b.w.stock.levels
      ensures At(b'.w.stock.levels, loc).reserved
           == HeldAt(b'.w.rows, b'.settled, loc) - SumAt(g.tenant, lines, loc)
    {
      CommittedMoves(b.w.stock, req, loc);
      SortedSums(Request(Kind.Release(g.order, "ttl_expiry"), g.tenant, CompKey(g.tenant, g.order), lines, at), loc);
      EndingNothing(b.w.rows, g.ids, Expired, b.settled, loc);
      assert At(b.w.stock.levels, loc).reserved == HeldAt(b.w.rows, b.settled, loc);
    }
    var k := g.ids[j];
    assert forall i :: 0 <= i < |b.w.rows| ==> RowOk(b, b.w.rows[i]);
    var loc := Loc(b.w.rows[k].tenant, b.w.rows[k].line);
    LinesStand(b.w.rows, g.ids, g.tenant, k, loc);
    assert At(b'.w.stock.levels, loc).reserved != HeldAt(b'.w.rows, b'.settled, loc);
  }

  // ----- reserving -----

  lemma SortedIsCounted(lines: seq<Line>)
    requires Counted(lines)
    ensures Counted(SortLines(lines))
  {
    SortedIsAscending(lines);
    var sorted := SortLines(lines);
    forall i | 0 <= i < |sorted| ensures sorted[i].quantity >= 0 {
      assert sorted[i] in multiset(lines);
    }
  }

  lemma HeldCanReturn(was: map<Location, Level>, now: map<Location, Level>, comp: Request)
    requires comp.kind.Release? && Counted(comp.lines) && NoNegatives(was) && NoNegatives(now)
    requires forall loc ::
               At(now, loc).available == At(was, loc).available - SumAt(comp.tenant, comp.lines, loc)
               && At(now, loc).reserved == At(was, loc).reserved + SumAt(comp.tenant, comp.lines, loc)
    ensures CanMove(now, comp)
    ensures forall loc :: loc !in now ==> SumAt(comp.tenant, comp.lines, loc) == 0
  {
    hide SumTo;
    forall loc
      ensures loc in now ==>
                var sum := SumAt(comp.tenant, comp.lines, loc);
                now[loc].reserved >= sum && InInt32(now[loc].available + sum)
      ensures loc !in now ==> SumAt(comp.tenant, comp.lines, loc) == 0
    {
      SumsGrow(comp.tenant, comp.lines, |comp.lines|, |comp.lines|, loc);
      assert At(now, loc).available == At(was, loc).available - SumAt(comp.tenant, comp.lines, loc);
    }
  }

  /** A hold whose recording fails is undone exactly. */
  lemma CompensationUndoes(b: Books, c: ReserveCall)
    requires Inv(b) && Allowed(b, DoReserve(c)) && OutcomeOf(b.w.stock, HoldRequest(c)).Committed?
    ensures
      var held := After(b.w.stock, HoldRequest(c));
      var comp := UndoRequest(c);
      && OutcomeOf(held, comp).Committed?
      && held.checks && NoNegatives(After(held, comp).levels)
      && forall loc :: At(After(held, comp).levels, loc).reserved == At(b.w.stock.levels, loc).reserved
                    && At(After(held, comp).levels, loc).available == At(b.w.stock.levels, loc).available
  {
    hide OutcomeOf;
    hide After;
    hide SortLines;
    hide At;
    hide SumTo;
    var hold := HoldRequest(c);
    var held := After(b.w.stock, hold);
    var comp := UndoRequest(c);
    StillChecked(b.w.stock, hold);
    KeysKept(b, hold);
    CompKeys(c.tenant, c.order, c.order);
    forall loc
      ensures
        var sum, was, now := SumAt(c.tenant, comp.lines, loc), At(b.w.stock.levels, loc), At(held.levels, loc);
        NoNegatives(held.levels) && now.available == was.available - sum && now.reserved == was.reserved + sum
    {
      CommittedMoves(b.w.stock, hold, loc);
    }
    CommittedMoves(b.w.stock, hold, Location("", "", ""));
    assert !IsDuplicate(held, comp);
    SortedIsCounted(c.items);
    HeldCanReturn(b.w.stock.levels, held.levels, comp);
    MoveCommitsExactlyWhen(held, comp);
    forall loc
      ensures At(After(held, comp).levels, loc).reserved == At(b.w.stock.levels, loc).reserved
      ensures At(After(held, comp).levels, loc).available == At(b.w.stock.levels, loc).available
    {
      CommittedMoves(held, comp, loc);
    }
    CommittedMoves(held, comp, Location("", "", ""));
  }

  /** A spent hold key makes the hold a replay. */
  lemma ReplayedHold(db: Tables, c: ReserveCall)
    requires c.items != [] && c.key != "" && Key(c.tenant, c.key) in db.keys
    ensures OutcomeOf(db, HoldRequest(c)) == Duplicate([]) && After(db, HoldRequest(c)) == db
  {
    hide DeltaOf;
    hide SortLines;
    SortedIsAscending(c.items);
    assert |multiset(SortLines(c.items))| == |multiset(c.items)|;
  }

  lemma {:induction false} NewRowsAre(c: ReserveCall, n: nat, i: nat)
    requires i < n <= |c.items|
    ensures NewRows(c, n)[i] == Row(c.tenant, c.order, c.items[i], Active, c.expires)
    decreases n
  {
    if i < n - 1 { NewRowsAre(c, n - 1, i); }
  }

  lemma RecordKeeps(b: Books, c: ReserveCall)
    requires Inv(b) && Allowed(b, DoReserve(c)) && c.items != [] && OutcomeOf(b.w.stock, HoldRequest(c)).Committed?
    requires !c.fails && Persistable(c.items)
    ensures Inv(Next(b, DoReserve(c)))
  {
    hide OutcomeOf;
    hide After;
    hide SortLines;
    hide HeldAt;
    hide SumTo;
    hide At;
    hide CompKey;
    var b', hold := Next(b, DoReserve(c)), HoldRequest(c);
    StillChecked(b.w.stock, hold);
    KeysKept(b, hold);
    assert b'.w == World(After(b.w.stock, hold), b.w.rows + NewRows(c, |c.items|), Recorded(b.w.keys, c.tenant, c.key));
    forall k | 0 <= k < |b'.w.rows| ensures b'.w.rows[k].line.quantity > 0 {
      if k < |b.w.rows| { assert RowOk(b, b.w.rows[k]); } else { NewRowsAre(c, |c.items|, k - |b.w.rows|); }
    }
    forall loc ensures At(b'.w.stock.levels, loc).reserved == HeldAt(b'.w.rows, b'.settled, loc) {
      CommittedMoves(b.w.stock, hold, loc);
      RecordingRows(b.w.rows, c, |c.items|, b.settled, loc);
      SortedSums(Request(Kind.Reserve(c.order), c.tenant, c.key, c.items, c.at), loc);
    }
    CommittedMoves(b.w.stock, hold, Location("", "", ""));
    forall i | 0 <= i < |b'.w.rows| ensures RowOk(b', b'.w.rows[i]) {
      if i < |b.w.rows| {
        assert RowOk(b, b.w.rows[i]);
      } else {
        NewRowsAre(c, |c.items|, i - |b.w.rows|);
        HasStock(b', i);
      }
    }
    forall i, j | 0 <= i < |b'.w.rows| && 0 <= j < |b'.w.rows| && Id(b'.w.rows[i]) == Id(b'.w.rows[j])
      ensures b'.w.rows[i].status == b'.w.rows[j].status
    {
      if i >= |b.w.rows| { NewRowsAre(c, |c.items|, i - |b.w.rows|); }
      if j >= |b.w.rows| { NewRowsAre(c, |c.items|, j - |b.w.rows|); }
    }
  }

  /** Where rows stand for units there is a stock row. */
  lemma HasStock(b: Books, i: nat)
    requires Mirrored(b) && i < |b.w.rows| && IsOwed(b.w.rows[i], b.settled)
    requires forall k :: 0 <= k < |b.w.rows| ==> b.w.rows[k].line.quantity > 0
    ensures Loc(b.w.rows[i].tenant, b.w.rows[i].line) in b.w.stock.levels
  {
    hide HeldAt;
    var loc := Loc(b.w.rows[i].tenant, b.w.rows[i].line);
    HeldIsPositive(b.w.rows, b.settled, i, loc);
    assert At(b.w.stock.levels, loc).reserved == HeldAt(b.w.rows, b.settled, loc);
  }

  lemma {:induction false} HeldIsPositive(rows: seq<Row>, settled: set<OrderId>, i: nat, loc: Location)
    requires i < |rows| && IsOwed(rows[i], settled) && Loc(rows[i].tenant, rows[i].line) == loc
    requires forall k :: 0 <= k < |rows| ==> rows[k].line.quantity > 0
    ensures HeldAt(rows, settled, loc) > 0
  {
    var n := |rows| - 1;
    if i < n { HeldIsPositive(rows[..n], settled, i, loc); } else { HeldIsCounted(rows[..n], settled, loc); }
  }

  /** What a caller of Reserve is told. Under a key new to both services a call with persistable items is told Ok
      exactly when every row it names is there, unlocked and covers its lines, and otherwise which SKUs fell short,
      nothing having changed; it is told of an error when the rows could not be recorded. Under a key both have recorded
      it is told of a replay. */
  lemma ReserveAnswers(w: World, c: ReserveCall)
    requires c.items != [] && c.key != "" && Persistable(c.items) && (w.stock.checks ==> NoNegatives(w.stock.levels))
    requires Room(w.stock.levels, HoldRequest(c))
    ensures
      var unused := Key(c.tenant, c.key) !in w.stock.keys && Key(c.tenant, c.key) !in w.keys;
      var covered := EveryLineCovered(w.stock.levels, HoldRequest(c));
      && (unused && !c.fails && covered ==> ReserveReply(w, c) == Ok)
      && (unused && !covered ==>
            && ReserveReply(w, c)
               == Lacking(RefusedSkus(w.stock.levels, c.tenant, HoldRequest(c).lines, |HoldRequest(c).lines|))
            && AfterReserve(w, c) == w)
      && (unused && c.fails && covered ==> ReserveReply(w, c) == Error)
      && (Key(c.tenant, c.key) in w.stock.keys && Key(c.tenant, c.key) in w.keys && !c.fails ==>
            ReserveReply(w, c) == Replayed && AfterReserve(w, c) == w)
  {
    hide OutcomeOf;
    hide After;
    hide SortLines;
    hide RefusedSkus;
    hide NoNegatives;
    hide Room;
    SortedIsAscending(c.items);
    SameMembers(SortLines(c.items), c.items);
    if Key(c.tenant, c.key) in w.stock.keys {
      ReplayedHold(w.stock, c);
    } else {
      SortedIsCounted(c.items);
      ReportsRefusedSkus(w.stock, HoldRequest(c));
    }
  }

  lemma ReserveKeeps(b: Books, c: ReserveCall)
    requires Inv(b) && Allowed(b, DoReserve(c))
    ensures Inv(Next(b, DoReserve(c)))
  {
    var hold := HoldRequest(c);
    FreshSaysYes(b.w.stock, hold);
    if c.items != [] && StockSaysYes(OutcomeOf(b.w.stock, hold)) {
      if c.fails || !Persistable(c.items) {
        CompensationKeeps(b, c);
      } else {
        RecordKeeps(b, c);
      }
    }
  }

  lemma FreshSaysYes(db: Tables, req: Request)
    requires !IsDuplicate(db, req)
    ensures StockSaysYes(OutcomeOf(db, req)) ==> OutcomeOf(db, req).Committed?
  {
  }

  lemma CompensationKeeps(b: Books, c: ReserveCall)
    requires Inv(b) && Allowed(b, DoReserve(c)) && c.items != [] && OutcomeOf(b.w.stock, HoldRequest(c)).Committed?
    requires c.fails || !Persistable(c.items)
    ensures Inv(Next(b, DoReserve(c)))
  {
    hide OutcomeOf;
    hide After;
    hide SortLines;
    hide At;
    hide HeldAt;
    hide NoNegatives;
    hide CompKey;
    var b', hold := Next(b, DoReserve(c)), HoldRequest(c);
    var held := After(b.w.stock, hold);
    var comp := UndoRequest(c);
    assert b' == b.(w := b.w.(stock := After(held, comp)));
    CompensationUndoes(b, c);
    StillChecked(b.w.stock, hold);
    StillChecked(held, comp);
    KeysKept(b, hold);
    OwnKeyOnly(held, comp, OrderId(c.tenant, c.order));
    forall loc ensures At(b'.w.stock.levels, loc).reserved == HeldAt(b'.w.rows, b'.settled, loc) {
      assert At(b.w.stock.levels, loc).reserved == HeldAt(b.w.rows, b.settled, loc);
    }
    forall i | 0 <= i < |b'.w.rows| ensures RowOk(b', b'.w.rows[i]) {
      assert RowOk(b, b.w.rows[i]);
    }
  }

  /** An allowed step keeps the invariant exactly when it comes in time. */
  lemma StepKeeps(b: Books, step: Step)
    requires Inv(b) && Allowed(b, step)
    ensures Inv(Next(b, step)) <==> Sound(b, step)
  {
    hide Inv;
    match step
    case DoReserve(c) => ReserveKeeps(b, c);
    case DoRelease(o) => ReleaseKeeps(b, o);
    case DoAllocate(o) => AllocateKeeps(b, o);
    case DoConfirm(req) => ConfirmKeeps(b, req);
    case DoSweep(g, at) => SweepKeeps(b, g, at);
    case DoStock(req) => StockKeeps(b, req);
    case DoPrune(stockKeys, keys) => PruneKeeps(b, stockKeys, keys);
  }

  ghost predicate IsRun(run: seq<Books>, steps: seq<Step>) {
    && |run| == |steps| + 1
    && forall i :: 0 <= i < |steps| ==> Allowed(run[i], steps[i]) && run[i + 1] == Next(run[i], steps[i])
  }

  const START := Books(World(EmptyTables(true), [], {}), {})

  lemma StartHolds()
    ensures Inv(START)
  {
  }

  lemma {:induction false} SoundSoFar(run: seq<Books>, steps: seq<Step>, n: nat)
    requires IsRun(run, steps) && run[0] == START && n <= |steps|
    requires forall m :: 0 <= m < n ==> Allowed(run[m], steps[m]) && Sound(run[m], steps[m])
    ensures Inv(run[n])
    decreases n
  {
    hide Inv;
    hide Allowed;
    hide Next;
    hide Sound;
    if n == 0 {
      StartHolds();
    } else {
      SoundSoFar(run, steps, n - 1);
      assert Allowed(run[n - 1], steps[n - 1]) && run[n] == Next(run[n - 1], steps[n - 1]);
      StepKeeps(run[n - 1], steps[n - 1]);
    }
  }

  /** The hold invariant over whole runs: whatever allowed sequence of reservations, failures with compensation,
      releases, allocations, confirmations, sweeps, stock calls and pruning happens, every location's reserved bucket
      is at every moment the sum of its ACTIVE rows plus its ALLOCATED rows of unconfirmed orders if and only if every
      confirmation and every sweep comes in time. */
  lemma HoldsMirrorRows(run: seq<Books>, steps: seq<Step>)
    requires IsRun(run, steps) && run[0] == START
    ensures (forall n :: 0 <= n < |run| ==> Inv(run[n]))
            <==> (forall n :: 0 <= n < |steps| ==> Allowed(run[n], steps[n]) && Sound(run[n], steps[n]))
  {
    hide Inv;
    hide Allowed;
    hide Next;
    hide Sound;
    if forall n :: 0 <= n < |steps| ==> Allowed(run[n], steps[n]) && Sound(run[n], steps[n]) {
      forall n | 0 <= n < |run| ensures Inv(run[n]) { SoundSoFar(run, steps, n); }
    }
    if forall n :: 0 <= n < |run| ==> Inv(run[n]) {
      forall n | 0 <= n < |steps| ensures Allowed(run[n], steps[n]) && Sound(run[n], steps[n]) {
        assert Inv(run[n]) && Inv(run[n + 1]) && Allowed(run[n], steps[n]) && run[n + 1] == Next(run[n], steps[n]);
        StepKeeps(run[n], steps[n]);
      }
    }
  }

  // ----- rows leave ACTIVE once -----

  /** A row keeps everything but its status, and its status only ever leaves ACTIVE. */
  predicate Settles(was: Row, now: Row) {
    now == was || (was.status == Active && now.status != Active && now == was.(status := now.status))
  }

  /** The sweeper marks only rows that are still active, or expired already. */
  ghost predicate Timely(b: Books, step: Step)
    requires Allowed(b, step)
  {
    step.DoSweep? && StockSaysYes(OutcomeOf(b.w.stock, SweepRequest(b.w, step.g, step.at))) ==>
      forall i :: 0 <= i < |step.g.ids| ==> b.w.rows[step.g.ids[i]].status in {Active, Expired}
  }

  ghost predicate AllSettle(was: seq<Row>, now: seq<Row>) {
    |was| <= |now| && forall k :: 0 <= k < |was| ==> Settles(was[k], now[k])
  }

  lemma SweepSettles(b: Books, g: Group, at: int)
    requires Allowed(b, DoSweep(g, at))
    ensures AllSettle(b.w.rows, AfterGroup(b.w, g, at).rows) <==> Timely(b, DoSweep(g, at))
  {
    hide OutcomeOf;
    hide After;
    hide Mark;
    var rows, rows' := b.w.rows, AfterGroup(b.w, g, at).rows;
    if StockSaysYes(OutcomeOf(b.w.stock, SweepRequest(b.w, g, at))) {
      forall k | 0 <= k < |rows| ensures rows'[k] == if k in g.ids then rows[k].(status := Expired) else rows[k] {
        MarkAt(rows, g.ids, Expired, k);
      }
      if AllSettle(rows, rows') {
        forall i | 0 <= i < |g.ids| ensures rows[g.ids[i]].status in {Active, Expired} {
          assert Settles(rows[g.ids[i]], rows'[g.ids[i]]);
        }
      }
    }
  }

  /** In one step every row stays as it is or leaves ACTIVE, exactly unless the sweeper marks a row that has left it. */
  lemma RowsSettleOnce(b: Books, step: Step)
    requires Allowed(b, step)
    ensures AllSettle(b.w.rows, Next(b, step).w.rows) <==> Timely(b, step)
  {
    hide OutcomeOf;
    hide After;
    hide Mark;
    hide ActiveIds;
    match step
    case DoRelease(o) => MarkingSettles(b.w.rows, ActiveIds(b.w.rows, o.tenant, o.order), Released);
    case DoAllocate(o) => MarkingSettles(b.w.rows, ActiveIds(b.w.rows, o.tenant, o.order), Allocated);
    case DoSweep(g, at) => SweepSettles(b, g, at);
    case _ =>
  }

  lemma MarkingSettles(rows: seq<Row>, ids: seq<nat>, status: Status)
    requires Ids(rows, ids) && status != Active
    requires forall i :: 0 <= i < |ids| ==> rows[ids[i]].status == Active
    ensures AllSettle(rows, Mark(rows, ids, status))
  {
    forall k | 0 <= k < |rows| ensures Settles(rows[k], Mark(rows, ids, status)[k]) {
      MarkAt(rows, ids, status, k);
    }
  }

  lemma {:induction false} SettledSoFar(run: seq<Books>, steps: seq<Step>, m: nat, n: nat)
    requires IsRun(run, steps) && m <= n <= |steps|
    requires forall i :: 0 <= i < |steps| ==> Allowed(run[i], steps[i]) && Timely(run[i], steps[i])
    ensures AllSettle(run[m].w.rows, run[n].w.rows)
    decreases n
  {
    hide Allowed;
    hide Next;
    hide Timely;
    if m < n {
      SettledSoFar(run, steps, m, n - 1);
      assert Timely(run[n - 1], steps[n - 1]);
      RowsSettleOnce(run[n - 1], steps[n - 1]);
    }
  }

  /** Over every run, a row once released, expired or allocated is that for good, if and only if the sweeper never
      marks a row that has left ACTIVE since it was read. */
  lemma SettledForGood(run: seq<Books>, steps: seq<Step>)
    requires IsRun(run, steps)
    ensures (forall m, n :: 0 <= m <= n < |run| ==> AllSettle(run[m].w.rows, run[n].w.rows))
            <==> (forall i :: 0 <= i < |steps| ==> Allowed(run[i], steps[i]) && Timely(run[i], steps[i]))
  {
    hide Allowed;
    hide Next;
    hide Timely;
    hide AllSettle;
    if forall i :: 0 <= i < |steps| ==> Allowed(run[i], steps[i]) && Timely(run[i], steps[i]) {
      forall m, n | 0 <= m <= n < |run| ensures AllSettle(run[m].w.rows, run[n].w.rows) {
        SettledSoFar(run, steps, m, n);
      }
    }
    if forall m, n :: 0 <= m <= n < |run| ==> AllSettle(run[m].w.rows, run[n].w.rows) {
      forall i | 0 <= i < |steps| ensures Allowed(run[i], steps[i]) && Timely(run[i], steps[i]) {
        assert Allowed(run[i], steps[i]) && run[i + 1] == Next(run[i], steps[i]);
        assert AllSettle(run[i].w.rows, run[i + 1].w.rows);
        RowsSettleOnce(run[i], steps[i]);
      }
    }
  }
}
