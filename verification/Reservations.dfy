/**
 The reservation service: rows that mirror stock holds, and the TTL sweeper. The stock service is
 called through its RPCs; each reservation RPC and each group of a sweep is one atomic step here.
 */
module Reservations {
  import opened StockLedger
  import opened StockService

  datatype Status = Active | Allocated | Released | Expired

  datatype Row = Row(tenant: string, order: string, line: Line, status: Status, expires: int)

  /** The stock database, the reservation rows (a row's id is its position) and the service's own key ledger. */
  datatype World = World(stock: Tables, rows: seq<Row>, keys: set<Key>)

  datatype Reply = Ok | Replayed | Lacking(skus: seq<string>) | Error

  /** The compensation key shared by the sweeper, the saga and a failed Reserve. */
  function CompKey(tenant: string, order: string): string {
    "comp:" + tenant + ":" + order
  }

  predicate InUse(keys: set<Key>, tenant: string, key: string) {
    key != "" && Key(tenant, key) in keys
  }

  function Recorded(keys: set<Key>, tenant: string, key: string): set<Key> {
    if key == "" then keys else keys + {Key(tenant, key)}
  }

  // ----- rows -----

  predicate Ids(rows: seq<Row>, ids: seq<nat>) {
    forall i :: 0 <= i < |ids| ==> ids[i] < |rows|
  }

  function LinesAt(rows: seq<Row>, ids: seq<nat>): seq<Line>
    requires Ids(rows, ids)
  {
    if ids == [] then [] else LinesAt(rows, ids[..|ids| - 1]) + [rows[ids[|ids| - 1]].line]
  }

  /** The rows after each of `ids` is given a status. */
  function Mark(rows: seq<Row>, ids: seq<nat>, status: Status): (r: seq<Row>)
    requires Ids(rows, ids)
    ensures |r| == |rows|
  {
    if ids == [] then rows
    else
      var before := Mark(rows, ids[..|ids| - 1], status);
      before[ids[|ids| - 1] := before[ids[|ids| - 1]].(status := status)]
  }

  /** GetActiveReservationsByOrder, in id order. */
  function ActiveIds(rows: seq<Row>, tenant: string, order: string): (ids: seq<nat>)
    ensures Ids(rows, ids)
    ensures forall i :: 0 <= i < |ids| ==>
              rows[ids[i]].status == Active && rows[ids[i]].tenant == tenant && rows[ids[i]].order == order
    ensures forall i, j :: 0 <= i < j < |ids| ==> ids[i] < ids[j]
  {
    if rows == [] then []
    else
      var r, before := rows[|rows| - 1], ActiveIds(rows[..|rows| - 1], tenant, order);
      if r.status == Active && r.tenant == tenant && r.order == order then before + [|rows| - 1] else before
  }

  // ----- Reserve -----

  /** `fails` is whether the transaction that persists the rows hits an infrastructure error; it can do so whether
      or not the key is already recorded. */
  datatype ReserveCall = ReserveCall(
    tenant: string, order: string, key: string, items: seq<Line>, at: int, expires: int, fails: bool)

  function HoldRequest(c: ReserveCall): Request {
    InLockOrder(Request(Kind.Reserve(c.order), c.tenant, c.key, c.items, c.at))
  }

  function ReleaseRequest(tenant: string, order: string, reason: string, key: string, lines: seq<Line>,
                          at: int): Request
  {
    InLockOrder(Request(Kind.Release(order, reason), tenant, key, lines, at))
  }

  /** The reservation table's CHECK (quantity > 0). */
  predicate Persistable(items: seq<Line>) {
    forall i :: 0 <= i < |items| ==> items[i].quantity > 0
  }

  function NewRows(c: ReserveCall, n: nat): (r: seq<Row>)
    requires n <= |c.items|
    ensures |r| == n
  {
    if n == 0 then [] else NewRows(c, n - 1) + [Row(c.tenant, c.order, c.items[n - 1], Active, c.expires)]
  }

  predicate StockSaysYes(o: Outcome) {
    o.Committed? || o.Duplicate?
  }

  /** The release that gives back a hold whose rows could not be recorded. */
  function UndoRequest(c: ReserveCall): Request {
    ReleaseRequest(c.tenant, c.order, "reserve_failure", CompKey(c.tenant, c.order), c.items, c.at)
  }

  /** Hold the stock, then record the rows; when recording fails, release the hold under the compensation key. */
  function AfterReserve(w: World, c: ReserveCall): World {
    var out, stock := OutcomeOf(w.stock, HoldRequest(c)), After(w.stock, HoldRequest(c));
    if c.items == [] || !StockSaysYes(out) then w
    else if c.fails || (!InUse(w.keys, c.tenant, c.key) && !Persistable(c.items)) then
      w.(stock := After(stock, UndoRequest(c)))
    else if InUse(w.keys, c.tenant, c.key) then w.(stock := stock)
    else World(stock, w.rows + NewRows(c, |c.items|), Recorded(w.keys, c.tenant, c.key))
  }

  function ReserveReply(w: World, c: ReserveCall): Reply {
    var out := OutcomeOf(w.stock, HoldRequest(c));
    if c.items == [] then Error
    else if out.Insufficient? then Lacking(out.skus)
    else if !StockSaysYes(out) then Error
    else if c.fails then Error
    else if InUse(w.keys, c.tenant, c.key) then Replayed
    else if !Persistable(c.items) then Error
    else Ok
  }

  // ----- Release and AllocateReservation -----

  datatype OrderCall = OrderCall(tenant: string, order: string, reason: string, key: string, at: int)

  function ReleaseOf(w: World, c: OrderCall): Request {
    ReleaseRequest(c.tenant, c.order, c.reason, c.key, LinesAt(w.rows, ActiveIds(w.rows, c.tenant, c.order)), c.at)
  }

  /** Stock first, then the rows; a stock error rolls the whole call back, key included. */
  function AfterRelease(w: World, c: OrderCall): World {
    var ids := ActiveIds(w.rows, c.tenant, c.order);
    if InUse(w.keys, c.tenant, c.key) then w
    else if ids == [] then w.(keys := Recorded(w.keys, c.tenant, c.key))
    else if !StockSaysYes(OutcomeOf(w.stock, ReleaseOf(w, c))) then w
    else World(After(w.stock, ReleaseOf(w, c)), Mark(w.rows, ids, Released), Recorded(w.keys, c.tenant, c.key))
  }

  function ReleaseReply(w: World, c: OrderCall): Reply {
    if InUse(w.keys, c.tenant, c.key) then Replayed
    else if ActiveIds(w.rows, c.tenant, c.order) == [] || StockSaysYes(OutcomeOf(w.stock, ReleaseOf(w, c))) then Ok
    else Error
  }

  function AfterAllocate(w: World, c: OrderCall): World {
    if InUse(w.keys, c.tenant, c.key) then w
    else w.(rows := Mark(w.rows, ActiveIds(w.rows, c.tenant, c.order), Allocated),
            keys := Recorded(w.keys, c.tenant, c.key))
  }

  // ----- the sweeper -----

  /** One release unit: the batch rows of one order. */
  datatype Group = Group(tenant: string, order: string, ids: seq<nat>)

  function SweepRequest(w: World, g: Group, at: int): Request
    requires Ids(w.rows, g.ids)
  {
    ReleaseRequest(g.tenant, g.order, "ttl_expiry", CompKey(g.tenant, g.order), LinesAt(w.rows, g.ids), at)
  }

  function AfterGroup(w: World, g: Group, at: int): (r: World)
    requires Ids(w.rows, g.ids)
    ensures |r.rows| == |w.rows|
  {
    if StockSaysYes(OutcomeOf(w.stock, SweepRequest(w, g, at)))
    then w.(stock := After(w.stock, SweepRequest(w, g, at)), rows := Mark(w.rows, g.ids, Expired))
    else w
  }

  function AfterSweep(w: World, groups: seq<Group>, at: int): (r: World)
    requires forall i :: 0 <= i < |groups| ==> Ids(w.rows, groups[i].ids)
    ensures |r.rows| == |w.rows|
  {
    if groups == [] then w
    else
      var g, before := groups[|groups| - 1], AfterSweep(w, groups[..|groups| - 1], at);
      assert Ids(w.rows, g.ids);
      AfterGroup(before, g, at)
  }

  /** The ids of a batch that belong to one order, in batch order. */
  function Pick(rows: seq<Row>, batch: seq<nat>, tenant: string, order: string): (ids: seq<nat>)
    requires Ids(rows, batch)
    ensures Ids(rows, ids)
  {
    if batch == [] then []
    else
      var before, r := Pick(rows, batch[..|batch| - 1], tenant, order), rows[batch[|batch| - 1]];
      if r.tenant == tenant && r.order == order then before + [batch[|batch| - 1]] else before
  }

  /** The groups of a batch, in whatever order the map is walked: one per order present, each with its rows. */
  ghost predicate Grouped(rows: seq<Row>, batch: seq<nat>, groups: seq<Group>)
    requires Ids(rows, batch)
  {
    && (forall i :: 0 <= i < |groups| ==>
          groups[i].ids == Pick(rows, batch, groups[i].tenant, groups[i].order) && groups[i].ids != [])
    && (forall i, j :: 0 <= i < j < |groups| ==>
          !(groups[i].tenant == groups[j].tenant && groups[i].order == groups[j].order))
    && (forall k :: 0 <= k < |batch| ==> HasGroup(groups, rows[batch[k]].tenant, rows[batch[k]].order))
  }

  ghost predicate HasGroup(groups: seq<Group>, tenant: string, order: string) {
    exists i :: 0 <= i < |groups| && groups[i].tenant == tenant && groups[i].order == order
  }

  /** Fills the groups in place, one batch row at a time. */
  method GroupByOrder(rows: seq<Row>, batch: seq<nat>) returns (groups: seq<Group>)
    requires Ids(rows, batch)
    ensures Grouped(rows, batch, groups)
  {
    groups := [];
    for k := 0 to |batch|
      invariant Ids(rows, batch[..k])
      invariant Grouped(rows, batch[..k], groups)
    {
      var r := rows[batch[k]];
      var at := 0;
      while at < |groups| && !(groups[at].tenant == r.tenant && groups[at].order == r.order)
        invariant at <= |groups|
        invariant forall i :: 0 <= i < at ==> !(groups[i].tenant == r.tenant && groups[i].order == r.order)
      {
        at := at + 1;
      }
      ghost var was := groups;
      if at < |groups| {
        groups := groups[at := groups[at].(ids := groups[at].ids + [batch[k]])];
      } else {
        groups := groups + [Group(r.tenant, r.order, [batch[k]])];
      }
      GroupsGrow(rows, batch, k, was, groups, at);
    }
    assert batch[..|batch|] == batch;
  }

  lemma PickGrows(rows: seq<Row>, batch: seq<nat>, k: nat, tenant: string, order: string)
    requires k < |batch| && Ids(rows, batch)
    ensures
      var r := rows[batch[k]];
      Pick(rows, batch[..k + 1], tenant, order)
      == if r.tenant == tenant && r.order == order
         then Pick(rows, batch[..k], tenant, order) + [batch[k]] else Pick(rows, batch[..k], tenant, order)
  {
    assert batch[..k + 1][..k] == batch[..k];
  }

  lemma {:induction false} PickNothing(rows: seq<Row>, batch: seq<nat>, tenant: string, order: string)
    requires Ids(rows, batch)
    requires forall k :: 0 <= k < |batch| ==> !(rows[batch[k]].tenant == tenant && rows[batch[k]].order == order)
    ensures Pick(rows, batch, tenant, order) == []
  {
    if batch != [] { PickNothing(rows, batch[..|batch| - 1], tenant, order); }
  }

  /** `now` is `was` with batch[k] filed under its order. */
  ghost predicate Filed(rows: seq<Row>, batch: seq<nat>, k: nat, was: seq<Group>, now: seq<Group>, at: nat) {
    && k < |batch| && Ids(rows, batch) && at <= |was|
    && var r := rows[batch[k]];
       && (forall i :: 0 <= i < at ==> !(was[i].tenant == r.tenant && was[i].order == r.order))
       && (at < |was| ==> was[at].tenant == r.tenant && was[at].order == r.order)
       && now == if at < |was| then was[at := was[at].(ids := was[at].ids + [batch[k]])]
                 else was + [Group(r.tenant, r.order, [batch[k]])]
  }

  lemma GroupGrows(rows: seq<Row>, batch: seq<nat>, k: nat, was: seq<Group>, now: seq<Group>, at: nat, i: nat)
    requires Filed(rows, batch, k, was, now, at) && Grouped(rows, batch[..k], was) && i < |now|
    ensures now[i].ids == Pick(rows, batch[..k + 1], now[i].tenant, now[i].order) && now[i].ids != []
  {
    hide Pick;
    PickGrows(rows, batch, k, now[i].tenant, now[i].order);
    if i < |was| {
      assert was[i].ids == Pick(rows, batch[..k], was[i].tenant, was[i].order);
      if i != at && at < |was| {
        if i < at {} else { assert !(was[at].tenant == was[i].tenant && was[at].order == was[i].order); }
      }
    } else {
      NotGroupedYet(rows, batch[..k], was, now[i].tenant, now[i].order);
    }
  }

  lemma GroupsGrow(rows: seq<Row>, batch: seq<nat>, k: nat, was: seq<Group>, now: seq<Group>, at: nat)
    requires Filed(rows, batch, k, was, now, at) && Grouped(rows, batch[..k], was)
    ensures Grouped(rows, batch[..k + 1], now)
  {
    hide Pick;
    hide HasGroup;
    var upTo := batch[..k + 1];
    forall i | 0 <= i < |now|
      ensures now[i].ids == Pick(rows, upTo, now[i].tenant, now[i].order) && now[i].ids != []
    {
      GroupGrows(rows, batch, k, was, now, at, i);
    }
    GroupsStayDistinct(rows, batch, k, was, now, at);
    GroupsStayComplete(rows, batch, k, was, now, at);
  }

  lemma GroupsStayDistinct(rows: seq<Row>, batch: seq<nat>, k: nat, was: seq<Group>, now: seq<Group>, at: nat)
    requires Filed(rows, batch, k, was, now, at) && Grouped(rows, batch[..k], was)
    ensures forall i, j :: 0 <= i < j < |now| ==> !(now[i].tenant == now[j].tenant && now[i].order == now[j].order)
  {
    hide Pick;
    hide HasGroup;
    assert forall i :: 0 <= i < |was| ==> now[i].tenant == was[i].tenant && now[i].order == was[i].order;
  }

  lemma GroupsStayComplete(rows: seq<Row>, batch: seq<nat>, k: nat, was: seq<Group>, now: seq<Group>, at: nat)
    requires Filed(rows, batch, k, was, now, at) && Grouped(rows, batch[..k], was)
    ensures
      var upTo := batch[..k + 1];
      forall j :: 0 <= j < |upTo| ==> HasGroup(now, rows[upTo[j]].tenant, rows[upTo[j]].order)
  {
    hide Pick;
    var r := rows[batch[k]];
    var upTo, before := batch[..k + 1], batch[..k];
    assert now[at].tenant == r.tenant && now[at].order == r.order;
    assert HasGroup(now, r.tenant, r.order);
    assert forall i :: 0 <= i < |was| ==> now[i].tenant == was[i].tenant && now[i].order == was[i].order;
    forall j | 0 <= j < |upTo| ensures HasGroup(now, rows[upTo[j]].tenant, rows[upTo[j]].order) {
      if j < k {
        assert upTo[j] == before[j];
        StillHasGroup(was, now, rows[before[j]].tenant, rows[before[j]].order);
      }
    }
  }

  lemma StillHasGroup(was: seq<Group>, now: seq<Group>, tenant: string, order: string)
    requires HasGroup(was, tenant, order) && |was| <= |now|
    requires forall i :: 0 <= i < |was| ==> now[i].tenant == was[i].tenant && now[i].order == was[i].order
    ensures HasGroup(now, tenant, order)
  {
    var i :| 0 <= i < |was| && was[i].tenant == tenant && was[i].order == order;
    assert now[i].tenant == tenant;
  }

  lemma NotGroupedYet(rows: seq<Row>, batch: seq<nat>, groups: seq<Group>, tenant: string, order: string)
    requires Ids(rows, batch) && Grouped(rows, batch, groups)
    requires !HasGroup(groups, tenant, order)
    ensures Pick(rows, batch, tenant, order) == []
  {
    PickNothing(rows, batch, tenant, order);
  }

  class ReservationService {
    const stock: StockStore
    var rows: seq<Row>
    var keys: set<Key>

    constructor (stock: StockStore)
      ensures this.stock == stock && Now() == World(stock.Db(), [], {})
    {
      this.stock := stock;
      rows, keys := [], {};
    }

    function Now(): World
      reads this, stock
    {
      World(stock.Db(), rows, keys)
    }

    /** Inserts the key; reports whether it was already there. */
    method TryKey(tenant: string, key: string) returns (dup: bool)
      modifies this`keys
      ensures dup == InUse(old(keys), tenant, key)
      ensures keys == if dup then old(keys) else Recorded(old(keys), tenant, key)
    {
      if key == "" { return false; }
      dup := Key(tenant, key) in keys;
      keys := keys + {Key(tenant, key)};
    }

    method Reserve(c: ReserveCall) returns (reply: Reply)
      modifies this, stock
      ensures Now() == AfterReserve(old(Now()), c)
      ensures reply == ReserveReply(old(Now()), c)
    {
      hide OutcomeOf;
      hide After;
      hide SortLines;
      if |c.items| == 0 { return Error; }
      var out := stock.ReserveStock(c.tenant, c.order, c.key, c.items, c.at);
      OnlyYesChanges(old(Now()).stock, HoldRequest(c));
      match out
      case Insufficient(skus) => return Lacking(skus);
      case Invalid => return Error;
      case Internal => return Error;
      case _ =>
      reply := InsertReservations(c);
      if reply.Error? {
        var _ := stock.ReleaseStock(c.tenant, c.order, "reserve_failure", CompKey(c.tenant, c.order), c.items, c.at);
      }
    }

    /** One local transaction: the key, then a row per item; any error undoes all of it. */
    method InsertReservations(c: ReserveCall) returns (reply: Reply)
      modifies this
      ensures
        if c.fails then reply == Error && rows == old(rows) && keys == old(keys)
        else if InUse(old(keys), c.tenant, c.key) then reply == Replayed && rows == old(rows) && keys == old(keys)
        else if !Persistable(c.items) then reply == Error && rows == old(rows) && keys == old(keys)
        else reply == Ok && rows == old(rows) + NewRows(c, |c.items|) && keys == Recorded(old(keys), c.tenant, c.key)
    {
      var beganRows, beganKeys := rows, keys;
      var dup := TryKey(c.tenant, c.key);
      if dup { return if c.fails then Error else Replayed; }
      for i := 0 to |c.items|
        invariant rows == beganRows + NewRows(c, i)
        invariant forall j :: 0 <= j < i ==> c.items[j].quantity > 0
        invariant keys == Recorded(beganKeys, c.tenant, c.key)
      {
        if c.items[i].quantity <= 0 {
          rows, keys := beganRows, beganKeys;
          return Error;
        }
        rows := rows + [Row(c.tenant, c.order, c.items[i], Active, c.expires)];
      }
      if c.fails {
        rows, keys := beganRows, beganKeys;
        return Error;
      }
      reply := Ok;
    }

    /** Reads the order's active rows. */
    method ActiveByOrder(tenant: string, order: string) returns (ids: seq<nat>)
      ensures ids == ActiveIds(rows, tenant, order)
    {
      ids := [];
      for i := 0 to |rows|
        invariant ids == ActiveIds(rows[..i], tenant, order)
      {
        assert rows[..i + 1][..i] == rows[..i];
        if rows[i].status == Active && rows[i].tenant == tenant && rows[i].order == order { ids := ids + [i]; }
      }
      assert rows[..|rows|] == rows;
    }

    method LinesOf(ids: seq<nat>) returns (lines: seq<Line>)
      requires Ids(rows, ids)
      ensures lines == LinesAt(rows, ids)
    {
      lines := [];
      for i := 0 to |ids|
        invariant Ids(rows, ids[..i]) && lines == LinesAt(rows, ids[..i])
      {
        assert ids[..i + 1][..i] == ids[..i];
        lines := lines + [rows[ids[i]].line];
      }
      assert ids[..|ids|] == ids;
    }

    /** UpdateReservationStatus for each id. */
    method SetStatus(ids: seq<nat>, status: Status)
      requires Ids(rows, ids)
      modifies this`rows
      ensures rows == Mark(old(rows), ids, status)
    {
      ghost var was := rows;
      for i := 0 to |ids|
        invariant Ids(was, ids[..i]) && rows == Mark(was, ids[..i], status)
      {
        assert ids[..i + 1][..i] == ids[..i];
        rows := rows[ids[i] := rows[ids[i]].(status := status)];
      }
      assert ids[..|ids|] == ids;
    }

    method Release(c: OrderCall) returns (reply: Reply)
      modifies this, stock
      ensures Now() == AfterRelease(old(Now()), c)
      ensures reply == ReleaseReply(old(Now()), c)
    {
      hide OutcomeOf;
      hide After;
      hide SortLines;
      hide Mark;
      var beganKeys := keys;
      var dup := TryKey(c.tenant, c.key);
      if dup { return Replayed; }
      var ids := ActiveByOrder(c.tenant, c.order);
      if |ids| == 0 { return Ok; }
      var lines := LinesOf(ids);
      var out := stock.ReleaseStock(c.tenant, c.order, c.reason, c.key, lines, c.at);
      OnlyYesChanges(old(Now()).stock, ReleaseOf(old(Now()), c));
      if !StockSaysYes(out) {
        keys := beganKeys;
        return Error;
      }
      SetStatus(ids, Released);
      reply := Ok;
    }

    method AllocateReservation(c: OrderCall) returns (count: nat)
      modifies this
      ensures Now() == AfterAllocate(old(Now()), c)
      ensures count == if InUse(old(keys), c.tenant, c.key) then 0 else |ActiveIds(old(rows), c.tenant, c.order)|
    {
      var dup := TryKey(c.tenant, c.key);
      if dup { return 0; }
      var ids := ActiveByOrder(c.tenant, c.order);
      SetStatus(ids, Allocated);
      count := |ids|;
    }

    /** One pass over the fetched batch: release each order's rows together, then mark them expired; an order
        whose release fails is left for the next pass. */
    method SweepOnce(batch: seq<nat>, at: int) returns (groups: seq<Group>)
      requires Ids(rows, batch)
      modifies this, stock
      ensures Grouped(old(rows), batch, groups)
      ensures forall i :: 0 <= i < |groups| ==> Ids(old(rows), groups[i].ids)
      ensures Now() == AfterSweep(old(Now()), groups, at)
    {
      hide OutcomeOf;
      hide After;
      hide SortLines;
      hide Mark;
      groups := GroupByOrder(rows, batch);
      ghost var began := Now();
      for i := 0 to |groups|
        invariant forall j :: 0 <= j < |groups| ==> Ids(began.rows, groups[j].ids)
        invariant Now() == AfterSweep(began, groups[..i], at)
      {
        assert groups[..i + 1][..i] == groups[..i];
        SweepGroup(groups[i], at);
      }
      assert groups[..|groups|] == groups;
    }

    method SweepGroup(g: Group, at: int)
      requires Ids(rows, g.ids)
      modifies this, stock
      ensures Now() == AfterGroup(old(Now()), g, at)
    {
      hide OutcomeOf;
      hide After;
      hide SortLines;
      hide Mark;
      var lines := LinesOf(g.ids);
      var out := stock.ReleaseStock(g.tenant, g.order, "ttl_expiry", CompKey(g.tenant, g.order), lines, at);
      OnlyYesChanges(old(Now()).stock, SweepRequest(old(Now()), g, at));
      if !StockSaysYes(out) { return; }
      SetStatus(g.ids, Expired);
    }
  }

  /** A stock call that reports failure has changed nothing. */
  lemma OnlyYesChanges(db: Tables, req: Request)
    ensures !StockSaysYes(OutcomeOf(db, req)) ==> After(db, req) == db
  {
  }
}
