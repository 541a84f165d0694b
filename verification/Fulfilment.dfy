/**
 Order rows, FulfillOrder with its outbox event, and the reactor that turns the event into a stock call.
 */
module Fulfilment {
  import opened Base
  import opened StockLedger
  import opened StockService
  import opened Accounting
  import opened Effects
  import opened Pruning
  import opened AllOrNothing
  import opened Settling
  import opened Holds
  import opened CompositeKeys
  import opened OrderLines

  datatype OrderStatus = Pending | Confirmed | Fulfilled | Compensated | Failed

  /** An order row with its lines as they are read back. */
  datatype OrderRow = OrderRow(status: OrderStatus, total: int, lines: seq<OrderLine>)

  datatype OrderEvent = OrderEvent(tenant: string, aggregate: string, eventType: string, order: string,
                                   lines: seq<Line>)

  /** The order database; `keys` maps a recorded idempotency key to the payload hash stored with it. */
  datatype OrderDb = OrderDb(orders: map<OrderId, OrderRow>, outbox: seq<OrderEvent>, keys: map<Key, string>)

  // ----- CreateOrder's transaction -----

  datatype CreateCall = CreateCall(tenant: string, order: string, key: string, hash: string, lines: seq<OrderLine>)

  datatype CreateReply = Created | InvalidOrder | ReplayedOrder | Rejected

  /** The order_lines constraints: positive quantities, prices not negative, one line per SKU and warehouse. */
  predicate Storable(lines: seq<OrderLine>) {
    && (forall i :: 0 <= i < |lines| ==> lines[i].quantity > 0 && lines[i].price >= 0)
    && (forall i, j :: 0 <= i < j < |lines| ==>
          !(lines[i].sku == lines[j].sku && lines[i].warehouse == lines[j].warehouse))
  }

  function CreateReplyTo(db: OrderDb, c: CreateCall): CreateReply {
    if c.order == "" || c.lines == [] || Total(c.lines) <= 0 then InvalidOrder
    else if c.key != "" && Key(c.tenant, c.key) in db.keys then ReplayedOrder
    else if OrderId(c.tenant, c.order) in db.orders || !Storable(c.lines) then Rejected
    else Created
  }

  function WithKey(keys: map<Key, string>, tenant: string, key: string, hash: string): map<Key, string> {
    if key == "" then keys else keys[Key(tenant, key) := hash]
  }

  function AfterCreate(db: OrderDb, c: CreateCall): OrderDb {
    if CreateReplyTo(db, c) != Created then db
    else
      db.(orders := db.orders[OrderId(c.tenant, c.order) := OrderRow(Pending, Total(c.lines), c.lines)],
          keys := WithKey(db.keys, c.tenant, c.key, c.hash))
  }

  // ----- saga writes -----

  /** UpdateOrderStatus as the saga uses it: whatever the row says now is replaced. */
  function AfterWrite(db: OrderDb, id: OrderId, status: OrderStatus): OrderDb {
    if id !in db.orders then db else db.(orders := db.orders[id := db.orders[id].(status := status)])
  }

  // ----- FulfillOrder -----

  datatype FulfillCall = FulfillCall(tenant: string, order: string, key: string, hash: string)

  datatype FulfillReply = Success | NotFound | Precondition

  function StoredHash(db: OrderDb, c: FulfillCall): Option<string> {
    if c.key != "" && Key(c.tenant, c.key) in db.keys then Some(db.keys[Key(c.tenant, c.key)]) else None
  }

  /** A call that has read the order's status and not yet finished. The read takes no lock. */
  datatype Reader = Reader(call: FulfillCall, seen: Option<OrderStatus>)

  function IdOf(c: FulfillCall): OrderId {
    OrderId(c.tenant, c.order)
  }

  function ReadOrder(db: OrderDb, c: FulfillCall): Reader {
    Reader(c, if IdOf(c) in db.orders then Some(db.orders[IdOf(c)].status) else None)
  }

  /** The call writes: it saw the order confirmed, and its key is absent or still new. */
  predicate Emits(db: OrderDb, r: Reader) {
    r.seen == Some(Confirmed) && IdOf(r.call) in db.orders && StoredHash(db, r.call).None?
  }

  function FulfilledEvent(c: FulfillCall, lines: seq<Line>): OrderEvent {
    OrderEvent(c.tenant, Join(c.tenant, c.order), "order.fulfilled", c.order, lines)
  }

  /** What the call commits, whatever has become of the status it saw. */
  function AfterFinish(db: OrderDb, r: Reader): OrderDb {
    var id := IdOf(r.call);
    if !Emits(db, r) then db
    else
      OrderDb(db.orders[id := db.orders[id].(status := Fulfilled)],
              db.outbox + [FulfilledEvent(r.call, StockLines(db.orders[id].lines))],
              WithKey(db.keys, r.call.tenant, r.call.key, r.call.hash))
  }

  /** A replay under the same key and payload succeeds; every other repeat is refused. */
  function FinishReplyTo(db: OrderDb, r: Reader): FulfillReply {
    if r.seen.None? then NotFound
    else if r.seen.value != Fulfilled && r.seen.value != Confirmed then Precondition
    else if StoredHash(db, r.call) == Some(r.call.hash) || Emits(db, r) then Success
    else Precondition
  }

  /** A call with nothing between its read and its commit. */
  function AfterFulfill(db: OrderDb, c: FulfillCall): OrderDb {
    AfterFinish(db, ReadOrder(db, c))
  }

  class OrderStore {
    var orders: map<OrderId, OrderRow>
    var outbox: seq<OrderEvent>
    var keys: map<Key, string>

    constructor ()
      ensures Db() == OrderDb(map[], [], map[])
    {
      orders, outbox, keys := map[], [], map[];
    }

    function Db(): OrderDb
      reads this
    {
      OrderDb(orders, outbox, keys)
    }

    method CreateOrder(c: CreateCall) returns (reply: CreateReply)
      modifies this
      ensures Db() == AfterCreate(old(Db()), c) && reply == CreateReplyTo(old(Db()), c)
    {
      if c.order == "" || |c.lines| == 0 { return InvalidOrder; }
      var total := OrderTotal(c.lines);
      if total <= 0 { return InvalidOrder; }
      var began := keys;
      if c.key != "" {
        if Key(c.tenant, c.key) in keys { return ReplayedOrder; }
        keys := keys[Key(c.tenant, c.key) := c.hash];
      }
      if OrderId(c.tenant, c.order) in orders || !Storable(c.lines) {
        keys := began;
        return Rejected;
      }
      orders := orders[OrderId(c.tenant, c.order) := OrderRow(Pending, total, c.lines)];
      reply := Created;
    }

    method UpdateOrderStatus(id: OrderId, status: OrderStatus)
      modifies this`orders
      ensures Db() == AfterWrite(old(Db()), id, status)
    {
      if id in orders { orders := orders[id := orders[id].(status := status)]; }
    }

    /** The rest of the transaction, for a call that read the status earlier. */
    method Finish(r: Reader) returns (reply: FulfillReply)
      requires r.seen.Some? ==> IdOf(r.call) in orders
      modifies this
      ensures Db() == AfterFinish(old(Db()), r) && reply == FinishReplyTo(old(Db()), r)
    {
      var c := r.call;
      if r.seen.None? { return NotFound; }
      if r.seen.value == Fulfilled {
        if c.key == "" || Key(c.tenant, c.key) !in keys || keys[Key(c.tenant, c.key)] != c.hash { return Precondition; }
        return Success;
      }
      if r.seen.value != Confirmed { return Precondition; }
      if c.key != "" {
        if Key(c.tenant, c.key) in keys {
          if keys[Key(c.tenant, c.key)] == c.hash { return Success; }
          return Precondition;
        }
        keys := keys[Key(c.tenant, c.key) := c.hash];
      }
      var lines := ToStockLines(orders[IdOf(c)].lines);
      UpdateOrderStatus(IdOf(c), Fulfilled);
      outbox := outbox + [FulfilledEvent(c, lines)];
      reply := Success;
    }

    method FulfillOrder(c: FulfillCall) returns (reply: FulfillReply)
      modifies this
      ensures Db() == AfterFulfill(old(Db()), c) && reply == FinishReplyTo(old(Db()), ReadOrder(old(Db()), c))
    {
      var seen := if IdOf(c) in orders then Some(orders[IdOf(c)].status) else None;
      reply := Finish(Reader(c, seen));
    }
  }

  // ----- how many events -----

  /** What happens to the order database. The saga writes every status but FULFILLED; a FulfillOrder call begins by
      reading the order and finishes, if it does, at any later time. */
  datatype Step =
    | Create(create: CreateCall)
    | Write(id: OrderId, status: OrderStatus)
    | Begin(fulfil: FulfillCall)
    | Finish(i: nat)
    | Prune(removed: set<Key>)

  datatype Orders = Orders(db: OrderDb, open: seq<Reader>)

  function After1(s: Orders, step: Step): Orders {
    match step
    case Create(c) => s.(db := AfterCreate(s.db, c))
    case Write(id, status) => s.(db := AfterWrite(s.db, id, status))
    case Begin(c) => s.(open := s.open + [ReadOrder(s.db, c)])
    case Finish(i) =>
      if i < |s.open| then Orders(AfterFinish(s.db, s.open[i]), s.open[..i] + s.open[i + 1..]) else s
    case Prune(removed) => s.(db := s.db.(keys := s.db.keys - removed))
  }

  predicate SagaWrites(steps: seq<Step>) {
    forall i :: 0 <= i < |steps| && steps[i].Write? ==> steps[i].status != Fulfilled
  }

  function AfterSteps(steps: seq<Step>): Orders {
    if steps == [] then Orders(OrderDb(map[], [], map[]), [])
    else After1(AfterSteps(steps[..|steps| - 1]), steps[|steps| - 1])
  }

  predicate IsFulfilled(db: OrderDb, id: OrderId) {
    id in db.orders && db.orders[id].status == Fulfilled
  }

  /** order.fulfilled events of one order. */
  function Announced(outbox: seq<OrderEvent>, id: OrderId): nat {
    if outbox == [] then 0
    else
      var e := outbox[|outbox| - 1];
      Announced(outbox[..|outbox| - 1], id)
      + (if e.tenant == id.tenant && e.order == id.order && e.eventType == "order.fulfilled" then 1 else 0)
  }

  predicate Reopens(s: Orders, step: Step, id: OrderId) {
    step.Write? && step.id == id && IsFulfilled(s.db, id)
  }

  /** A call commits for an order that became FULFILLED after the call had seen it CONFIRMED. */
  predicate Overlaps(s: Orders, step: Step, id: OrderId) {
    && step.Finish? && step.i < |s.open| && IdOf(s.open[step.i].call) == id
    && Emits(s.db, s.open[step.i]) && IsFulfilled(s.db, id)
  }

  /** Saga writes that took the order back out of FULFILLED. */
  function Reopened(steps: seq<Step>, id: OrderId): nat {
    if steps == [] then 0
    else
      var before, step := steps[..|steps| - 1], steps[|steps| - 1];
      Reopened(before, id) + (if Reopens(AfterSteps(before), step, id) then 1 else 0)
  }

  /** Calls that committed on a status overtaken by another call. */
  function Overlapped(steps: seq<Step>, id: OrderId): nat {
    if steps == [] then 0
    else
      var before, step := steps[..|steps| - 1], steps[|steps| - 1];
      Overlapped(before, id) + (if Overlaps(AfterSteps(before), step, id) then 1 else 0)
  }

  lemma AnnouncedGrows(outbox: seq<OrderEvent>, e: OrderEvent, id: OrderId)
    ensures Announced(outbox + [e], id)
         == Announced(outbox, id)
            + (if e.tenant == id.tenant && e.order == id.order && e.eventType == "order.fulfilled" then 1 else 0)
  {
    assert (outbox + [e])[..|outbox|] == outbox;
  }

  lemma StepAnnounces(s: Orders, step: Step, id: OrderId)
    requires step.Write? ==> step.status != Fulfilled
    ensures
      var s' := After1(s, step);
      Announced(s'.db.outbox, id) + (if IsFulfilled(s.db, id) then 1 else 0)
      == Announced(s.db.outbox, id) + (if IsFulfilled(s'.db, id) then 1 else 0)
         + (if Reopens(s, step, id) then 1 else 0) + (if Overlaps(s, step, id) then 1 else 0)
  {
    hide Storable;
    hide Total;
    hide StockLines;
    hide Announced;
    if step.Finish? && step.i < |s.open| && Emits(s.db, s.open[step.i]) {
      var c := s.open[step.i].call;
      AnnouncedGrows(s.db.outbox, FulfilledEvent(c, StockLines(s.db.orders[IdOf(c)].lines)), id);
    }
  }

  /** Over every run, however the calls overlap, the order is announced exactly once for being FULFILLED now, once for
      each time a saga write reopened it, and once for each call that committed on a status another call had
      overtaken. */
  lemma {:induction false} AnnouncedExactly(steps: seq<Step>, id: OrderId)
    requires SagaWrites(steps)
    ensures Announced(AfterSteps(steps).db.outbox, id)
         == Reopened(steps, id) + Overlapped(steps, id) + if IsFulfilled(AfterSteps(steps).db, id) then 1 else 0
  {
    hide After1;
    if steps != [] {
      AnnouncedExactly(steps[..|steps| - 1], id);
      StepAnnounces(AfterSteps(steps[..|steps| - 1]), steps[|steps| - 1], id);
    }
  }

  /** Every call that finishes does so directly after its read. */
  predicate Serialised(steps: seq<Step>) {
    forall k :: 0 <= k < |steps| && steps[k].Finish? ==>
      k > 0 && steps[k - 1].Begin? && steps[k].i == |AfterSteps(steps[..k - 1]).open|
  }

  lemma {:induction false} SerialCallsDoNotOverlap(steps: seq<Step>, id: OrderId)
    requires Serialised(steps)
    ensures Overlapped(steps, id) == 0
  {
    hide AfterCreate;
    hide AfterFinish;
    if steps != [] {
      var n := |steps| - 1;
      assert forall k :: 0 <= k < n ==> steps[..n][k] == steps[k] && steps[..n][..k] == steps[..k];
      SerialCallsDoNotOverlap(steps[..n], id);
      if steps[n].Finish? {
        assert steps[..n][..n - 1] == steps[..n - 1];
      }
    }
  }

  /** So calls that do not overlap announce an order at most once unless a saga write reopens it. */
  lemma AnnouncedOnce(steps: seq<Step>, id: OrderId)
    requires SagaWrites(steps) && Serialised(steps)
    ensures Announced(AfterSteps(steps).db.outbox, id)
         == Reopened(steps, id) + if IsFulfilled(AfterSteps(steps).db, id) then 1 else 0
  {
    AnnouncedExactly(steps, id);
    SerialCallsDoNotOverlap(steps, id);
  }

  /** Two calls under different keys, or without keys, that both read the order before either commits: both announce
      it, and no saga write has come between. */
  lemma TwoReadersAnnounceTwice(db: OrderDb, first: FulfillCall, second: FulfillCall)
    requires Emits(db, ReadOrder(db, first)) && Emits(db, ReadOrder(db, second)) && IdOf(first) == IdOf(second)
    requires first.key == "" || first.key != second.key
    ensures
      var both := After1(After1(Orders(db, []), Begin(first)), Begin(second));
      var end := After1(After1(both, Step.Finish(0)), Step.Finish(0));
      Announced(end.db.outbox, IdOf(first)) == Announced(db.outbox, IdOf(first)) + 2
  {
    hide Announced;
    hide StockLines;
    hide AfterCreate;
    var lines, once := StockLines(db.orders[IdOf(first)].lines), AfterFinish(db, ReadOrder(db, first));
    var both := After1(After1(Orders(db, []), Begin(first)), Begin(second));
    assert both.open == [ReadOrder(db, first), ReadOrder(db, second)];
    assert After1(both, Step.Finish(0)) == Orders(once, [ReadOrder(db, second)]);
    AnnouncedGrows(db.outbox, FulfilledEvent(first, lines), IdOf(first));
    AnnouncedGrows(once.outbox, FulfilledEvent(second, lines), IdOf(first));
  }

  /** A run that comes late, after the order was fulfilled, and marks it CONFIRMED again lets a second call through,
      under any key not used before. */
  lemma LateConfirmAnnouncesTwice(db: OrderDb, first: FulfillCall, second: FulfillCall)
    requires Emits(db, ReadOrder(db, first)) && IdOf(second) == IdOf(first) && second.key != first.key
    requires StoredHash(db, second).None?
    ensures
      var again := AfterFulfill(AfterWrite(AfterFulfill(db, first), IdOf(first), Confirmed), second);
      Announced(again.outbox, IdOf(first)) == Announced(db.outbox, IdOf(first)) + 2
  {
    var id := IdOf(first);
    var lines := StockLines(db.orders[id].lines);
    var once := AfterFulfill(db, first);
    AnnouncedGrows(db.outbox, FulfilledEvent(first, lines), id);
    AnnouncedGrows(once.outbox, FulfilledEvent(second, lines), id);
  }

  // ----- what calls are told -----

  /** A created order waits for its saga with the lines it came with; the key is taken, so a retry under it changes
      nothing and is told so, and no call under another key can create the order again. */
  lemma CreatedOnce(db: OrderDb, c: CreateCall, again: CreateCall)
    requires CreateReplyTo(db, c) == Created && again.order != "" && again.lines != [] && Total(again.lines) > 0
    ensures
      var db', id := AfterCreate(db, c), OrderId(c.tenant, c.order);
      && id !in db.orders && db'.orders == db.orders[id := OrderRow(Pending, Total(c.lines), c.lines)]
      && db'.outbox == db.outbox && c.lines != [] && Storable(c.lines)
      && db'.keys == (if c.key == "" then db.keys else db.keys[Key(c.tenant, c.key) := c.hash])
      && (again.key == c.key != "" && again.tenant == c.tenant ==> CreateReplyTo(db', again) == ReplayedOrder)
      && (OrderId(again.tenant, again.order) == id ==> CreateReplyTo(db', again) in {ReplayedOrder, Rejected})
      && (CreateReplyTo(db', again) != Created ==> AfterCreate(db', again) == db')
  {
    hide Storable;
    hide Total;
  }

  /** A FulfillOrder call with nothing between its read and its commit. An order that is not there is not found, one
      that is neither CONFIRMED nor FULFILLED, as an order just created, is refused; nothing changes. */
  lemma FulfilRefused(db: OrderDb, c: FulfillCall)
    requires IdOf(c) in db.orders ==> db.orders[IdOf(c)].status in {Pending, Compensated, Failed}
    ensures AfterFulfill(db, c) == db
    ensures FinishReplyTo(db, ReadOrder(db, c)) == if IdOf(c) in db.orders then Precondition else NotFound
  {
  }

  /** A CONFIRMED order is fulfilled by a call under a new key or none, which succeeds. After that no call changes
      anything, and one succeeds only as the repeat of a payload recorded under its key. */
  lemma FulfilSucceedsOnce(db: OrderDb, c: FulfillCall, again: FulfillCall)
    requires IdOf(c) in db.orders && db.orders[IdOf(c)].status == Confirmed && IdOf(again) == IdOf(c)
    requires c.key == "" || Key(c.tenant, c.key) !in db.keys
    ensures
      var db' := AfterFulfill(db, c);
      && FinishReplyTo(db, ReadOrder(db, c)) == Success
      && db'.orders == db.orders[IdOf(c) := db.orders[IdOf(c)].(status := Fulfilled)]
      && db'.outbox
         == db.outbox + [OrderEvent(c.tenant, Join(c.tenant, c.order), "order.fulfilled", c.order,
                                    StockLines(db.orders[IdOf(c)].lines))]
      && AfterFulfill(db', again) == db'
      && (FinishReplyTo(db', ReadOrder(db', again)) == Success
          <==> && again.key != ""
               && if again.key == c.key then again.hash == c.hash
                  else Key(again.tenant, again.key) in db.keys && db.keys[Key(again.tenant, again.key)] == again.hash)
      && (FinishReplyTo(db', ReadOrder(db', again)) != Success ==>
            FinishReplyTo(db', ReadOrder(db', again)) == Precondition)
  {
    hide StockLines;
  }

  // ----- how an order came to be confirmed -----

  /** What the steps last said of an order. */
  function LastWord(steps: seq<Step>, id: OrderId): Option<OrderStatus> {
    if steps == [] then None
    else
      var before, step := steps[..|steps| - 1], steps[|steps| - 1];
      var s, was := AfterSteps(before), LastWord(before, id);
      match step
      case Create(c) =>
        if OrderId(c.tenant, c.order) == id && CreateReplyTo(s.db, c) == Created then Some(Pending) else was
      case Write(i, status) => if i == id && was.Some? then Some(status) else was
      case Finish(i) =>
        if i < |s.open| && IdOf(s.open[i].call) == id && Emits(s.db, s.open[i]) then Some(Fulfilled) else was
      case _ => was
  }

  lemma {:induction false} StatusIsTheLastWord(steps: seq<Step>, id: OrderId)
    ensures
      var orders := AfterSteps(steps).db.orders;
      LastWord(steps, id) == if id in orders then Some(orders[id].status) else None
  {
    hide Storable;
    hide Total;
    hide StockLines;
    if steps != [] { StatusIsTheLastWord(steps[..|steps| - 1], id); }
  }

  /** The saga marked the order CONFIRMED. */
  predicate MarkedConfirmed(steps: seq<Step>, id: OrderId) {
    exists k :: 0 <= k < |steps| && steps[k] == Write(id, Confirmed) && id in AfterSteps(steps[..k]).db.orders
  }

  /** The order passes for paid, has been announced, or some call has seen it pass for paid. */
  predicate PassesForPaid(s: Orders, id: OrderId) {
    || (id in s.db.orders && s.db.orders[id].status in {Confirmed, Fulfilled})
    || Announced(s.db.outbox, id) > 0
    || exists i ::
         0 <= i < |s.open| && IdOf(s.open[i].call) == id && s.open[i].seen in {Some(Confirmed), Some(Fulfilled)}
  }

  lemma StepPays(s: Orders, step: Step, id: OrderId)
    requires (step.Write? ==> step.status != Fulfilled) && PassesForPaid(After1(s, step), id)
    ensures PassesForPaid(s, id) || (step == Write(id, Confirmed) && id in s.db.orders)
  {
    hide Storable;
    hide Total;
    hide StockLines;
    hide Announced;
    if step.Finish? && step.i < |s.open| && Emits(s.db, s.open[step.i]) {
      var c := s.open[step.i].call;
      AnnouncedGrows(s.db.outbox, FulfilledEvent(c, StockLines(s.db.orders[IdOf(c)].lines)), id);
    }
  }

  /** Nothing is fulfilled unpaid: over every run, an order is CONFIRMED or FULFILLED, announced or seen so by a call
      only if the saga marked it CONFIRMED after it was created. */
  lemma {:induction false} ConfirmedFirst(steps: seq<Step>, id: OrderId)
    requires SagaWrites(steps) && PassesForPaid(AfterSteps(steps), id)
    ensures MarkedConfirmed(steps, id)
  {
    hide After1;
    hide PassesForPaid;
    if steps == [] {
      NobodyPaid(id);
    } else {
      var n := |steps| - 1;
      StepPays(AfterSteps(steps[..n]), steps[n], id);
      if PassesForPaid(AfterSteps(steps[..n]), id) {
        ConfirmedFirst(steps[..n], id);
        var k :| 0 <= k < n && steps[..n][k] == Write(id, Confirmed) && id in AfterSteps(steps[..n][..k]).db.orders;
        assert steps[..n][..k] == steps[..k] && steps[k] == steps[..n][k];
      }
    }
  }

  lemma NobodyPaid(id: OrderId)
    ensures !PassesForPaid(AfterSteps([]), id)
  {
  }

  // ----- what the events say -----

  /** Every stored order has lines the services accept. */
  ghost predicate OrdersSound(db: OrderDb) {
    forall id :: id in db.orders ==> db.orders[id].lines != [] && Storable(db.orders[id].lines) && id.order != ""
  }

  /** The event is keyed by its order and carries the order's stored lines. */
  predicate Faithful(db: OrderDb, e: OrderEvent) {
    var id := OrderId(e.tenant, e.order);
    id in db.orders && e.aggregate == Join(e.tenant, e.order) && e.lines == StockLines(db.orders[id].lines)
  }

  ghost predicate AllFaithful(db: OrderDb) {
    OrdersSound(db) && forall i :: 0 <= i < |db.outbox| ==> Faithful(db, db.outbox[i])
  }

  lemma StepKeepsFaithful(s: Orders, step: Step)
    requires AllFaithful(s.db)
    ensures AllFaithful(After1(s, step).db)
  {
    hide Storable;
    hide Total;
    hide StockLines;
    var db, db' := s.db, After1(s, step).db;
    assert forall id :: id in db.orders ==> id in db'.orders && db'.orders[id].lines == db.orders[id].lines;
    assert forall i :: 0 <= i < |db.outbox| ==> db'.outbox[i] == db.outbox[i];
  }

  /** Stored orders are never empty, and every order event written for one carries its key and its lines. */
  lemma {:induction false} EventsAreFaithful(steps: seq<Step>)
    ensures AllFaithful(AfterSteps(steps).db)
  {
    hide After1;
    if steps != [] {
      EventsAreFaithful(steps[..|steps| - 1]);
      StepKeepsFaithful(AfterSteps(steps[..|steps| - 1]), steps[|steps| - 1]);
    }
  }

  // ----- the reactor -----

  /** The payload as decoded; the order service writes no tenant into it. */
  datatype Payload = Payload(eventType: string, tenant: string, order: string, lines: seq<Line>)

  function PayloadOf(e: OrderEvent): Payload {
    Payload(e.eventType, "", e.order, e.lines)
  }

  function FulfilKey(tenant: string, order: string): string {
    "fulfill:" + tenant + ":" + order
  }

  function FulfilRequest(tenant: string, order: string, lines: seq<Line>, at: int): Request {
    InLockOrder(Request(Kind.Fulfill(order), tenant, FulfilKey(tenant, order), lines, at))
  }

  /** Tenant and order from the payload, or from the partition key when either is missing. */
  function Addressee(key: string, p: Payload): Parts {
    if (p.tenant == "" || p.order == "") && CutKey(key).Some? then CutKey(key).value else Parts(p.tenant, p.order)
  }

  predicate Announces(p: Payload) {
    p.eventType == "order.fulfilled"
  }

  /** The stock call a message leads to, or none when it is ignored or rejected. */
  function Reaction(key: string, p: Payload, at: int): Option<Request> {
    var to := Addressee(key, p);
    if !Announces(p) || to.tenant == "" || to.rest == "" || p.lines == [] then None
    else Some(FulfilRequest(to.tenant, to.rest, p.lines, at))
  }

  method FindAddressee(key: string, p: Payload) returns (to: Parts)
    ensures to == Addressee(key, p)
  {
    to := Parts(p.tenant, p.order);
    if to.tenant == "" || to.rest == "" {
      var i := IndexOfColon(key);
      if i >= 0 { to := Parts(key[..i], key[i + 1..]); }
    }
  }

  function AfterReaction(db: Tables, r: Option<Request>): Tables {
    match r case None => db case Some(req) => After(db, req)
  }

  predicate Accepted(db: Tables, r: Option<Request>) {
    r.Some? && (OutcomeOf(db, r.value).Committed? || OutcomeOf(db, r.value).Duplicate?)
  }

  /** Other order events are ignored; a message without an order or lines is an error, and so is a failed call. */
  method HandleOrderEvent(stock: StockStore, key: string, p: Payload, at: int) returns (ok: bool)
    modifies stock
    ensures stock.Db() == AfterReaction(old(stock.Db()), Reaction(key, p, at))
    ensures ok <==> !Announces(p) || Accepted(old(stock.Db()), Reaction(key, p, at))
  {
    hide OutcomeOf;
    hide After;
    hide SortLines;
    hide FulfilKey;
    hide Addressee;
    hide Announces;
    var announces := Announces(p);
    if !announces { return true; }
    var to := FindAddressee(key, p);
    if to.tenant == "" || to.rest == "" || |p.lines| == 0 { return false; }
    var out := stock.FulfillStock(to.tenant, to.rest, FulfilKey(to.tenant, to.rest), p.lines, at);
    ok := out.Committed? || out.Duplicate?;
  }

  /** Whose stock a message moves: the tenant and order its payload names or, unless it names both, those of its
      partition key, cut at the first colon. Only announcements with lines move any. */
  lemma ReactsExactlyWhen(key: string, p: Payload, at: int, tenant: string, order: string)
    requires tenant != "" && order != ""
    ensures Reaction(key, p, at) == Some(FulfilRequest(tenant, order, p.lines, at))
            <==> && p.eventType == "order.fulfilled" && p.lines != []
                 && if p.tenant != "" && p.order != "" then tenant == p.tenant && order == p.order
                    else key == Join(tenant, order) && ':' !in tenant
  {
    hide SortLines;
    CutRecovers(tenant, order);
    if CutKey(key) == Some(Parts(tenant, order)) {
      var i := FirstColon(key, 0);
      assert key == key[..i] + [key[i]] + key[i + 1..] == Join(tenant, order);
    }
    if Reaction(key, p, at) == Some(FulfilRequest(tenant, order, p.lines, at)) {
      assert Addressee(key, p) == Parts(tenant, order);
    }
  }

  /** When the reactor is done with an order's event. A first delivery is accepted exactly when every row it names has
      the order's units allocated, and takes exactly those; a redelivery is always accepted and takes nothing. */
  lemma AcceptedExactlyWhen(db: Tables, tenant: string, order: string, lines: seq<Line>, at: int)
    requires db.checks && NoNegatives(db.levels) && Counted(lines)
    ensures
      var req := FulfilRequest(tenant, order, lines, at);
      var again := Key(tenant, FulfilKey(tenant, order)) in db.keys;
      && (Accepted(db, Some(req))
          <==> again || forall i :: 0 <= i < |lines| ==>
                 var loc := Loc(tenant, lines[i]);
                 loc in db.levels && db.levels[loc].alloc >= SumAt(tenant, lines, loc))
      && (again || !Accepted(db, Some(req)) ==> AfterReaction(db, Some(req)) == db)
  {
    hide OutcomeOf;
    hide After;
    hide SortLines;
    hide SumTo;
    hide NoNegatives;
    var req := FulfilRequest(tenant, order, lines, at);
    FulfilKeys(tenant, order, order);
    SortedIsAscending(lines);
    SameMembers(req.lines, lines);
    forall loc ensures SumAt(tenant, req.lines, loc) == SumAt(tenant, lines, loc) {
      SumsIgnoreOrder(tenant, req.lines, lines, loc);
    }
    if IsDuplicate(db, req) {
      ReplayTells(db, req);
    } else {
      SortedIsCounted(lines);
      MoveCommitsExactlyWhen(db, req);
      assert CanMove(db.levels, req) <==> forall i :: 0 <= i < |lines| ==>
        var loc := Loc(tenant, lines[i]);
        loc in db.levels && db.levels[loc].alloc >= SumAt(tenant, lines, loc);
    }
  }

  /** An event of the order service reaches the stock service as a call for the same tenant, order and lines,
      whatever the order id, exactly when the tenant is non-empty and holds no colon. */
  lemma EventFindsItsOrder(db: OrderDb, e: OrderEvent, at: int)
    requires OrdersSound(db) && Faithful(db, e) && e.eventType == "order.fulfilled"
    ensures Reaction(e.aggregate, PayloadOf(e), at) == Some(FulfilRequest(e.tenant, e.order, e.lines, at))
            <==> e.tenant != "" && ':' !in e.tenant
  {
    hide Storable;
    hide SortLines;
    CutRecovers(e.tenant, e.order);
    assert CutKey(e.aggregate).Some? by { assert e.aggregate[|e.tenant|] == ':'; }
    var to := Addressee(e.aggregate, PayloadOf(e));
    assert e.lines != [];
    if Reaction(e.aggregate, PayloadOf(e), at) == Some(FulfilRequest(e.tenant, e.order, e.lines, at)) {
      assert to == Parts(e.tenant, e.order);
    }
  }

  lemma FulfilKeys(tenant: string, a: string, b: string)
    ensures FulfilKey(tenant, a) != "" && (FulfilKey(tenant, a) == FulfilKey(tenant, b) <==> a == b)
  {
    var n := |"fulfill:" + tenant + ":"|;
    assert FulfilKey(tenant, a)[n..] == a;
    assert FulfilKey(tenant, b)[n..] == b;
  }

  /** The call made for a delivery of the order's event. */
  predicate Delivers(op: Op, tenant: string, order: string, lines: seq<Line>) {
    op.Call? && op.req == FulfilRequest(tenant, order, lines, op.req.at)
  }

  lemma DeliveryIs(op: Op, tenant: string, order: string, lines: seq<Line>)
    requires Delivers(op, tenant, order, lines)
    ensures op.req.kind == Kind.Fulfill(order) && op.req.tenant == tenant
    ensures op.req.key == FulfilKey(tenant, order) && op.req.key != ""
    ensures forall loc :: SumAt(tenant, op.req.lines, loc) == SumAt(tenant, lines, loc)
  {
    var req := Request(Kind.Fulfill(order), tenant, FulfilKey(tenant, order), lines, op.req.at);
    forall loc ensures SumAt(tenant, op.req.lines, loc) == SumAt(tenant, lines, loc) { SortedSums(req, loc); }
    FulfilKeys(tenant, order, order);
  }

  /** End to end: the first delivery that commits lowers allocated by the order's lines, at every location, and
      moves nothing else; every other delivery of the event within the retention of its key, whatever comes
      between, changes no table. */
  lemma FulfilledOnce(db: Tables, events: seq<Event>, retention: int, p: nat, q: nat, tenant: string, order: string,
                      lines: seq<Line>, loc: Location)
    requires TimedRun(db, events, retention) && p < q < |events|
    requires Delivers(events[p].op, tenant, order, lines) && Delivers(events[q].op, tenant, order, lines)
    requires
      var before := Run(db, OpsOf(events[..p]));
      before.checks && NoNegatives(before.levels) && Commits(before, events[p].op)
    requires events[q].now <= events[p].now + retention
    ensures
      var was, now := At(Run(db, OpsOf(events[..p])).levels, loc), At(Run(db, OpsOf(events[..p + 1])).levels, loc);
      && now.alloc == was.alloc - SumAt(tenant, lines, loc)
      && now.available == was.available && now.reserved == was.reserved
    ensures Run(db, OpsOf(events[..q + 1])) == Run(db, OpsOf(events[..q]))
  {
    hide Run;
    hide OpsOf;
    hide TimedRun;
    hide FulfilKey;
    hide At;
    hide OutcomeOf;
    hide After;
    hide SumTo;
    hide NoNegatives;
    DeliveryIs(events[p].op, tenant, order, lines);
    DeliveryIs(events[q].op, tenant, order, lines);
    ExactlyOnceWhileRetained(db, events, retention, p, q);
    RunOneMore(db, events, p);
    var before := Run(db, OpsOf(events[..p]));
    CommittedMoves(before, events[p].op.req, loc);
  }
}
