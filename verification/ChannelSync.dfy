/**
 The channel consumer: it pushes each adjusted event's absolute availability to the sales channel and then,
 under the event's id, records it in the projection. The push is not keyed, so a redelivery shows the channel
 an old value again. An event whose recording keeps failing is passed over, and if it is redelivered and recorded
 after a newer one the projection goes back too. Deficit alerts are sent on and then filed under the event's id in
 the same way.
 */
module ChannelSync {
  import opened Base
  import opened StockLedger
  import opened CompositeKeys

  /** A stock event as consumed. `decodes` is whether its payload and tenant parse. */
  datatype Message = Message(
    id: string, key: string, eventType: string, decodes: bool, warehouse: string, available: int, delta: int,
    reason: string, source: string)

  datatype Update = Update(loc: Location, qty: int)

  datatype Alert = Alert(loc: Location, delta: int, reason: string, source: string)

  /** The availability a message pushes, if it does: skipped and refused messages do nothing. */
  function UpdateOf(failing: set<string>, m: Message): Option<Update> {
    match SplitKey(m.key)
    case None => None
    case Some(parts) =>
      if m.eventType != "stock.adjusted" || !m.decodes || m.warehouse == "" || m.available < 0 || parts.rest in failing
      then None
      else Some(Update(Location(parts.tenant, parts.rest, m.warehouse), m.available))
  }

  /** The deficit alert a message raises, if it does. */
  function AlertOf(failing: set<string>, m: Message): Option<Alert> {
    match SplitKey(m.key)
    case None => None
    case Some(parts) =>
      if m.eventType != "stock.deficit_alert" || !m.decodes || m.warehouse == "" || parts.rest in failing then None
      else Some(Alert(Location(parts.tenant, parts.rest, m.warehouse), m.delta, m.reason, m.source))
  }

  /** The key the message is recorded under, if it does anything. */
  function IdOf(failing: set<string>, m: Message): Option<Key> {
    if UpdateOf(failing, m).Some? then Some(Key(UpdateOf(failing, m).value.loc.tenant, m.id))
    else if AlertOf(failing, m).Some? then Some(Key(AlertOf(failing, m).value.loc.tenant, m.id))
    else None
  }

  function SlotOf(loc: Location): string {
    Slot(loc.tenant, loc.sku, loc.warehouse)
  }

  /** What the channel shows, the alerts the notifier was sent, the projection and alert rows, and the event ids
      recorded with them. */
  datatype Sync = Sync(
    shown: map<string, int>, sent: seq<Alert>, projection: map<Location, int>, alerts: seq<Alert>, ids: set<Key>)

  /** One delivery. `commits` is whether the transaction after the push commits. */
  function Delivered(failing: set<string>, s: Sync, m: Message, commits: bool): Sync {
    var u, a := UpdateOf(failing, m), AlertOf(failing, m);
    if u.Some? then
      var pushed := s.(shown := s.shown[SlotOf(u.value.loc) := u.value.qty]);
      var id := Key(u.value.loc.tenant, m.id);
      if !commits || id in s.ids then pushed
      else pushed.(projection := s.projection[u.value.loc := u.value.qty], ids := s.ids + {id})
    else if a.Some? then
      var told := s.(sent := s.sent + [a.value]);
      var id := Key(a.value.loc.tenant, m.id);
      if !commits || id in s.ids then told
      else told.(alerts := s.alerts + [a.value], ids := s.ids + {id})
    else s
  }

  class ChannelService {
    const failing: set<string>
    var shown: map<string, int>
    var sent: seq<Alert>
    var projection: map<Location, int>
    var alerts: seq<Alert>
    var ids: set<Key>

    constructor (failing: set<string>)
      ensures this.failing == failing && Now() == EMPTY
    {
      this.failing := failing;
      shown, sent, projection, alerts, ids := map[], [], map[], [], {};
    }

    function Now(): Sync
      reads this
    {
      Sync(shown, sent, projection, alerts, ids)
    }

    /** The channel refuses negative counts and the SKUs it is told to fail. */
    method SetAvailability(u: Update) returns (ok: bool)
      modifies this`shown
      ensures ok == (u.qty >= 0 && u.loc.sku !in failing)
      ensures shown == if ok then old(shown)[SlotOf(u.loc) := u.qty] else old(shown)
    {
      if u.qty < 0 || u.loc.sku in failing { return false; }
      shown := shown[SlotOf(u.loc) := u.qty];
      ok := true;
    }

    method Availability(loc: Location) returns (qty: Option<int>)
      ensures qty == Shown(Now(), loc)
    {
      if SlotOf(loc) in shown { return Some(shown[SlotOf(loc)]); }
      qty := None;
    }

    method HandleAdjusted(id: string, tenant: string, sku: string, m: Message, commits: bool) returns (ok: bool)
      requires SplitKey(m.key) == Some(Parts(tenant, sku)) && m.eventType == "stock.adjusted" && m.id == id
      modifies this
      ensures Now() == Delivered(failing, old(Now()), m, commits)
      ensures ok <==> UpdateOf(failing, m).Some? && commits
    {
      if !m.decodes || m.warehouse == "" { return false; }
      var loc := Location(tenant, sku, m.warehouse);
      ok := SetAvailability(Update(loc, m.available));
      if !ok { return; }
      if !commits { return false; }
      if Key(tenant, id) !in ids {
        ids := ids + {Key(tenant, id)};
        projection := projection[loc := m.available];
      }
    }

    method HandleDeficit(id: string, tenant: string, sku: string, m: Message, commits: bool) returns (ok: bool)
      requires SplitKey(m.key) == Some(Parts(tenant, sku)) && m.eventType == "stock.deficit_alert" && m.id == id
      modifies this
      ensures Now() == Delivered(failing, old(Now()), m, commits)
      ensures ok <==> AlertOf(failing, m).Some? && commits
    {
      assert UpdateOf(failing, m).None?;
      if !m.decodes || m.warehouse == "" || sku in failing { return false; }
      var a := Alert(Location(tenant, sku, m.warehouse), m.delta, m.reason, m.source);
      sent := sent + [a];
      if !commits { return false; }
      if Key(tenant, id) !in ids {
        ids := ids + {Key(tenant, id)};
        alerts := alerts + [a];
      }
      ok := true;
    }

    /** Malformed keys and other events are skipped; an adjustment or an alert that cannot be pushed or recorded is an
        error, and is retried. */
    method HandleStockEvent(m: Message, commits: bool) returns (ok: bool)
      modifies this
      ensures Now() == Delivered(failing, old(Now()), m, commits)
      ensures ok <==> Ignored(m) || (IdOf(failing, m).Some? && commits)
    {
      match SplitKey(m.key)
      case None => return true;
      case Some(parts) =>
        if m.eventType == "stock.adjusted" {
          ok := HandleAdjusted(m.id, parts.tenant, parts.rest, m, commits);
        } else if m.eventType == "stock.deficit_alert" {
          ok := HandleDeficit(m.id, parts.tenant, parts.rest, m, commits);
        } else {
          ok := true;
        }
    }
  }

  const EMPTY := Sync(map[], [], map[], [], {})

  predicate Ignored(m: Message) {
    SplitKey(m.key).None? || (m.eventType != "stock.adjusted" && m.eventType != "stock.deficit_alert")
  }

  function Shown(s: Sync, loc: Location): Option<int> {
    if SlotOf(loc) in s.shown then Some(s.shown[SlotOf(loc)]) else None
  }

  function Projected(s: Sync, loc: Location): Option<int> {
    if loc in s.projection then Some(s.projection[loc]) else None
  }

  // ----- traces -----

  /** Delivery of the event at an offset. */
  datatype Delivery = Delivery(offset: nat, commits: bool)

  /** The message is an adjustment of the location that the channel takes: keyed by tenant and SKU, of that warehouse,
      with a count that is not negative, for a SKU the channel does not fail. */
  predicate Touches(failing: set<string>, m: Message, loc: Location) {
    && m.key == Join(loc.tenant, loc.sku) && ':' !in loc.tenant && loc.tenant != "" && loc.sku != ""
    && m.eventType == "stock.adjusted" && m.decodes && m.warehouse == loc.warehouse && loc.warehouse != ""
    && m.available >= 0 && loc.sku !in failing
  }

  /** What a message pushes is the availability it carries, for the location it touches. */
  lemma TouchesExactlyWhen(failing: set<string>, m: Message, loc: Location)
    ensures Touches(failing, m, loc) <==> UpdateOf(failing, m) == Some(Update(loc, m.available))
    ensures UpdateOf(failing, m).Some? ==>
              Touches(failing, m, UpdateOf(failing, m).value.loc) && UpdateOf(failing, m).value.qty == m.available
  {
    hide SplitKey;
    SplitsExactlyWhen(m.key, loc.tenant, loc.sku);
    if UpdateOf(failing, m).Some? {
      SplitsExactlyWhen(m.key, SplitKey(m.key).value.tenant, SplitKey(m.key).value.rest);
    }
  }

  /** The message raises the alert: keyed by tenant and SKU, and with the alert's own fields. */
  predicate Alarms(failing: set<string>, m: Message, a: Alert) {
    && m.key == Join(a.loc.tenant, a.loc.sku) && ':' !in a.loc.tenant && a.loc.tenant != "" && a.loc.sku != ""
    && m.eventType == "stock.deficit_alert" && m.decodes && m.warehouse == a.loc.warehouse && a.loc.warehouse != ""
    && m.delta == a.delta && m.reason == a.reason && m.source == a.source && a.loc.sku !in failing
  }

  lemma AlarmsExactlyWhen(failing: set<string>, m: Message, a: Alert)
    ensures Alarms(failing, m, a) <==> Raises(failing, m) == [a]
    ensures Raises(failing, m) != [] ==> |Raises(failing, m)| == 1
  {
    hide SplitKey;
    SplitsExactlyWhen(m.key, a.loc.tenant, a.loc.sku);
    if AlertOf(failing, m).Some? {
      SplitsExactlyWhen(m.key, SplitKey(m.key).value.tenant, SplitKey(m.key).value.rest);
    }
  }

  /** The last of the first n events that touches a location. */
  function LastTouch(failing: set<string>, events: seq<Message>, n: nat, loc: Location): (e: Option<nat>)
    requires n <= |events|
    ensures e.Some? ==> e.value < n && Touches(failing, events[e.value], loc)
    ensures forall k :: (if e.Some? then e.value + 1 else 0) <= k < n ==> !Touches(failing, events[k], loc)
  {
    if n == 0 then None
    else if Touches(failing, events[n - 1], loc) then Some(n - 1)
    else LastTouch(failing, events, n - 1, loc)
  }

  /** The availability an event carries. */
  function Carries(events: seq<Message>, e: Option<nat>): Option<int> {
    if e.Some? && e.value < |events| then Some(events[e.value].available) else None
  }

  /** The last availability the first n events give a location. */
  function Latest(failing: set<string>, events: seq<Message>, n: nat, loc: Location): Option<int>
    requires n <= |events|
  {
    Carries(events, LastTouch(failing, events, n, loc))
  }

  /** Events have ids of their own, and no two of their locations share a channel slot. */
  ghost predicate WellKeyed(failing: set<string>, events: seq<Message>) {
    && (forall i, j :: 0 <= i < j < |events| ==> events[i].id != events[j].id)
    && (forall i :: 0 <= i < |events| && UpdateOf(failing, events[i]).Some? ==> ':' !in events[i].warehouse)
  }

  /** The consumer starts at the first event, goes on by one whether or not a delivery committed, and may go back
      any distance at any time. */
  ghost predicate IsTrace(failing: set<string>, events: seq<Message>, run: seq<Sync>, trace: seq<Delivery>) {
    && |run| == |trace| + 1 && run[0] == EMPTY
    && (forall i: nat :: i < |trace| ==>
          && trace[i].offset < |events|
          && run[i + 1] == Delivered(failing, run[i], events[trace[i].offset], trace[i].commits))
    && (|trace| > 0 ==> trace[0].offset == 0)
    && (forall i: nat :: i + 1 < |trace| ==> trace[i + 1].offset <= trace[i].offset + 1)
  }

  /** No event is passed over: the consumer goes on only after a delivery that committed. */
  ghost predicate Careful(trace: seq<Delivery>) {
    forall i: nat :: i + 1 < |trace| ==> trace[i + 1].offset <= trace[i].offset + (if trace[i].commits then 1 else 0)
  }

  /** How many events have been through a delivery that committed. */
  function Through(trace: seq<Delivery>): nat {
    if trace == [] then 0
    else
      var before, d := Through(trace[..|trace| - 1]), trace[|trace| - 1];
      if d.commits && d.offset >= before then d.offset + 1 else before
  }

  /** How many events have been delivered at all. */
  function Reached(trace: seq<Delivery>): nat {
    if trace == [] then 0
    else
      var before, d := Reached(trace[..|trace| - 1]), trace[|trace| - 1];
      if d.offset >= before then d.offset + 1 else before
  }

  /** The projection and its ids are those of the first n events. */
  ghost predicate Recorded(failing: set<string>, events: seq<Message>, s: Sync, n: nat)
    requires n <= |events|
  {
    && (forall loc :: Projected(s, loc) == Latest(failing, events, n, loc))
    && (forall i :: 0 <= i < |events| && UpdateOf(failing, events[i]).Some? ==>
          (Key(UpdateOf(failing, events[i]).value.loc.tenant, events[i].id) in s.ids <==> i < n))
  }

  predicate Plain(loc: Location) {
    ':' !in loc.tenant && ':' !in loc.warehouse
  }

  /** The channel shows the location as of some prefix, and nothing from there up to the current offset touches it. */
  ghost predicate ShownAsOf(failing: set<string>, events: seq<Message>, s: Sync, at: nat, reached: nat, loc: Location)
    requires at <= reached <= |events|
  {
    exists c: nat ::
      && c <= reached && Shown(s, loc) == Latest(failing, events, c, loc)
      && forall k :: c <= k < at ==> !Touches(failing, events[k], loc)
  }

  lemma TenantIsPlain(failing: set<string>, m: Message)
    requires UpdateOf(failing, m).Some?
    ensures ':' !in UpdateOf(failing, m).value.loc.tenant && UpdateOf(failing, m).value.loc.warehouse == m.warehouse
  {
  }

  lemma {:induction false} LatestSkips(failing: set<string>, events: seq<Message>, c: nat, n: nat, loc: Location)
    requires c <= n <= |events| && forall k :: c <= k < n ==> !Touches(failing, events[k], loc)
    ensures LastTouch(failing, events, n, loc) == LastTouch(failing, events, c, loc)
    decreases n
  {
    if n > c { LatestSkips(failing, events, c, n - 1, loc); }
  }

  /** A delivery changes what the channel shows only at the location it touches. */
  lemma PushShows(failing: set<string>, s: Sync, m: Message, commits: bool, loc: Location)
    requires Plain(loc) && (UpdateOf(failing, m).Some? ==> ':' !in m.warehouse)
    ensures Shown(Delivered(failing, s, m, commits), loc)
         == if Touches(failing, m, loc) then Some(m.available) else Shown(s, loc)
  {
    hide UpdateOf;
    hide Touches;
    TouchesExactlyWhen(failing, m, loc);
    var u := UpdateOf(failing, m);
    if u.Some? && SlotOf(u.value.loc) == SlotOf(loc) {
      TenantIsPlain(failing, m);
      var l := u.value.loc;
      SlotsDiffer(l.tenant, l.sku, l.warehouse, loc.tenant, loc.sku, loc.warehouse);
    }
  }

  lemma PlainWarehouse(failing: set<string>, events: seq<Message>, i: nat)
    requires WellKeyed(failing, events) && i < |events| && UpdateOf(failing, events[i]).Some?
    ensures ':' !in events[i].warehouse
  {
  }

  lemma TouchIsLatest(failing: set<string>, events: seq<Message>, i: nat, loc: Location)
    requires i < |events|
    ensures Touches(failing, events[i], loc) ==> Latest(failing, events, i + 1, loc) == Some(events[i].available)
  {
  }

  lemma DeliveryShows(failing: set<string>, events: seq<Message>, s: Sync, at: nat, reached: nat, d: Delivery,
                      loc: Location)
    requires WellKeyed(failing, events) && Plain(loc) && at <= reached <= |events|
    requires d.offset <= at && d.offset < |events|
    requires ShownAsOf(failing, events, s, at, reached, loc)
    ensures
      var reached' := if d.offset >= reached then d.offset + 1 else reached;
      ShownAsOf(failing, events, Delivered(failing, s, events[d.offset], d.commits), d.offset + 1, reached', loc)
  {
    hide Delivered;
    hide Touches;
    hide Latest;
    hide WellKeyed;
    var m := events[d.offset];
    if UpdateOf(failing, m).Some? { PlainWarehouse(failing, events, d.offset); }
    PushShows(failing, s, m, d.commits, loc);
    TouchIsLatest(failing, events, d.offset, loc);
    var c: nat :| c <= reached && Shown(s, loc) == Latest(failing, events, c, loc)
                  && forall k :: c <= k < at ==> !Touches(failing, events[k], loc);
    var s' := Delivered(failing, s, m, d.commits);
    if Touches(failing, m, loc) {
      assert Shown(s', loc) == Latest(failing, events, d.offset + 1, loc);
    } else {
      assert Shown(s', loc) == Latest(failing, events, c, loc);
    }
  }

  lemma DeliveryRecords(failing: set<string>, events: seq<Message>, s: Sync, n: nat, d: Delivery)
    requires WellKeyed(failing, events) && n <= |events| && d.offset < |events| && d.offset <= n
    requires Recorded(failing, events, s, n)
    ensures
      var n' := if d.commits && d.offset >= n then d.offset + 1 else n;
      Recorded(failing, events, Delivered(failing, s, events[d.offset], d.commits), n')
  {
    hide UpdateOf;
    var m, u := events[d.offset], UpdateOf(failing, events[d.offset]);
    var s', n' := Delivered(failing, s, m, d.commits), if d.commits && d.offset >= n then d.offset + 1 else n;
    if u.Some? { assert Key(u.value.loc.tenant, m.id) in s.ids <==> d.offset < n; }
    forall loc ensures Projected(s', loc) == Latest(failing, events, n', loc) {
      TouchesExactlyWhen(failing, m, loc);
      assert Projected(s, loc) == Latest(failing, events, n, loc);
    }
    forall i | 0 <= i < |events| && UpdateOf(failing, events[i]).Some?
      ensures Key(UpdateOf(failing, events[i]).value.loc.tenant, events[i].id) in s'.ids <==> i < n'
    {
      assert i != d.offset ==> events[i].id != m.id;
    }
  }

  // ----- what the channel shows -----

  lemma {:induction false} ReachedBounds(failing: set<string>, events: seq<Message>, run: seq<Sync>,
                                         trace: seq<Delivery>, n: nat)
    requires IsTrace(failing, events, run, trace) && n <= |trace|
    ensures Reached(trace[..n]) <= |events| && (n > 0 ==> trace[n - 1].offset < Reached(trace[..n]))
  {
    if n > 0 {
      assert trace[..n][..n - 1] == trace[..n - 1];
      ReachedBounds(failing, events, run, trace, n - 1);
    }
  }

  lemma {:induction false} TraceShows(failing: set<string>, events: seq<Message>, run: seq<Sync>, trace: seq<Delivery>,
                                      n: nat, loc: Location)
    requires IsTrace(failing, events, run, trace) && WellKeyed(failing, events) && n <= |trace| && Plain(loc)
    ensures
      var at, reached := (if n == 0 then 0 else trace[n - 1].offset + 1), Reached(trace[..n]);
      at <= reached <= |events| && ShownAsOf(failing, events, run[n], at, reached, loc)
  {
    hide Delivered;
    hide WellKeyed;
    hide UpdateOf;
    ReachedBounds(failing, events, run, trace, n);
    if n == 0 {
      assert Shown(run[0], loc) == Latest(failing, events, 0, loc);
    } else {
      TraceShows(failing, events, run, trace, n - 1, loc);
      assert trace[..n][..n - 1] == trace[..n - 1];
      var i, d := n - 1, trace[n - 1];
      assert run[i + 1] == Delivered(failing, run[i], events[d.offset], d.commits);
      var at := if i == 0 then 0 else trace[i - 1].offset + 1;
      assert d.offset <= at by {
        if i > 0 { assert trace[(i - 1) + 1].offset <= trace[i - 1].offset + 1; }
      }
      DeliveryShows(failing, events, run[i], at, Reached(trace[..i]), d, loc);
    }
  }

  /** Whenever the consumer is at the furthest event it has reached, the channel shows the last event there,
      whether or not anything was recorded. */
  lemma ChannelCatchesUp(failing: set<string>, events: seq<Message>, run: seq<Sync>, trace: seq<Delivery>, n: nat,
                         loc: Location)
    requires IsTrace(failing, events, run, trace) && WellKeyed(failing, events) && 0 < n <= |trace| && Plain(loc)
    requires trace[n - 1].offset + 1 == Reached(trace[..n])
    ensures Reached(trace[..n]) <= |events|
    ensures Shown(run[n], loc) == Latest(failing, events, Reached(trace[..n]), loc)
  {
    TraceShows(failing, events, run, trace, n, loc);
    var s, reached := run[n], Reached(trace[..n]);
    var c: nat :| c <= reached && Shown(s, loc) == Latest(failing, events, c, loc)
                  && forall k :: c <= k < reached ==> !Touches(failing, events[k], loc);
    LatestSkips(failing, events, c, reached, loc);
  }

  // ----- what the projection holds -----

  predicate Committed(trace: seq<Delivery>, offset: nat) {
    exists q :: 0 <= q < |trace| && trace[q].offset == offset && trace[q].commits
  }

  /** Delivery p is the first of its event to commit: the one that records it. */
  predicate Records(trace: seq<Delivery>, p: nat) {
    p < |trace| && trace[p].commits && !Committed(trace[..p], trace[p].offset)
  }

  predicate RecordsAt(failing: set<string>, events: seq<Message>, trace: seq<Delivery>, p: nat, loc: Location) {
    Records(trace, p) && trace[p].offset < |events| && Touches(failing, events[trace[p].offset], loc)
  }

  /** The event at a location that was recorded last in time. */
  function Wrote(failing: set<string>, events: seq<Message>, trace: seq<Delivery>, n: nat, loc: Location): Option<nat>
    requires n <= |trace|
  {
    if n == 0 then None
    else if RecordsAt(failing, events, trace, n - 1, loc) then Some(trace[n - 1].offset)
    else Wrote(failing, events, trace, n - 1, loc)
  }

  lemma CommittedMore(trace: seq<Delivery>, n: nat, offset: nat)
    requires 0 < n <= |trace|
    ensures Committed(trace[..n], offset)
       <==> Committed(trace[..n - 1], offset) || (trace[n - 1].offset == offset && trace[n - 1].commits)
  {
    if Committed(trace[..n - 1], offset) {
      var q :| 0 <= q < n - 1 && trace[..n - 1][q].offset == offset && trace[..n - 1][q].commits;
      assert trace[..n][q].offset == offset;
    }
    assert trace[..n][n - 1] == trace[n - 1];
  }

  /** The ids recorded are those of the events with a delivery that committed. */
  ghost predicate IdsMatch(failing: set<string>, events: seq<Message>, s: Sync, trace: seq<Delivery>) {
    forall i :: 0 <= i < |events| && IdOf(failing, events[i]).Some? ==>
      (IdOf(failing, events[i]).value in s.ids <==> Committed(trace, i))
  }

  /** The alert a message raises, if any, as a list; an adjustment raises none. */
  function Raises(failing: set<string>, m: Message): seq<Alert> {
    if UpdateOf(failing, m).None? && AlertOf(failing, m).Some? then [AlertOf(failing, m).value] else []
  }

  /** One delivery, on the database's side. */
  lemma DeliveryWrites(failing: set<string>, events: seq<Message>, s: Sync, trace: seq<Delivery>, n: nat, loc: Location)
    requires WellKeyed(failing, events) && n < |trace| && trace[n].offset < |events|
    requires IdsMatch(failing, events, s, trace[..n])
    ensures
      var s' := Delivered(failing, s, events[trace[n].offset], trace[n].commits);
      && IdsMatch(failing, events, s', trace[..n + 1])
      && Projected(s', loc)
         == (if RecordsAt(failing, events, trace, n, loc)
             then Carries(events, Some(trace[n].offset)) else Projected(s, loc))
      && s'.sent == s.sent + Raises(failing, events[trace[n].offset])
      && s'.alerts == s.alerts + if Records(trace, n) then Raises(failing, events[trace[n].offset]) else []
  {
    hide UpdateOf;
    hide AlertOf;
    hide Committed;
    var d := trace[n];
    var m, id := events[d.offset], IdOf(failing, events[d.offset]);
    var s' := Delivered(failing, s, m, d.commits);
    TouchesExactlyWhen(failing, m, loc);
    if id.Some? { assert id.value in s.ids <==> Committed(trace[..n], d.offset); }
    forall i | 0 <= i < |events| && IdOf(failing, events[i]).Some?
      ensures IdOf(failing, events[i]).value in s'.ids <==> Committed(trace[..n + 1], i)
    {
      CommittedMore(trace, n + 1, i);
      assert i != d.offset ==> events[i].id != m.id;
    }
  }

  /** At every moment and every location the projection holds what the event recorded last there carries. */
  lemma {:induction false} ProjectionIs(failing: set<string>, events: seq<Message>, run: seq<Sync>,
                                        trace: seq<Delivery>, n: nat, loc: Location)
    requires IsTrace(failing, events, run, trace) && WellKeyed(failing, events) && n <= |trace|
    ensures Projected(run[n], loc) == Carries(events, Wrote(failing, events, trace, n, loc))
    ensures IdsMatch(failing, events, run[n], trace[..n])
  {
    hide WellKeyed;
    hide UpdateOf;
    hide Delivered;
    hide RecordsAt;
    if n > 0 {
      var i := n - 1;
      ProjectionIs(failing, events, run, trace, i, loc);
      assert run[i + 1] == Delivered(failing, run[i], events[trace[i].offset], trace[i].commits);
      DeliveryWrites(failing, events, run[i], trace, i, loc);
    }
  }

  /** Alerts raised by the first n deliveries, and by those of them that record their event. */
  function SentBy(failing: set<string>, events: seq<Message>, trace: seq<Delivery>, n: nat, all: bool): seq<Alert>
    requires n <= |trace|
  {
    if n == 0 then []
    else
      SentBy(failing, events, trace, n - 1, all)
      + if (all || Records(trace, n - 1)) && trace[n - 1].offset < |events|
        then Raises(failing, events[trace[n - 1].offset]) else []
  }

  /** The notifier is sent a deficit event's alert at every delivery of it; the alert table gets it at the first
      delivery that commits and at no other. */
  lemma {:induction false} AlertsAreFiledOnce(failing: set<string>, events: seq<Message>, run: seq<Sync>,
                                              trace: seq<Delivery>, n: nat)
    requires IsTrace(failing, events, run, trace) && WellKeyed(failing, events) && n <= |trace|
    ensures run[n].sent == SentBy(failing, events, trace, n, true)
    ensures run[n].alerts == SentBy(failing, events, trace, n, false)
  {
    hide WellKeyed;
    hide Raises;
    hide Records;
    hide Delivered;
    hide IdsMatch;
    if n > 0 {
      var i, loc := n - 1, Location("", "", "");
      AlertsAreFiledOnce(failing, events, run, trace, i);
      ProjectionIs(failing, events, run, trace, i, loc);
      assert run[i + 1] == Delivered(failing, run[i], events[trace[i].offset], trace[i].commits);
      DeliveryWrites(failing, events, run[i], trace, i, loc);
    }
  }

  /** Delivery q raises the alert. */
  predicate RaisedBy(failing: set<string>, events: seq<Message>, trace: seq<Delivery>, q: nat, a: Alert) {
    q < |trace| && trace[q].offset < |events| && Alarms(failing, events[trace[q].offset], a)
  }

  /** The alerts sent and filed are those of the deficit events delivered, with the events' own fields. */
  lemma {:induction false} AlertsAreTheEvents(failing: set<string>, events: seq<Message>, trace: seq<Delivery>, n: nat,
                                              all: bool, a: Alert)
    requires n <= |trace|
    ensures a in SentBy(failing, events, trace, n, all)
            <==> exists q :: 0 <= q < n && (all || Records(trace, q)) && RaisedBy(failing, events, trace, q, a)
  {
    hide Records;
    hide Alarms;
    hide Raises;
    if n > 0 {
      AlertsAreTheEvents(failing, events, trace, n - 1, all, a);
      if trace[n - 1].offset < |events| {
        var m := events[trace[n - 1].offset];
        AlarmsExactlyWhen(failing, m, a);
        assert a in Raises(failing, m) <==> Alarms(failing, m, a);
      }
    }
  }

  /** At the furthest event reached, channel and projection agree at a location if and only if the event recorded
      last there carries what the last event there carries; where no two events carry the same, if and only if it is
      that event. */
  lemma AgreeExactlyWhen(failing: set<string>, events: seq<Message>, run: seq<Sync>, trace: seq<Delivery>, n: nat,
                         loc: Location)
    requires IsTrace(failing, events, run, trace) && WellKeyed(failing, events) && 0 < n <= |trace| && Plain(loc)
    requires trace[n - 1].offset + 1 == Reached(trace[..n])
    ensures Reached(trace[..n]) <= |events|
    ensures
      var last, wrote := LastTouch(failing, events, Reached(trace[..n]), loc), Wrote(failing, events, trace, n, loc);
      && (Shown(run[n], loc) == Projected(run[n], loc)
          <==> Carries(events, wrote) == Carries(events, last))
      && (AllDiffer(failing, events, loc) ==> (Shown(run[n], loc) == Projected(run[n], loc) <==> wrote == last))
  {
    hide WellKeyed;
    hide LastTouch;
    hide Wrote;
    ChannelCatchesUp(failing, events, run, trace, n, loc);
    ProjectionIs(failing, events, run, trace, n, loc);
    WroteTouches(failing, events, trace, n, loc);
  }

  /** No two events at the location carry the same availability. */
  ghost predicate AllDiffer(failing: set<string>, events: seq<Message>, loc: Location) {
    forall i, j :: 0 <= i < j < |events| && Touches(failing, events[i], loc) && Touches(failing, events[j], loc) ==>
      events[i].available != events[j].available
  }

  lemma {:induction false} WroteTouches(failing: set<string>, events: seq<Message>, trace: seq<Delivery>, n: nat,
                                        loc: Location)
    requires n <= |trace|
    ensures
      var w := Wrote(failing, events, trace, n, loc);
      w.Some? ==> w.value < |events| && Touches(failing, events[w.value], loc)
  {
    if n > 0 { WroteTouches(failing, events, trace, n - 1, loc); }
  }

  // ----- when the projection goes back -----

  /** Delivery n takes the projection at a location from a newer event back to an older one. */
  predicate Regresses(failing: set<string>, events: seq<Message>, trace: seq<Delivery>, n: nat, loc: Location)
    requires n < |trace|
  {
    var was, now := Wrote(failing, events, trace, n, loc), Wrote(failing, events, trace, n + 1, loc);
    was.Some? && now.Some? && now.value < was.value
  }

  /** Until the projection goes back, what it holds is at least as new as everything recorded at the location. */
  lemma {:induction false} WroteIsNewest(failing: set<string>, events: seq<Message>, trace: seq<Delivery>, n: nat,
                                         p: nat, loc: Location)
    requires p < n <= |trace| && RecordsAt(failing, events, trace, p, loc)
    requires forall m: nat :: m < n ==> !Regresses(failing, events, trace, m, loc)
    ensures
      var w := Wrote(failing, events, trace, n, loc);
      w.Some? && trace[p].offset <= w.value
    decreases n
  {
    hide RecordsAt;
    if p < n - 1 {
      WroteIsNewest(failing, events, trace, n - 1, p, loc);
      assert !Regresses(failing, events, trace, n - 1, loc);
    }
  }

  lemma {:induction false} WroteIsARecord(failing: set<string>, events: seq<Message>, trace: seq<Delivery>, n: nat,
                                          loc: Location)
      returns (p: nat)
    requires n <= |trace| && Wrote(failing, events, trace, n, loc).Some?
    ensures p < n && RecordsAt(failing, events, trace, p, loc)
    ensures Wrote(failing, events, trace, n, loc) == Some(trace[p].offset)
  {
    hide RecordsAt;
    if RecordsAt(failing, events, trace, n - 1, loc) { return n - 1; }
    p := WroteIsARecord(failing, events, trace, n - 1, loc);
  }

  /** Every event at the location is recorded after the older ones recorded there. */
  ghost predicate InOrder(failing: set<string>, events: seq<Message>, trace: seq<Delivery>, loc: Location) {
    forall p, q ::
      0 <= p < q < |trace| && RecordsAt(failing, events, trace, p, loc) && RecordsAt(failing, events, trace, q, loc)
      ==> trace[p].offset < trace[q].offset
  }

  /** The projection never goes back at a location if and only if no event is recorded there after a newer one: it
      goes back exactly when an event that was passed over unrecorded is redelivered, and recorded, too late. */
  lemma RegressesExactlyWhen(failing: set<string>, events: seq<Message>, trace: seq<Delivery>, loc: Location)
    ensures (forall n: nat :: n < |trace| ==> !Regresses(failing, events, trace, n, loc))
       <==> InOrder(failing, events, trace, loc)
  {
    if InOrder(failing, events, trace, loc) {
      forall n: nat | n < |trace| ensures !Regresses(failing, events, trace, n, loc) {
        if Regresses(failing, events, trace, n, loc) {
          var p := WroteIsARecord(failing, events, trace, n, loc);
        }
      }
    } else {
      var p, q :| 0 <= p < q < |trace| && RecordsAt(failing, events, trace, p, loc)
                  && RecordsAt(failing, events, trace, q, loc) && trace[p].offset >= trace[q].offset;
      RecordedOnce(trace, p, q);
      if forall n: nat :: n < |trace| ==> !Regresses(failing, events, trace, n, loc) {
        WroteIsNewest(failing, events, trace, q, p, loc);
        assert Regresses(failing, events, trace, q, loc);
      }
    }
  }

  /** Two recordings are of two events. */
  lemma RecordedOnce(trace: seq<Delivery>, p: nat, q: nat)
    requires p < q && Records(trace, p) && Records(trace, q)
    ensures trace[p].offset != trace[q].offset
  {
    assert trace[..q][p] == trace[p];
  }

  lemma ReachedMore(trace: seq<Delivery>, n: nat)
    requires 0 < n <= |trace|
    ensures Reached(trace[..0]) == 0
    ensures
      var before, d := Reached(trace[..n - 1]), trace[n - 1];
      Reached(trace[..n]) == if d.offset >= before then d.offset + 1 else before
  {
    assert trace[..n][..n - 1] == trace[..n - 1];
  }

  /** An event passed over because its recording failed, then recorded after the next one: the projection goes back to
      it, and stays there when the consumer has caught up and the channel shows the newer value. */
  lemma PassedOverEventComesBack(failing: set<string>, a: Message, b: Message, loc: Location)
      returns (run: seq<Sync>, trace: seq<Delivery>)
    requires Touches(failing, a, loc) && Touches(failing, b, loc) && a.id != b.id && Plain(loc)
    requires a.available != b.available
    ensures WellKeyed(failing, [a, b]) && IsTrace(failing, [a, b], run, trace) && |trace| == 4
    ensures trace[3].offset + 1 == Reached(trace) && trace[3].commits
    ensures Projected(run[2], loc) == Some(b.available)
    ensures Projected(run[4], loc) == Some(a.available)
    ensures Shown(run[4], loc) == Some(b.available)
  {
    hide UpdateOf;
    var events := [a, b];
    trace := [Delivery(0, false), Delivery(1, true), Delivery(0, true), Delivery(1, true)];
    TouchesExactlyWhen(failing, a, loc);
    TouchesExactlyWhen(failing, b, loc);
    var s1 := Delivered(failing, EMPTY, a, false);
    var s2 := Delivered(failing, s1, b, true);
    var s3 := Delivered(failing, s2, a, true);
    var s4 := Delivered(failing, s3, b, true);
    run := [EMPTY, s1, s2, s3, s4];
    ReachedMore(trace, 1);
    ReachedMore(trace, 2);
    ReachedMore(trace, 3);
    ReachedMore(trace, 4);
    assert trace[..4] == trace;
  }

  // ----- when nothing is passed over -----

  /** Where a careful consumer can be: never past the first event that has not been through. */
  lemma {:induction false} OffsetsStayInReach(failing: set<string>, events: seq<Message>, run: seq<Sync>,
                                              trace: seq<Delivery>, n: nat)
    requires IsTrace(failing, events, run, trace) && Careful(trace) && 0 < n <= |trace|
    ensures
      var d, through, reached := trace[n - 1], Through(trace[..n]), Reached(trace[..n]);
      && d.offset <= through <= reached <= |events| && d.offset < reached
      && (d.commits ==> d.offset < through)
      && (d.commits && d.offset + 1 == reached ==> through == reached)
  {
    assert trace[..n][..n - 1] == trace[..n - 1];
    if n == 1 {
      assert trace[..0] == [];
    } else {
      OffsetsStayInReach(failing, events, run, trace, n - 1);
      assert trace[(n - 2) + 1].offset <= trace[n - 2].offset + (if trace[n - 2].commits then 1 else 0);
    }
  }

  lemma {:induction false} CarefulRecords(failing: set<string>, events: seq<Message>, run: seq<Sync>,
                                          trace: seq<Delivery>, n: nat)
    requires IsTrace(failing, events, run, trace) && Careful(trace) && WellKeyed(failing, events) && n <= |trace|
    ensures Through(trace[..n]) <= |events| && Recorded(failing, events, run[n], Through(trace[..n]))
  {
    hide Delivered;
    hide WellKeyed;
    hide UpdateOf;
    if n > 0 {
      var i, d := n - 1, trace[n - 1];
      CarefulRecords(failing, events, run, trace, i);
      OffsetsStayInReach(failing, events, run, trace, n);
      if i > 0 { OffsetsStayInReach(failing, events, run, trace, i); }
      assert trace[..n][..i] == trace[..i];
      assert run[i + 1] == Delivered(failing, run[i], events[d.offset], d.commits);
      assert d.offset <= Through(trace[..i]) by {
        if i > 0 { assert trace[(i - 1) + 1].offset <= trace[i - 1].offset + (if trace[i - 1].commits then 1 else 0); }
      }
      DeliveryRecords(failing, events, run[i], Through(trace[..i]), d);
    }
  }

  /** Whenever a consumer that passes over nothing is back at the furthest event it has reached and has recorded it,
      the channel and the projection agree at every location and show the last adjusted event there. */
  lemma Converges(failing: set<string>, events: seq<Message>, run: seq<Sync>, trace: seq<Delivery>, n: nat,
                  loc: Location)
    requires IsTrace(failing, events, run, trace) && Careful(trace) && WellKeyed(failing, events)
    requires 0 < n <= |trace| && Plain(loc)
    requires trace[n - 1].commits && trace[n - 1].offset + 1 == Reached(trace[..n])
    ensures Reached(trace[..n]) <= |events|
    ensures Shown(run[n], loc) == Projected(run[n], loc) == Latest(failing, events, Reached(trace[..n]), loc)
  {
    CarefulRecords(failing, events, run, trace, n);
    OffsetsStayInReach(failing, events, run, trace, n);
    ChannelCatchesUp(failing, events, run, trace, n, loc);
  }

  /** At every moment the projection of such a consumer is that of the events that have been through, and that prefix
      only grows. */
  lemma ProjectionNeverRegresses(failing: set<string>, events: seq<Message>, run: seq<Sync>, trace: seq<Delivery>,
                                 m: nat, n: nat)
    requires IsTrace(failing, events, run, trace) && Careful(trace) && WellKeyed(failing, events) && m <= n <= |trace|
    ensures Through(trace[..m]) <= Through(trace[..n]) <= |events|
    ensures forall loc :: Projected(run[n], loc) == Latest(failing, events, Through(trace[..n]), loc)
  {
    CarefulRecords(failing, events, run, trace, n);
    ThroughGrows(trace, m, n);
  }

  lemma {:induction false} ThroughGrows(trace: seq<Delivery>, m: nat, n: nat)
    requires m <= n <= |trace|
    ensures Through(trace[..m]) <= Through(trace[..n])
    decreases n
  {
    if m < n {
      assert trace[..n][..n - 1] == trace[..n - 1];
      ThroughGrows(trace, m, n - 1);
    }
  }

  /** Between a rewind and the furthest event the channel can show an old value: redelivering an event shows its
      value again whatever came after it, while the projection stays. */
  lemma RedeliveryShowsOldValue(failing: set<string>, s: Sync, m: Message, commits: bool, loc: Location)
    requires Touches(failing, m, loc) && Key(loc.tenant, m.id) in s.ids
    ensures
      var s' := Delivered(failing, s, m, commits);
      && Shown(s', loc) == Some(m.available) && s'.projection == s.projection && s'.ids == s.ids
      && s'.sent == s.sent && s'.alerts == s.alerts
  {
    hide UpdateOf;
    TouchesExactlyWhen(failing, m, loc);
  }
}
