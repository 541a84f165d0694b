/** What one sweeper pass returns, and what goes wrong when the promises of the hold invariant are broken. */
module Sweeping {
  import opened StockLedger
  import opened Accounting
  import opened AllOrNothing
  import opened Effects
  import opened Reservations
  import opened Holds
  import Drift

  // ----- the batch as a whole -----

  /** Whether an order's compensation key is still unspent in the stock ledger. */
  predicate Unspent(keys: map<Key, int>, tenant: string, order: string) {
    Key(tenant, CompKey(tenant, order)) !in keys
  }

  /** Total quantity at a location of the batch rows whose order's compensation key is unspent. */
  function BatchAt(rows: seq<Row>, batch: seq<nat>, keys: map<Key, int>, loc: Location): int
    requires Ids(rows, batch)
  {
    if batch == [] then 0
    else
      var r := rows[batch[|batch| - 1]];
      BatchAt(rows, batch[..|batch| - 1], keys, loc)
      + (if Loc(r.tenant, r.line) == loc && Unspent(keys, r.tenant, r.order) then r.line.quantity else 0)
  }

  /** The same total, group by group. */
  function GroupsAt(rows: seq<Row>, groups: seq<Group>, keys: map<Key, int>, loc: Location): int
    requires forall i :: 0 <= i < |groups| ==> Ids(rows, groups[i].ids)
  {
    if groups == [] then 0
    else
      var g := groups[|groups| - 1];
      assert Ids(rows, g.ids);
      GroupsAt(rows, groups[..|groups| - 1], keys, loc)
      + (if Unspent(keys, g.tenant, g.order) then SumAt(g.tenant, LinesAt(rows, g.ids), loc) else 0)
  }

  /** Rows of the batch that belong to one of some groups. */
  function PartAt(rows: seq<Row>, batch: seq<nat>, groups: seq<Group>, keys: map<Key, int>, loc: Location): int
    requires Ids(rows, batch)
  {
    if batch == [] then 0
    else
      var r := rows[batch[|batch| - 1]];
      PartAt(rows, batch[..|batch| - 1], groups, keys, loc)
      + (if Listed(groups, r) && Loc(r.tenant, r.line) == loc && Unspent(keys, r.tenant, r.order)
         then r.line.quantity else 0)
  }

  predicate Listed(groups: seq<Group>, r: Row) {
    exists i :: 0 <= i < |groups| && groups[i].tenant == r.tenant && groups[i].order == r.order
  }

  lemma {:induction false} OneMoreGroup(rows: seq<Row>, batch: seq<nat>, groups: seq<Group>, g: Group,
                                        keys: map<Key, int>, loc: Location)
    requires Ids(rows, batch)
    requires forall i :: 0 <= i < |groups| ==> !(groups[i].tenant == g.tenant && groups[i].order == g.order)
    ensures PartAt(rows, batch, groups + [g], keys, loc)
         == PartAt(rows, batch, groups, keys, loc)
            + (if Unspent(keys, g.tenant, g.order)
               then SumAt(g.tenant, LinesAt(rows, Pick(rows, batch, g.tenant, g.order)), loc) else 0)
    decreases batch
  {
    hide Unspent;
    hide Listed;
    if batch != [] {
      var front, id := batch[..|batch| - 1], batch[|batch| - 1];
      OneMoreGroup(rows, front, groups, g, keys, loc);
      ListedMore(groups, g, rows[id]);
      var ids := Pick(rows, batch, g.tenant, g.order);
      if rows[id].tenant == g.tenant && rows[id].order == g.order {
        assert ids[..|ids| - 1] == Pick(rows, front, g.tenant, g.order);
        LinesGrow(rows, ids, g.tenant, loc);
      }
    }
  }

  lemma ListedMore(groups: seq<Group>, g: Group, r: Row)
    requires forall i :: 0 <= i < |groups| ==> !(groups[i].tenant == g.tenant && groups[i].order == g.order)
    ensures Listed(groups + [g], r) <==> Listed(groups, r) || (g.tenant == r.tenant && g.order == r.order)
    ensures !(Listed(groups, r) && g.tenant == r.tenant && g.order == r.order)
  {
    if Listed(groups, r) {
      var i :| 0 <= i < |groups| && groups[i].tenant == r.tenant && groups[i].order == r.order;
      assert (groups + [g])[i].tenant == r.tenant;
    }
    if g.tenant == r.tenant && g.order == r.order { assert (groups + [g])[|groups|].tenant == r.tenant; }
  }

  lemma {:induction false} PartsAddUp(rows: seq<Row>, batch: seq<nat>, groups: seq<Group>, n: nat, keys: map<Key, int>,
                                      loc: Location)
    requires Ids(rows, batch) && Grouped(rows, batch, groups) && n <= |groups|
    requires forall i :: 0 <= i < |groups| ==> Ids(rows, groups[i].ids)
    ensures GroupsAt(rows, groups[..n], keys, loc) == PartAt(rows, batch, groups[..n], keys, loc)
    decreases n
  {
    hide Unspent;
    hide PartAt;
    hide LinesAt;
    if n == 0 {
      NothingListed(rows, batch, keys, loc);
    } else {
      PartsAddUp(rows, batch, groups, n - 1, keys, loc);
      assert groups[..n][..n - 1] == groups[..n - 1] && groups[..n] == groups[..n - 1] + [groups[n - 1]];
      OneMoreGroup(rows, batch, groups[..n - 1], groups[n - 1], keys, loc);
      assert groups[n - 1].ids == Pick(rows, batch, groups[n - 1].tenant, groups[n - 1].order);
    }
  }

  lemma {:induction false} NothingListed(rows: seq<Row>, batch: seq<nat>, keys: map<Key, int>, loc: Location)
    requires Ids(rows, batch)
    ensures PartAt(rows, batch, [], keys, loc) == 0
  {
    if batch != [] { NothingListed(rows, batch[..|batch| - 1], keys, loc); }
  }

  lemma {:induction false} AllListed(rows: seq<Row>, batch: seq<nat>, groups: seq<Group>, keys: map<Key, int>,
                                     loc: Location)
    requires Ids(rows, batch)
    requires forall k :: 0 <= k < |batch| ==> Listed(groups, rows[batch[k]])
    ensures PartAt(rows, batch, groups, keys, loc) == BatchAt(rows, batch, keys, loc)
  {
    if batch != [] { AllListed(rows, batch[..|batch| - 1], groups, keys, loc); }
  }

  /** Grouping loses no row and counts none twice. */
  lemma GroupingConserves(rows: seq<Row>, batch: seq<nat>, groups: seq<Group>, keys: map<Key, int>, loc: Location)
    requires Ids(rows, batch) && Grouped(rows, batch, groups)
    requires forall i :: 0 <= i < |groups| ==> Ids(rows, groups[i].ids)
    ensures GroupsAt(rows, groups, keys, loc) == BatchAt(rows, batch, keys, loc)
  {
    hide Unspent;
    PartsAddUp(rows, batch, groups, |groups|, keys, loc);
    assert groups[..|groups|] == groups;
    forall k | 0 <= k < |batch| ensures Listed(groups, rows[batch[k]]) {
      assert HasGroup(groups, rows[batch[k]].tenant, rows[batch[k]].order);
    }
    AllListed(rows, batch, groups, keys, loc);
  }

  // ----- one pass -----

  lemma ReleaseKeepsRows(db: Tables, req: Request)
    requires req.kind.Release?
    ensures After(db, req).levels.Keys == db.levels.Keys
  {
    hide DeltaAfter;
    Drift.OnlyRowsAreWritten(db.checks, db.levels, req, |req.lines|);
  }

  lemma ReleaseSpends(db: Tables, g: Group, req: Request)
    requires req.kind.Release? && req.tenant == g.tenant && req.key == CompKey(g.tenant, g.order)
    requires StockSaysYes(OutcomeOf(db, req))
    ensures OutcomeOf(db, req).Committed? <==> Unspent(db.keys, g.tenant, g.order)
    ensures After(db, req).keys.Keys == db.keys.Keys + {Key(g.tenant, CompKey(g.tenant, g.order))}
  {
    hide DeltaAfter;
    CompKeys(g.tenant, g.order, g.order);
  }

  /** A successful group returns its lines when its compensation key is unspent, and nothing otherwise. */
  lemma GroupReturns(w: World, g: Group, at: int, loc: Location)
    requires w.stock.checks && NoNegatives(w.stock.levels) && Ids(w.rows, g.ids)
    requires StockSaysYes(OutcomeOf(w.stock, SweepRequest(w, g, at)))
    ensures
      var w' := AfterGroup(w, g, at);
      && w'.stock.checks && NoNegatives(w'.stock.levels) && w'.stock.levels.Keys == w.stock.levels.Keys
      && w'.stock.keys.Keys == w.stock.keys.Keys + {Key(g.tenant, CompKey(g.tenant, g.order))}
      && At(w'.stock.levels, loc).available
         == At(w.stock.levels, loc).available
            + (if Unspent(w.stock.keys, g.tenant, g.order) && loc in w.stock.levels
               then SumAt(g.tenant, LinesAt(w.rows, g.ids), loc) else 0)
  {
    hide After;
    hide SortLines;
    hide Unspent;
    hide OutcomeOf;
    hide At;
    hide NoNegatives;
    hide LinesAt;
    hide SumTo;
    hide Mark;
    var req := SweepRequest(w, g, at);
    var lines := LinesAt(w.rows, g.ids);
    ReleaseKeepsRows(w.stock, req);
    ReleaseSpends(w.stock, g, req);
    StillChecked(w.stock, req);
    SortedSums(Request(Kind.Release(g.order, "ttl_expiry"), g.tenant, CompKey(g.tenant, g.order), lines, at), loc);
    if OutcomeOf(w.stock, req).Committed? {
      CommittedMoves(w.stock, req, loc);
    } else {
      NotCommitted(w.stock, req);
    }
  }

  lemma {:induction false} SameLines(a: seq<Row>, b: seq<Row>, ids: seq<nat>)
    requires |a| == |b| && Ids(a, ids)
    requires forall i :: 0 <= i < |a| ==> a[i].line == b[i].line
    ensures LinesAt(a, ids) == LinesAt(b, ids)
  {
    if ids != [] { SameLines(a, b, ids[..|ids| - 1]); }
  }

  /** Every call of the pass succeeds. */
  ghost predicate AllSucceed(w: World, groups: seq<Group>, at: int)
    requires forall i :: 0 <= i < |groups| ==> Ids(w.rows, groups[i].ids)
  {
    forall i :: 0 <= i < |groups| ==> Succeeds(w, groups, i, at)
  }

  ghost predicate Succeeds(w: World, groups: seq<Group>, i: nat, at: int)
    requires i < |groups| && forall j :: 0 <= j < |groups| ==> Ids(w.rows, groups[j].ids)
  {
    var now := AfterSweep(w, groups[..i], at);
    assert Ids(w.rows, groups[i].ids);
    StockSaysYes(OutcomeOf(now.stock, SweepRequest(now, groups[i], at)))
  }

  /** Where the pass stands after n groups. */
  ghost predicate Swept(w: World, now: World, groups: seq<Group>, n: nat, loc: Location)
    requires n <= |groups| && forall i :: 0 <= i < |groups| ==> Ids(w.rows, groups[i].ids)
  {
    && now.stock.checks && NoNegatives(now.stock.levels) && now.stock.levels.Keys == w.stock.levels.Keys
    && |now.rows| == |w.rows|
    && (forall k :: 0 <= k < |w.rows| ==>
          now.rows[k] == if InGroups(groups[..n], k) then w.rows[k].(status := Expired) else w.rows[k])
    && (forall i :: n <= i < |groups| ==>
          (Unspent(now.stock.keys, groups[i].tenant, groups[i].order)
           <==> Unspent(w.stock.keys, groups[i].tenant, groups[i].order)))
    && At(now.stock.levels, loc).available
       == At(w.stock.levels, loc).available
          + (if loc in w.stock.levels then GroupsAt(w.rows, groups[..n], w.stock.keys, loc) else 0)
  }

  predicate InGroups(groups: seq<Group>, k: nat) {
    exists i :: 0 <= i < |groups| && k in groups[i].ids
  }

  lemma InMore(groups: seq<Group>, n: nat, k: nat)
    requires 0 < n <= |groups|
    ensures InGroups(groups[..n], k) <==> InGroups(groups[..n - 1], k) || k in groups[n - 1].ids
  {
    if InGroups(groups[..n - 1], k) {
      var i :| 0 <= i < n - 1 && k in groups[..n - 1][i].ids;
      assert k in groups[..n][i].ids;
    }
    if k in groups[n - 1].ids { assert k in groups[..n][n - 1].ids; }
  }

  lemma {:induction false} PassStands(w: World, groups: seq<Group>, n: nat, at: int, loc: Location)
    requires n <= |groups| && w.stock.checks && NoNegatives(w.stock.levels)
    requires forall i :: 0 <= i < |groups| ==> Ids(w.rows, groups[i].ids)
    requires forall i, j :: 0 <= i < j < |groups| ==>
               !(groups[i].tenant == groups[j].tenant && groups[i].order == groups[j].order)
    requires AllSucceed(w, groups, at)
    ensures Swept(w, AfterSweep(w, groups[..n], at), groups, n, loc)
    decreases n
  {
    hide OutcomeOf;
    hide After;
    hide AfterGroup;
    hide Swept;
    if n == 0 {
      NothingSwept(w, groups, loc);
    } else {
      PassStands(w, groups, n - 1, at, loc);
      var now := AfterSweep(w, groups[..n - 1], at);
      assert groups[..n][..n - 1] == groups[..n - 1];
      assert Succeeds(w, groups, n - 1, at);
      PassStep(w, now, groups, n - 1, at, loc);
    }
  }

  lemma NothingSwept(w: World, groups: seq<Group>, loc: Location)
    requires w.stock.checks && NoNegatives(w.stock.levels)
    requires forall i :: 0 <= i < |groups| ==> Ids(w.rows, groups[i].ids)
    ensures Swept(w, w, groups, 0, loc)
  {
  }

  lemma PassStep(w: World, now: World, groups: seq<Group>, n: nat, at: int, loc: Location)
    requires n < |groups| && forall i :: 0 <= i < |groups| ==> Ids(w.rows, groups[i].ids)
    requires forall i, j :: 0 <= i < j < |groups| ==>
               !(groups[i].tenant == groups[j].tenant && groups[i].order == groups[j].order)
    requires Swept(w, now, groups, n, loc)
    requires StockSaysYes(OutcomeOf(now.stock, SweepRequest(now, groups[n], at)))
    ensures Swept(w, AfterGroup(now, groups[n], at), groups, n + 1, loc)
  {
    hide OutcomeOf;
    hide After;
    hide SortLines;
    hide At;
    hide NoNegatives;
    hide SumTo;
    hide InGroups;
    hide CompKey;
    hide LinesAt;
    hide Mark;
    var g, next := groups[n], AfterGroup(now, groups[n], at);
    GroupReturns(now, g, at, loc);
    SameLines(now.rows, w.rows, g.ids);
    assert groups[..n + 1][..n] == groups[..n];
    forall k | 0 <= k < |w.rows|
      ensures next.rows[k] == if InGroups(groups[..n + 1], k) then w.rows[k].(status := Expired) else w.rows[k]
    {
      MarkAt(now.rows, g.ids, Expired, k);
      InMore(groups, n + 1, k);
    }
    forall i | n + 1 <= i < |groups|
      ensures Unspent(next.stock.keys, groups[i].tenant, groups[i].order)
           <==> Unspent(w.stock.keys, groups[i].tenant, groups[i].order)
    {
      CompKeys(g.tenant, g.order, groups[i].order);
    }
  }

  /** Sweep pass conservation: a pass whose calls all succeed returns to available, at every location with a stock
      row, exactly the batch rows whose order's compensation key was unspent, and marks exactly the batch rows
      EXPIRED, whatever order the groups are walked in. */
  lemma SweepReturnsTheBatch(w: World, batch: seq<nat>, groups: seq<Group>, at: int, loc: Location)
    requires w.stock.checks && NoNegatives(w.stock.levels)
    requires Ids(w.rows, batch) && Grouped(w.rows, batch, groups)
    requires forall i :: 0 <= i < |groups| ==> Ids(w.rows, groups[i].ids)
    requires AllSucceed(w, groups, at)
    ensures
      var w' := AfterSweep(w, groups, at);
      && At(w'.stock.levels, loc).available
         == At(w.stock.levels, loc).available
            + (if loc in w.stock.levels then BatchAt(w.rows, batch, w.stock.keys, loc) else 0)
      && forall k :: 0 <= k < |w.rows| ==> w'.rows[k] == if k in batch then w.rows[k].(status := Expired) else w.rows[k]
  {
    hide AfterSweep;
    hide At;
    hide BatchAt;
    hide GroupsAt;
    hide NoNegatives;
    assert groups[..|groups|] == groups;
    PassStands(w, groups, |groups|, at, loc);
    GroupingConserves(w.rows, batch, groups, w.stock.keys, loc);
    forall k | 0 <= k < |w.rows| ensures InGroups(groups, k) <==> k in batch {
      GroupsCoverBatch(w.rows, batch, groups, k);
    }
  }

  lemma GroupsCoverBatch(rows: seq<Row>, batch: seq<nat>, groups: seq<Group>, k: nat)
    requires Ids(rows, batch) && Grouped(rows, batch, groups) && k < |rows|
    ensures InGroups(groups, k) <==> k in batch
  {
    hide Pick;
    if k in batch {
      var p :| 0 <= p < |batch| && batch[p] == k;
      assert HasGroup(groups, rows[batch[p]].tenant, rows[batch[p]].order);
      var i :| 0 <= i < |groups| && groups[i].tenant == rows[k].tenant && groups[i].order == rows[k].order;
      PickMembers(rows, batch, groups[i].tenant, groups[i].order);
      assert k in groups[i].ids;
    }
    if InGroups(groups, k) {
      var i :| 0 <= i < |groups| && k in groups[i].ids;
      PickMembers(rows, batch, groups[i].tenant, groups[i].order);
    }
  }

  // ----- a batch read earlier -----

  /** Rows stay where they are but for their status, and an order that has rows gets no more. */
  ghost predicate Persist(was: seq<Row>, now: seq<Row>) {
    && |was| <= |now|
    && (forall k :: 0 <= k < |was| ==> Id(now[k]) == Id(was[k]) && now[k].line == was[k].line)
    && (forall k, j :: |was| <= k < |now| && 0 <= j < |was| ==> Id(now[k]) != Id(was[j]))
  }

  lemma MarkPersists(rows: seq<Row>, ids: seq<nat>, status: Status)
    requires Ids(rows, ids)
    ensures Persist(rows, Mark(rows, ids, status))
  {
    forall k | 0 <= k < |rows|
      ensures Id(Mark(rows, ids, status)[k]) == Id(rows[k]) && Mark(rows, ids, status)[k].line == rows[k].line
    {
      MarkAt(rows, ids, status, k);
    }
  }

  lemma StepPersists(b: Books, step: Step)
    requires Allowed(b, step)
    ensures Persist(b.w.rows, Next(b, step).w.rows)
  {
    hide OutcomeOf;
    hide After;
    hide Mark;
    hide ActiveIds;
    match step
    case DoReserve(c) =>
      forall k | 0 <= k < |c.items| ensures Id(NewRows(c, |c.items|)[k]) == OrderId(c.tenant, c.order) {
        NewRowsAre(c, |c.items|, k);
      }
    case DoRelease(o) => MarkPersists(b.w.rows, ActiveIds(b.w.rows, o.tenant, o.order), Released);
    case DoAllocate(o) => MarkPersists(b.w.rows, ActiveIds(b.w.rows, o.tenant, o.order), Allocated);
    case DoSweep(g, _) => MarkPersists(b.w.rows, g.ids, Expired);
    case _ =>
  }

  lemma {:induction false} RunPersists(run: seq<Books>, steps: seq<Step>, m: nat, n: nat)
    requires IsRun(run, steps) && m <= n <= |steps|
    ensures Persist(run[m].w.rows, run[n].w.rows)
    decreases n
  {
    hide Allowed;
    hide Next;
    if m < n {
      RunPersists(run, steps, m, n - 1);
      assert Allowed(run[n - 1], steps[n - 1]) && run[n] == Next(run[n - 1], steps[n - 1]);
      StepPersists(run[n - 1], steps[n - 1]);
    }
  }

  lemma GroupIsWhole(rows: seq<Row>, batch: seq<nat>, groups: seq<Group>, i: nat)
    requires Ids(rows, batch) && Distinct(batch) && Unsplit(rows, batch) && Grouped(rows, batch, groups) && i < |groups|
    requires Uniform(rows) && forall k :: 0 <= k < |batch| ==> rows[batch[k]].status == Active
    ensures WholeOrder(rows, groups[i])
  {
    hide Pick;
    var g := groups[i];
    PickMembers(rows, batch, g.tenant, g.order);
    var first := g.ids[0];
    assert first in g.ids;
    var k :| 0 <= k < |batch| && batch[k] == first;
  }

  lemma StillWhole(was: seq<Row>, now: seq<Row>, g: Group)
    requires WholeOrder(was, g) && Persist(was, now)
    ensures WholeOrder(now, g)
  {
    assert Id(was[g.ids[0]]) == OrderId(g.tenant, g.order);
  }

  /** A batch the sweeper read in one state, whole orders of active rows, is one it may go on with in every later state
      of the run, whatever has become of the rows. */
  lemma ReadEarlier(run: seq<Books>, steps: seq<Step>, m: nat, n: nat, batch: seq<nat>, groups: seq<Group>, i: nat,
                    at: int)
    requires IsRun(run, steps) && m <= n <= |steps| && Inv(run[m]) && i < |groups|
    requires Ids(run[m].w.rows, batch) && Distinct(batch) && Unsplit(run[m].w.rows, batch)
    requires forall k :: 0 <= k < |batch| ==> run[m].w.rows[batch[k]].status == Active
    requires Grouped(run[m].w.rows, batch, groups)
    ensures Allowed(run[n], DoSweep(groups[i], at))
  {
    hide Mirrored;
    hide RowOk;
    hide Grouped;
    hide Persist;
    hide WholeOrder;
    hide Unsplit;
    GroupIsWhole(run[m].w.rows, batch, groups, i);
    RunPersists(run, steps, m, n);
    StillWhole(run[m].w.rows, run[n].w.rows, groups[i]);
  }

  lemma {:induction false} PassPersists(w: World, groups: seq<Group>, at: int)
    requires forall i :: 0 <= i < |groups| ==> Ids(w.rows, groups[i].ids)
    ensures Persist(w.rows, AfterSweep(w, groups, at).rows)
  {
    hide OutcomeOf;
    hide After;
    if groups != [] {
      var n := |groups| - 1;
      PassPersists(w, groups[..n], at);
      MarkPersists(AfterSweep(w, groups[..n], at).rows, groups[n].ids, Expired);
    }
  }

  /** A pass that nothing interrupts is the run of its groups, one sweep after the other. */
  lemma PassIsSweeps(b: Books, groups: seq<Group>, n: nat, at: int)
    requires n < |groups| && forall i :: 0 <= i < |groups| ==> Ids(b.w.rows, groups[i].ids)
    requires WholeOrder(b.w.rows, groups[n])
    ensures
      var now := b.(w := AfterSweep(b.w, groups[..n], at));
      && Allowed(now, DoSweep(groups[n], at))
      && Next(now, DoSweep(groups[n], at)) == b.(w := AfterSweep(b.w, groups[..n + 1], at))
  {
    hide AfterGroup;
    hide WholeOrder;
    hide Persist;
    PassPersists(b.w, groups[..n], at);
    StillWhole(b.w.rows, AfterSweep(b.w, groups[..n], at).rows, groups[n]);
    assert groups[..n + 1][..n] == groups[..n];
  }

  /** The race the batch query leaves open. An order is allocated after the sweeper has read its rows; the sweeper
      returns its units and marks the rows EXPIRED all the same, and a confirmation that then commits takes units
      held for others: this order's have been both returned and allocated. */
  lemma AllocatedThenExpired(b: Books, g: Group, c: OrderCall, at: int, confirm: Request)
    requires Inv(b) && WholeOrder(b.w.rows, g) && AllStand(b.w.rows, OrderId(g.tenant, g.order), Active)
    requires c.tenant == g.tenant && c.order == g.order && !InUse(b.w.keys, c.tenant, c.key)
    requires OutcomeOf(b.w.stock, SweepRequest(b.w, g, at)).Committed?
    requires confirm.kind == Kind.Confirm(g.order) && confirm.tenant == g.tenant
    ensures
      var mid := AfterAllocate(b.w, c);
      var end := b.(w := AfterGroup(mid, g, at));
      && (forall k :: k in g.ids ==> mid.rows[k].status == Allocated && end.w.rows[k].status == Expired)
      && !AllSettle(mid.rows, end.w.rows)
      && (Allowed(end, DoConfirm(confirm)) && OutcomeOf(end.w.stock, confirm).Committed? ==>
            var last := Next(end, DoConfirm(confirm));
            && !Mirrored(last)
            && forall loc :: At(last.w.stock.levels, loc).reserved
                             == HeldAt(last.w.rows, last.settled, loc)
                                - OrderAt(end.w.rows, OrderId(g.tenant, g.order), loc))
  {
    hide OutcomeOf;
    hide After;
    hide Mark;
    hide ActiveIds;
    hide At;
    hide HeldAt;
    hide OrderAt;
    hide LinesAt;
    hide Mirrored;
    hide RowOk;
    hide Uniform;
    hide NoNegatives;
    var mid := b.(w := AfterAllocate(b.w, c));
    var end := mid.(w := AfterGroup(mid.w, g, at));
    AllocatedRows(b, g, c);
    AllocateKeeps(b, c);
    SameLines(mid.w.rows, b.w.rows, g.ids);
    SweepKeeps(mid, g, at);
    forall k | k in g.ids ensures end.w.rows[k].status == Expired && !Settles(mid.w.rows[k], end.w.rows[k]) {
      MarkAt(mid.w.rows, g.ids, Expired, k);
    }
    var first := g.ids[0];
    assert first in g.ids && Id(end.w.rows[first]) == OrderId(g.tenant, g.order) by {
      MarkAt(mid.w.rows, g.ids, Expired, first);
    }
    if Allowed(end, DoConfirm(confirm)) && OutcomeOf(end.w.stock, confirm).Committed? {
      LateConfirmFallsShort(end, confirm);
    }
  }

  lemma AllocatedRows(b: Books, g: Group, c: OrderCall)
    requires Inv(b) && WholeOrder(b.w.rows, g) && AllStand(b.w.rows, OrderId(g.tenant, g.order), Active)
    requires c.tenant == g.tenant && c.order == g.order && !InUse(b.w.keys, c.tenant, c.key)
    ensures
      var rows := AfterAllocate(b.w, c).rows;
      && AfterAllocate(b.w, c).stock == b.w.stock && |rows| == |b.w.rows| && WholeOrder(rows, g)
      && OrderId(g.tenant, g.order) !in b.settled
      && (forall k :: k in g.ids ==> rows[k].status == Allocated)
      && forall k :: 0 <= k < |rows| ==> rows[k].line == b.w.rows[k].line
  {
    hide Mark;
    hide ActiveIds;
    hide Mirrored;
    hide Uniform;
    hide NoNegatives;
    hide RowOk;
    var ids := ActiveIds(b.w.rows, c.tenant, c.order);
    AllActiveIds(b.w.rows, c.tenant, c.order);
    var first := g.ids[0];
    assert first in ids;
    ActiveIdsAreAll(b, c.tenant, c.order);
    forall k | 0 <= k < |b.w.rows|
      ensures Mark(b.w.rows, ids, Allocated)[k]
           == if k in ids then b.w.rows[k].(status := Allocated) else b.w.rows[k]
    {
      MarkAt(b.w.rows, ids, Allocated, k);
    }
  }

  // ----- why the promises are needed -----

  /** An order split across two batches: the second group rides a spent compensation key, so its rows expire while
      their units stay in reserved for good. */
  lemma SplitOrderStrandsItsSecondHalf(b: Books, first: Group, second: Group, at: int, at': int, loc: Location)
    requires Inv(b) && Id2(first) == Id2(second)
    requires ActiveRows(b.w.rows, first.ids, first.tenant) && ActiveRows(b.w.rows, second.ids, second.tenant)
    requires forall k :: k in first.ids ==> k !in second.ids
    requires OutcomeOf(b.w.stock, SweepRequest(b.w, first, at)).Committed?
    ensures
      var mid := AfterGroup(b.w, first, at);
      var end := AfterGroup(mid, second, at');
      && (forall k :: k in second.ids ==> end.rows[k].status == Expired)
      && At(end.stock.levels, loc).reserved
         == HeldAt(end.rows, b.settled, loc) + SumAt(second.tenant, LinesAt(b.w.rows, second.ids), loc)
  {
    hide OutcomeOf;
    hide After;
    hide SortLines;
    hide HeldAt;
    hide Mark;
    hide LinesAt;
    hide At;
    var req := SweepRequest(b.w, first, at);
    var mid := AfterGroup(b.w, first, at);
    ReleasingKeepsMirror(b, req, first.ids, first.tenant, first.order, "ttl_expiry",
                         CompKey(first.tenant, first.order), at, Expired);
    ReleaseSpends(b.w.stock, first, req);
    forall k | 0 <= k < |b.w.rows|
      ensures mid.rows[k] == if k in first.ids then b.w.rows[k].(status := Expired) else b.w.rows[k]
    {
      MarkAt(b.w.rows, first.ids, Expired, k);
    }
    SameLines(mid.rows, b.w.rows, second.ids);
    SpentKeyReturnsNothing(mid, second, at', loc, b.settled);
  }

  function Id2(g: Group): OrderId {
    OrderId(g.tenant, g.order)
  }

  lemma SpentKeyReturnsNothing(w: World, g: Group, at: int, loc: Location, settled: set<OrderId>)
    requires ActiveRows(w.rows, g.ids, g.tenant) && !Unspent(w.stock.keys, g.tenant, g.order)
    ensures AfterGroup(w, g, at).stock == w.stock
    ensures HeldAt(AfterGroup(w, g, at).rows, settled, loc)
         == HeldAt(w.rows, settled, loc) - SumAt(g.tenant, LinesAt(w.rows, g.ids), loc)
    ensures forall k :: k in g.ids ==> AfterGroup(w, g, at).rows[k].status == Expired
  {
    hide After;
    hide HeldAt;
    hide LinesAt;
    CompKeys(g.tenant, g.order, g.order);
    var req := SweepRequest(w, g, at);
    assert OutcomeOf(w.stock, req) == Duplicate([]);
    NotCommitted(w.stock, req);
    EndingRows(w.rows, g.ids, g.tenant, Expired, settled, loc);
    forall k | k in g.ids
      ensures Mark(w.rows, g.ids, Expired)[k].status == Expired
    {
      MarkAt(w.rows, g.ids, Expired, k);
    }
  }

  /** The rows of a reservation that is answered Ok mirror the stock exactly when its hold is not a replay. A hold
      whose key the stock service has already recorded moves nothing, the rows are recorded all the same, and
      reserved falls short of them by exactly their lines. */
  lemma ReserveMirrorsExactlyWhen(b: Books, c: ReserveCall)
    requires Inv(b) && !c.fails && c.items != [] && Persistable(c.items)
    requires c.key != "" && !InUse(b.w.keys, c.tenant, c.key)
    ensures
      var b', unused := b.(w := AfterReserve(b.w, c)), Key(c.tenant, c.key) !in b.w.stock.keys;
      && (Mirrored(b') <==> unused)
      && (!unused ==>
            && ReserveReply(b.w, c) == Ok && |b'.w.rows| == |b.w.rows| + |c.items|
            && forall loc :: At(b'.w.stock.levels, loc).reserved
                             == HeldAt(b'.w.rows, b'.settled, loc) - SumAt(c.tenant, c.items, loc))
  {
    hide OutcomeOf;
    hide After;
    hide HoldRequest;
    hide At;
    hide HeldAt;
    hide SumTo;
    if Key(c.tenant, c.key) in b.w.stock.keys {
      var b' := b.(w := AfterReserve(b.w, c));
      ReplayedHold(b.w.stock, c);
      forall loc
        ensures At(b'.w.stock.levels, loc).reserved
             == HeldAt(b'.w.rows, b'.settled, loc) - SumAt(c.tenant, c.items, loc)
      {
        ShortOfRows(b, b', c, loc);
      }
      var loc := Loc(c.tenant, c.items[0]);
      SomethingIsHeld(c, loc);
      assert At(b'.w.stock.levels, loc).reserved != HeldAt(b'.w.rows, b'.settled, loc);
    } else {
      FreshHoldMirrors(b, c);
    }
  }

  lemma ShortOfRows(b: Books, b': Books, c: ReserveCall, loc: Location)
    requires Mirrored(b) && b'.settled == b.settled && b'.w.stock.levels == b.w.stock.levels
    requires b'.w.rows == b.w.rows + NewRows(c, |c.items|)
    ensures At(b'.w.stock.levels, loc).reserved == HeldAt(b'.w.rows, b'.settled, loc) - SumAt(c.tenant, c.items, loc)
  {
    hide HeldAt;
    hide At;
    hide NewRows;
    hide SumTo;
    RecordingRows(b.w.rows, c, |c.items|, b.settled, loc);
    assert At(b.w.stock.levels, loc).reserved == HeldAt(b.w.rows, b.settled, loc);
  }

  lemma SomethingIsHeld(c: ReserveCall, loc: Location)
    requires Persistable(c.items) && c.items != [] && loc == Loc(c.tenant, c.items[0])
    ensures SumAt(c.tenant, c.items, loc) > 0
  {
    assert Counted(c.items);
    SumsGrow(c.tenant, c.items, 1, |c.items|, loc);
    assert SumTo(c.tenant, c.items, 1, loc) == SumTo(c.tenant, c.items, 0, loc) + c.items[0].quantity;
  }

  lemma FreshHoldMirrors(b: Books, c: ReserveCall)
    requires Inv(b) && !c.fails && c.items != [] && Persistable(c.items)
    requires !InUse(b.w.keys, c.tenant, c.key) && Key(c.tenant, c.key) !in b.w.stock.keys
    ensures Mirrored(b.(w := AfterReserve(b.w, c)))
  {
    hide OutcomeOf;
    hide After;
    hide SortLines;
    hide HeldAt;
    hide SumTo;
    hide At;
    var b', hold := b.(w := AfterReserve(b.w, c)), HoldRequest(c);
    FreshSaysYes(b.w.stock, hold);
    if OutcomeOf(b.w.stock, hold).Committed? {
      forall loc ensures At(b'.w.stock.levels, loc).reserved == HeldAt(b'.w.rows, b'.settled, loc) {
        CommittedMoves(b.w.stock, hold, loc);
        RecordingRows(b.w.rows, c, |c.items|, b.settled, loc);
        SortedSums(Request(Kind.Reserve(c.order), c.tenant, c.key, c.items, c.at), loc);
        assert At(b.w.stock.levels, loc).reserved == HeldAt(b.w.rows, b.settled, loc);
      }
    } else {
      assert b'.w == b.w;
    }
  }

  /** So a retry of a Reserve whose recording failed: the stock service replays the hold it has already given back,
      the rows are recorded this time, and they hold units nobody reserved. */
  lemma RetryAfterCompensationHoldsNothing(b: Books, c: ReserveCall, loc: Location)
    requires Inv(b) && Allowed(b, DoReserve(c)) && c.key != "" && c.items != [] && Persistable(c.items)
    requires c.fails && OutcomeOf(b.w.stock, HoldRequest(c)).Committed?
    ensures
      var mid := AfterReserve(b.w, c);
      var end := AfterReserve(mid, c.(fails := false));
      && ReserveReply(mid, c.(fails := false)) == Ok
      && |end.rows| == |b.w.rows| + |c.items|
      && At(end.stock.levels, loc).reserved == HeldAt(end.rows, b.settled, loc) - SumAt(c.tenant, c.items, loc)
  {
    hide Inv;
    hide OutcomeOf;
    hide After;
    hide ReserveReply;
    hide At;
    hide HeldAt;
    hide SumTo;
    ReserveKeeps(b, c);
    HoldIsRecorded(b.w.stock, c);
    KeysOnlyGrow(After(b.w.stock, HoldRequest(c)), UndoRequest(c));
    var mid := b.(w := AfterReserve(b.w, c));
    assert mid.w.keys == b.w.keys && mid.w.rows == b.w.rows && Key(c.tenant, c.key) in mid.w.stock.keys;
    ReserveMirrorsExactlyWhen(mid, c.(fails := false));
  }

  lemma HoldIsRecorded(db: Tables, c: ReserveCall)
    requires c.key != "" && OutcomeOf(db, HoldRequest(c)).Committed?
    ensures Key(c.tenant, c.key) in After(db, HoldRequest(c)).keys
  {
    hide OutcomeOf;
  }

  lemma KeysOnlyGrow(db: Tables, req: Request)
    ensures db.keys.Keys <= After(db, req).keys.Keys
  {
    hide OutcomeOf;
  }
}
