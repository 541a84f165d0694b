/**
 runSaga and the resume pass as they run when nothing fails underneath them, tied step by step to the
 state machine of module Saga.
 */
module SagaRunner {
  import opened Base
  import opened StockLedger
  import opened Accounting
  import opened AllOrNothing
  import opened Effects
  import opened Settling
  import opened Reservations
  import opened Holds
  import opened Breaker
  import opened Saga
  import OrderLines
  import Fulfilment

  // ----- driving one run -----

  /** How many actions a run has left at most. */
  function Rank(pc: Pc): nat {
    match pc
    case AtReserve => 8
    case AtMarkReserved => 7
    case AtCharge => 6
    case AtRecord => 5
    case AtAllocate => 4
    case AtConfirm => 3
    case AtMarkConfirmed => 2
    case AtRelease => 3
    case AtMarkCompensated => 2
    case AtFail => 1
    case Stopped => 0
  }

  /** An action whose calls all get through moves the run on, and ends the saga when it ends the run. */
  lemma ActMovesOn(o: Order, s: State, i: nat, at: int)
    requires i < |s.runs| && s.runs[i].pc != Stopped
    ensures
      var s' := ActOf(o, s, i, Full, true, at);
      && |s'.runs| == |s.runs| && Rank(s'.runs[i].pc) < Rank(s.runs[i].pc)
      && s'.runs[i].lines == s.runs[i].lines
      && (s'.runs[i].pc == Stopped ==> Terminal(s'.saga))
  {
    hide OutcomeOf;
    hide After;
    hide HoldRequest;
    hide ReleaseOf;
    hide ActiveIds;
    hide Mark;
    hide AfterReserve;
    hide ReserveReply;
    hide AfterRelease;
    hide ReleaseReply;
    hide AfterAllocate;
  }

  /** Run i to its end, every call getting through, unless a breaker refuses the call made at `refused`. */
  function Drive(o: Order, s: State, i: nat, at: int, refused: Option<Pc>): State
    requires i < |s.runs|
    decreases Rank(s.runs[i].pc)
  {
    if s.runs[i].pc == Stopped then s
    else if refused == Some(s.runs[i].pc) then Goto(s, i, Stopped)
    else
      ActMovesOn(o, s, i, at);
      Drive(o, ActOf(o, s, i, Full, true, at), i, at, refused)
  }

  /** A run no breaker stops leaves its saga in a terminal state. */
  lemma {:induction false} DriveEnds(o: Order, s: State, i: nat, at: int)
    requires i < |s.runs| && s.runs[i].pc != Stopped
    ensures
      var s' := Drive(o, s, i, at, None);
      |s'.runs| == |s.runs| && s'.runs[i].pc == Stopped && Terminal(s'.saga)
    decreases Rank(s.runs[i].pc)
  {
    hide ActOf;
    ActMovesOn(o, s, i, at);
    var next := ActOf(o, s, i, Full, true, at);
    if next.runs[i].pc != Stopped { DriveEnds(o, next, i, at); }
  }

  lemma {:induction false} DriveKeeps(o: Order, s: State, i: nat, at: int, refused: Option<Pc>)
    requires Placed(o) && Saga.Inv(o, s) && i < |s.runs|
    ensures Saga.Inv(o, Drive(o, s, i, at, refused))
    decreases Rank(s.runs[i].pc)
  {
    hide Saga.Inv;
    hide ActOf;
    if s.runs[i].pc != Stopped {
      if refused == Some(s.runs[i].pc) {
        Saga.StepKeeps(o, s, Crash(i));
      } else {
        ActMovesOn(o, s, i, at);
        Saga.StepKeeps(o, s, Act(i, Full, true, at));
        DriveKeeps(o, ActOf(o, s, i, Full, true, at), i, at, refused);
      }
    }
  }

  /** One unfolding of Drive, with what the action did. */
  lemma DriveOn(o: Order, s: State, at: int, refused: Option<Pc>, s': State)
    requires |s.runs| == 1 && s.runs[0].pc != Stopped && refused != Some(s.runs[0].pc)
    requires s' == ActOf(o, s, 0, Full, true, at)
    ensures |s'.runs| == 1 && s'.runs[0].lines == s.runs[0].lines
    ensures Drive(o, s, 0, at, refused) == Drive(o, s', 0, at, refused)
  {
    hide ActOf;
    ActMovesOn(o, s, 0, at);
  }

  /** Marking the saga ends the run. */
  lemma DriveMark(o: Order, s: State, at: int)
    requires |s.runs| == 1 && s.runs[0].pc in {AtMarkConfirmed, AtMarkCompensated, AtFail}
    ensures
      var d, pc := Drive(o, s, 0, at, None), s.runs[0].pc;
      && d.w == s.w && d.log == s.log
      && d.saga == if pc == AtMarkConfirmed then Confirmed else if pc == AtMarkCompensated then Compensated else Failed
  {
    var s' := ActOf(o, s, 0, Full, true, at);
    DriveOn(o, s, at, None, s');
  }

  lemma DriveRelease(o: Order, s: State, at: int)
    requires |s.runs| == 1 && s.runs[0].pc == AtRelease
    ensures
      var d, c := Drive(o, s, 0, at, None), ReleaseCallOf(o, at);
      d.w == AfterRelease(s.w, c) && d.saga == if ReleaseReply(s.w, c).Error? then Failed else Compensated
  {
    hide AfterRelease;
    hide ReleaseReply;
    hide OutcomeOf;
    hide ReleaseOf;
    hide ActiveIds;
    hide Drive;
    var s' := ActOf(o, s, 0, Full, true, at);
    DriveOn(o, s, at, None, s');
    DriveMark(o, s', at);
  }

  lemma DriveConfirm(o: Order, s: State, at: int)
    requires |s.runs| == 1 && s.runs[0].pc == AtConfirm
    ensures
      var d, req := Drive(o, s, 0, at, None), ConfirmOf(o, s.runs[0].lines, at);
      && d.w == s.w.(stock := After(s.w.stock, req))
      && d.saga == (if StockSaysYes(OutcomeOf(s.w.stock, req)) then Confirmed else Failed)
      && d.log == Logged(s.log, s.w.stock, req)
  {
    hide OutcomeOf;
    hide After;
    hide ConfirmOf;
    hide Drive;
    var s' := ActOf(o, s, 0, Full, true, at);
    DriveOn(o, s, at, None, s');
    DriveMark(o, s', at);
  }

  /** Allocating the rows comes before confirming, and happens even when the confirming call is then refused. */
  lemma DriveAllocate(o: Order, s: State, at: int, refused: Option<Pc>)
    requires |s.runs| == 1 && s.runs[0].pc == AtAllocate && (refused.None? || refused.value == AtConfirm)
    ensures
      var d, w := Drive(o, s, 0, at, refused), AfterAllocate(s.w, AllocateOf(o, at));
      var req := ConfirmOf(o, s.runs[0].lines, at);
      if refused.Some? then d.w == w && d.saga == s.saga
      else
        && d.w == w.(stock := After(w.stock, req))
        && d.saga == (if StockSaysYes(OutcomeOf(w.stock, req)) then Confirmed else Failed)
        && d.log == Logged(s.log, w.stock, req)
  {
    hide OutcomeOf;
    hide After;
    hide ConfirmOf;
    hide AfterAllocate;
    var s' := ActOf(o, s, 0, Full, true, at);
    DriveOn(o, s, at, refused, s');
    if refused.None? {
      DriveConfirm(o, s', at);
    }
  }

  /** The run reaches the charge, asks the gateway, and then allocates or releases. */
  lemma DriveCharge(o: Order, s: State, at: int, refused: Option<Pc>, s': State)
    requires |s.runs| == 1 && s.runs[0].pc == AtCharge && (refused.None? || refused.value == AtConfirm)
    requires s' == s.(runs := [s.runs[0].(pc := if o.pays then AtAllocate else AtRelease)])
    ensures Drive(o, s, 0, at, refused) == Drive(o, s', 0, at, refused)
  {
    var first := ActOf(o, s, 0, Full, true, at);
    DriveOn(o, s, at, refused, first);
    if o.pays {
      var second := ActOf(o, first, 0, Full, true, at);
      DriveOn(o, first, at, refused, second);
      assert second == s';
    } else {
      assert first == s';
    }
  }

  /** The reservation is granted, now or before. */
  predicate Held(w: World, c: ReserveCall) {
    ReserveReply(w, c) == Ok || ReserveReply(w, c) == Replayed
  }

  /** A hold that did not succeed fails the saga. */
  lemma DriveRefusal(o: Order, s: State, at: int)
    requires |s.runs| == 1 && s.runs[0].pc == AtReserve
    ensures
      var d, c := Drive(o, s, 0, at, None), ReserveOf(o, s.runs[0].lines, at);
      !Held(s.w, c) ==>
        && d.w == AfterReserve(s.w, c) && d.saga == Failed
        && d.log == if c.items == [] then s.log else Logged(s.log, s.w.stock, HoldRequest(c))
  {
    hide AfterReserve;
    hide ReserveReply;
    hide HoldRequest;
    hide OutcomeOf;
    var s' := ActOf(o, s, 0, Full, true, at);
    DriveOn(o, s, at, None, s');
    if s'.runs[0].pc == AtFail { DriveMark(o, s', at); }
  }

  /** A run that gets from s to mid goes on from there. */
  ghost predicate Continues(o: Order, s: State, mid: State, at: int) {
    && |s.runs| == 1 && |mid.runs| == 1
    && forall r: Option<Pc> :: r != Some(AtReserve) && r != Some(AtMarkReserved) ==>
         Drive(o, s, 0, at, r) == Drive(o, mid, 0, at, r)
  }

  /** A hold that succeeded, now or before, takes the run to the charge. */
  lemma DriveReserve(o: Order, s: State, at: int) returns (mid: State)
    requires |s.runs| == 1 && s.runs[0].pc == AtReserve
    requires
      var reply := ReserveReply(s.w, ReserveOf(o, s.runs[0].lines, at));
      reply == Ok || reply == Replayed
    ensures mid.w == AfterReserve(s.w, ReserveOf(o, s.runs[0].lines, at)) && mid.saga == StockReserved
    ensures mid.runs == [Run(AtCharge, s.runs[0].lines)]
    ensures mid.log == Logged(s.log, s.w.stock, HoldRequest(ReserveOf(o, s.runs[0].lines, at)))
    ensures Continues(o, s, mid, at)
  {
    hide AfterReserve;
    hide HoldRequest;
    hide OutcomeOf;
    hide After;
    hide Drive;
    assert s.runs[0].lines != [];
    var s' := ActOf(o, s, 0, Full, true, at);
    mid := ActOf(o, s', 0, Full, true, at);
    forall r: Option<Pc> | r != Some(AtReserve) && r != Some(AtMarkReserved)
      ensures Drive(o, s, 0, at, r) == Drive(o, mid, 0, at, r)
    {
      DriveOn(o, s, at, r, s');
      DriveOn(o, s', at, r, mid);
    }
  }

  /** A saga row just picked up: one run, about to reserve. */
  function Started(w: World, saga: SagaState, lines: seq<Line>): State {
    State(w, saga, [Run(AtReserve, lines)], [])
  }

  /** A granted hold is what the stock service was asked for, and commits exactly when its key is new there. */
  lemma HeldIsStocked(w: World, c: ReserveCall)
    requires Held(w, c) && c.key != "" && !c.fails
    ensures AfterReserve(w, c).stock == After(w.stock, HoldRequest(c))
    ensures OutcomeOf(w.stock, HoldRequest(c)).Committed? <==> Key(c.tenant, c.key) !in w.stock.keys
    ensures AfterReserve(w, c).stock.keys.Keys == w.stock.keys.Keys + {Key(c.tenant, c.key)}
  {
    hide OutcomeOf;
    hide After;
    hide SortLines;
    KeyedCall(w.stock, HoldRequest(c));
  }

  lemma ConfirmIsKeyed(db: Tables, o: Order, lines: seq<Line>, at: int)
    requires StockSaysYes(OutcomeOf(db, ConfirmOf(o, lines, at)))
    ensures OutcomeOf(db, ConfirmOf(o, lines, at)).Committed? <==> ConfirmKey(o) !in db.keys
  {
    hide OutcomeOf;
    hide After;
    hide SortLines;
    KeysDiffer(o);
    KeyedCall(db, ConfirmOf(o, lines, at));
  }

  /** How a paying run that nothing disturbs ends, whatever the services hold when it starts. */
  lemma PayingRunEnds(o: Order, s: State, lines: seq<Line>, at: int)
    requires o.pays && s.runs == [Run(AtReserve, lines)]
    ensures
      var d, c, req := Drive(o, s, 0, at, None), ReserveOf(o, lines, at), ConfirmOf(o, lines, at);
      var held := AfterReserve(s.w, c);
      && (Held(s.w, c) ==>
            && d.w == AfterAllocate(held, AllocateOf(o, at)).(stock := After(held.stock, req))
            && d.log == Logged(Logged(s.log, s.w.stock, HoldRequest(c)), held.stock, req)
            && d.saga == if StockSaysYes(OutcomeOf(held.stock, req)) then Confirmed else Failed)
      && (!Held(s.w, c) ==>
            d.saga == Failed && d.log == if lines == [] then s.log else Logged(s.log, s.w.stock, HoldRequest(c)))
  {
    hide OutcomeOf;
    hide After;
    hide HoldRequest;
    hide ConfirmOf;
    hide AfterReserve;
    hide ReserveReply;
    hide Drive;
    DriveRefusal(o, s, at);
    if Held(s.w, ReserveOf(o, lines, at)) {
      var mid := DriveReserve(o, s, at);
      var last := mid.(runs := [Run(AtAllocate, lines)]);
      DriveCharge(o, mid, at, None, last);
      DriveAllocate(o, last, at, None);
      assert AfterAllocate(last.w, AllocateOf(o, at)).stock == mid.w.stock;
    }
  }

  /** Where the order key has to be the order's own. A paying run that nothing disturbs ends CONFIRMED exactly when its
      hold is granted and its confirmation accepted, and has then made exactly those of the two stock calls whose keys
      the stock service had not recorded before: both, as promised, if and only if it had recorded neither, and no
      call at all if and only if it had recorded both. */
  lemma ConfirmedExactlyWhen(o: Order, w: World, saga: SagaState, lines: seq<Line>, at: int)
    requires o.pays
    ensures
      var d, c, req := Drive(o, Started(w, saga, lines), 0, at, None), ReserveOf(o, lines, at), ConfirmOf(o, lines, at);
      var held, confirmed := ReserveKey(o) in w.stock.keys, ConfirmKey(o) in w.stock.keys;
      && (d.saga == Confirmed <==> Held(w, c) && StockSaysYes(OutcomeOf(AfterReserve(w, c).stock, req)))
      && (d.saga == Confirmed ==>
            && d.log == (if held then [] else [HoldRequest(c)]) + (if confirmed then [] else [req])
            && (d.log == [HoldRequest(c), req] <==> !held && !confirmed)
            && (d.log == [] <==> held && confirmed))
  {
    hide OutcomeOf;
    hide After;
    hide HoldRequest;
    hide ConfirmOf;
    hide AfterReserve;
    hide ReserveReply;
    hide Drive;
    var s, c, req := Started(w, saga, lines), ReserveOf(o, lines, at), ConfirmOf(o, lines, at);
    PayingRunEnds(o, s, lines, at);
    if Drive(o, s, 0, at, None).saga == Confirmed {
      KeysDiffer(o);
      HeldIsStocked(w, c);
      ConfirmIsKeyed(AfterReserve(w, c).stock, o, lines, at);
    }
  }

  /** A resume nothing disturbs settles the saga: whatever happened before it, the order ends failed, or
      confirmed with its stock allocated, or compensated with its stock returned. */
  lemma ResumeSettles(o: Order, s: State, lines: seq<Line>, at: int)
    requires Placed(o) && Saga.Inv(o, s) && Saga.Enabled(o, s, Resume(lines))
    ensures
      var s' := Drive(o, Saga.Next(o, s, Resume(lines)), |s.runs|, at, None);
      || s'.saga == Failed
      || (s'.saga == Confirmed && o.pays && Allotted(s'.log))
      || (s'.saga == Compensated && !o.pays && Returned(s'.log))
  {
    var began := Saga.Next(o, s, Resume(lines));
    Saga.StepKeeps(o, s, Resume(lines));
    DriveKeeps(o, began, |s.runs|, at, None);
    DriveEnds(o, began, |s.runs|, at);
  }

  /** Whatever has happened to the order database, an order it holds is one the saga's guarantees apply to,
      provided its key does not pass for a compensation key. */
  lemma StoredOrdersArePlaced(steps: seq<Fulfilment.Step>, id: OrderId, key: string, pays: bool)
    requires id in Fulfilment.AfterSteps(steps).db.orders && !IsComp(key)
    ensures
      var lines := OrderLines.StockLines(Fulfilment.AfterSteps(steps).db.orders[id].lines);
      Saga.Placed(Order(id.tenant, id.order, key, lines, pays))
  {
    Fulfilment.EventsAreFaithful(steps);
    var stored := Fulfilment.AfterSteps(steps).db.orders[id].lines;
    var lines := OrderLines.StockLines(stored);
    forall i | 0 <= i < |lines| ensures lines[i].quantity > 0 { OrderLines.StockLinesAt(stored, i); }
    PlainKeysDoNotCollide(Order(id.tenant, id.order, key, lines, pays));
  }

  // ----- a fresh order -----

  /** The stock can give the order everything it asks for. */
  predicate InStock(levels: map<Location, Level>, o: Order) {
    forall i :: 0 <= i < |o.lines| ==>
      var loc := Loc(o.tenant, o.lines[i]);
      loc in levels && !levels[loc].locked && levels[loc].available >= SumAt(o.tenant, o.lines, loc)
  }

  /** A sound database on which the order has left no trace, with room in every bucket for its units. */
  ghost predicate Untouched(o: Order, w: World) {
    && w.stock.checks && NoNegatives(w.stock.levels) && !SomeMine(o, w.rows)
    && (forall k :: k in {ReserveKey(o), ConfirmKey(o), ReturnKey(o)} ==> k !in w.stock.keys)
    && (forall k :: k in {ReserveKey(o), ReturnKey(o), Key(o.tenant, o.key + ":allocate")} ==> k !in w.keys)
    && (forall loc :: loc in w.stock.levels ==>
          && InInt32(w.stock.levels[loc].reserved + SumAt(o.tenant, o.lines, loc))
          && InInt32(w.stock.levels[loc].alloc + SumAt(o.tenant, o.lines, loc)))
  }

  /** At every row exactly the order's lines have left available: for reserved or, once settled, for allocated. */
  ghost predicate TakenFrom(o: Order, was: map<Location, Level>, now: map<Location, Level>, settled: bool) {
    && now.Keys == was.Keys
    && forall loc :: loc in was ==>
         var sum := SumAt(o.tenant, o.lines, loc);
         && now[loc].available == was[loc].available - sum && now[loc].locked == was[loc].locked
         && now[loc].reserved == was[loc].reserved + (if settled then 0 else sum)
         && now[loc].alloc == was[loc].alloc + (if settled then sum else 0)
  }

  /** The hold of a fresh order is granted exactly when the stock has it, and moves exactly the order's lines. */
  lemma FreshHold(o: Order, w: World, at: int)
    requires Saga.Placed(o) && Untouched(o, w)
    ensures
      var c := ReserveOf(o, o.lines, at);
      if InStock(w.stock.levels, o)
      then
        && ReserveReply(w, c) == Ok && Held(w, c) && OutcomeOf(w.stock, HoldRequest(c)).Committed?
        && AfterReserve(w, c).stock == After(w.stock, HoldRequest(c))
        && AfterReserve(w, c).rows == w.rows + NewRows(c, |o.lines|)
        && AfterReserve(w, c).keys == w.keys + {ReserveKey(o)}
        && TakenFrom(o, w.stock.levels, AfterReserve(w, c).stock.levels, false)
      else
        && ReserveReply(w, c).Lacking? && !Held(w, c) && !OutcomeOf(w.stock, HoldRequest(c)).Committed?
        && AfterReserve(w, c) == w
  {
    hide OutcomeOf;
    hide After;
    hide SortLines;
    hide SumTo;
    var c := ReserveOf(o, o.lines, at);
    var req := Request(Kind.Reserve(c.order), c.tenant, c.key, c.items, c.at);
    KeysDiffer(o);
    assert HoldRequest(c) == InLockOrder(req) && !IsDuplicate(w.stock, req);
    ReserveStockIsAllOrNothing(w.stock, req);
    assert EveryLineCovered(w.stock.levels, req) <==> InStock(w.stock.levels, o);
  }

  lemma HeldStaysSound(o: Order, w: World, at: int)
    requires Saga.Placed(o) && Untouched(o, w) && OutcomeOf(w.stock, HoldRequest(ReserveOf(o, o.lines, at))).Committed?
    ensures
      var db := After(w.stock, HoldRequest(ReserveOf(o, o.lines, at)));
      && db.checks && NoNegatives(db.levels)
      && ConfirmKey(o) !in db.keys && ReturnKey(o) !in db.keys
  {
    hide OutcomeOf;
    hide After;
    hide SortLines;
    hide NoNegatives;
    var hold := HoldRequest(ReserveOf(o, o.lines, at));
    KeysDiffer(o);
    KeyedCall(w.stock, hold);
    StillChecked(w.stock, hold);
    CommittedMoves(w.stock, hold, Location("", "", ""));
  }

  /** A call for the order's lines, in lock order, once they are held. */
  lemma HeldCanMove(o: Order, was: map<Location, Level>, now: map<Location, Level>, req: Request)
    requires Saga.Placed(o) && Moving(req.kind) && !req.kind.Fulfill? && req.tenant == o.tenant
    requires req.lines == SortLines(o.lines) && NoNegatives(was) && InStock(was, o) && TakenFrom(o, was, now, false)
    requires forall loc :: loc in was ==> InInt32(was[loc].alloc + SumAt(o.tenant, o.lines, loc))
    ensures CanMove(now, req) && Counted(req.lines)
    ensures forall loc :: SumAt(req.tenant, req.lines, loc) == SumAt(o.tenant, o.lines, loc)
  {
    hide SortLines;
    hide SumTo;
    SortedIsAscending(o.lines);
    SameMembers(req.lines, o.lines);
    SortedIsCounted(o.lines);
    forall loc ensures SumAt(req.tenant, req.lines, loc) == SumAt(o.tenant, o.lines, loc) {
      SumsIgnoreOrder(req.tenant, req.lines, o.lines, loc);
    }
    forall i | 0 <= i < |req.lines|
      ensures
        var loc := Loc(req.tenant, req.lines[i]);
        loc in now && Bears(req.kind, now[loc], SumAt(req.tenant, req.lines, loc))
    {
      var k :| 0 <= k < |o.lines| && o.lines[k] == req.lines[i];
      assert Loc(o.tenant, o.lines[k]) in was;
    }
  }

  lemma FreshConfirm(o: Order, w: World, db: Tables, at: int)
    requires Saga.Placed(o) && Untouched(o, w) && InStock(w.stock.levels, o)
    requires TakenFrom(o, w.stock.levels, db.levels, false)
    requires db.checks && NoNegatives(db.levels) && ConfirmKey(o) !in db.keys
    ensures
      var req := ConfirmOf(o, o.lines, at);
      OutcomeOf(db, req).Committed? && TakenFrom(o, w.stock.levels, After(db, req).levels, true)
  {
    hide OutcomeOf;
    hide After;
    hide SortLines;
    hide SumTo;
    hide NoNegatives;
    var req := ConfirmOf(o, o.lines, at);
    KeysDiffer(o);
    HeldCanMove(o, w.stock.levels, db.levels, req);
    MoveCommitsExactlyWhen(db, req);
  }

  lemma {:induction false} OnlyNewAreActive(rows: seq<Row>, c: ReserveCall, n: nat)
    requires n <= |c.items|
    requires forall i :: 0 <= i < |rows| ==> !(rows[i].tenant == c.tenant && rows[i].order == c.order)
    ensures
      var ids := ActiveIds(rows + NewRows(c, n), c.tenant, c.order);
      && |ids| == n && (forall i :: 0 <= i < n ==> ids[i] == |rows| + i)
      && LinesAt(rows + NewRows(c, n), ids) == c.items[..n]
    decreases n
  {
    hide ActiveIds;
    hide LinesAt;
    if n == 0 {
      assert rows + [] == rows;
      NoActiveIds(rows, c.tenant, c.order);
      NoLines(rows);
    } else {
      OnlyNewAreActive(rows, c, n - 1);
      var front, r := rows + NewRows(c, n - 1), Row(c.tenant, c.order, c.items[n - 1], Active, c.expires);
      assert rows + NewRows(c, n) == front + [r];
      ActiveMore(front, r);
      assert c.items[..n] == c.items[..n - 1] + [c.items[n - 1]];
    }
  }

  lemma NoLines(rows: seq<Row>)
    ensures LinesAt(rows, []) == []
  {
  }

  lemma ActiveMore(rows: seq<Row>, r: Row)
    requires r.status == Active
    ensures
      var was, now := ActiveIds(rows, r.tenant, r.order), ActiveIds(rows + [r], r.tenant, r.order);
      now == was + [|rows|] && LinesAt(rows + [r], now) == LinesAt(rows, was) + [r.line]
  {
    var was, now := ActiveIds(rows, r.tenant, r.order), ActiveIds(rows + [r], r.tenant, r.order);
    assert (rows + [r])[..|rows|] == rows;
    assert now[..|now| - 1] == was;
    SamePrefixLines(rows + [r], rows, was);
  }

  lemma {:induction false} SamePrefixLines(a: seq<Row>, b: seq<Row>, ids: seq<nat>)
    requires b <= a && Ids(b, ids)
    ensures Ids(a, ids) && LinesAt(a, ids) == LinesAt(b, ids)
  {
    if ids != [] { SamePrefixLines(a, b, ids[..|ids| - 1]); }
  }

  /** The saga keeps its promise to a fresh paying order: run undisturbed, it ends CONFIRMED if and only if the stock
      has everything the order asks for. Then the two stock calls have moved exactly the order's lines from available to
      allocated and its rows are recorded and allocated; otherwise it ends FAILED and neither service has changed. */
  lemma FreshOrderIsConfirmed(o: Order, w: World, saga: SagaState, at: int)
    requires Saga.Placed(o) && o.pays && Untouched(o, w)
    ensures
      var d := Drive(o, Started(w, saga, o.lines), 0, at, None);
      if InStock(w.stock.levels, o)
      then
        && d.saga == Confirmed && TakenFrom(o, w.stock.levels, d.w.stock.levels, true)
        && |d.log| == 2 && d.log[0].kind == Kind.Reserve(o.id) && d.log[1].kind == Kind.Confirm(o.id)
        && |d.w.rows| == |w.rows| + |o.lines| && d.w.rows[..|w.rows|] == w.rows
        && forall i :: 0 <= i < |o.lines| ==>
             d.w.rows[|w.rows| + i].(expires := 0) == Row(o.tenant, o.id, o.lines[i], Allocated, 0)
      else d.saga == Failed && d.w == w && d.log == []
  {
    hide OutcomeOf;
    hide After;
    hide HoldRequest;
    hide ConfirmOf;
    hide AfterReserve;
    hide ReserveReply;
    hide AfterAllocate;
    hide Drive;
    hide TakenFrom;
    hide InStock;
    hide Untouched;
    var c, req := ReserveOf(o, o.lines, at), ConfirmOf(o, o.lines, at);
    FreshHold(o, w, at);
    PayingRunEnds(o, Started(w, saga, o.lines), o.lines, at);
    if InStock(w.stock.levels, o) {
      HeldStaysSound(o, w, at);
      FreshConfirm(o, w, AfterReserve(w, c).stock, at);
      FreshRows(o, w, at);
      FreshKinds(o, at);
    } else {
      LackingFails(o, Started(w, saga, o.lines), at);
    }
  }

  lemma FreshReturn(o: Order, w: World, at: int)
    requires Saga.Placed(o) && Untouched(o, w) && InStock(w.stock.levels, o)
    ensures
      var held, c := AfterReserve(w, ReserveOf(o, o.lines, at)), ReleaseCallOf(o, at);
      && ReleaseReply(held, c) == Ok && AfterRelease(held, c).stock.levels == w.stock.levels
      && AfterRelease(held, c).rows
         == Mark(held.rows, ActiveIds(held.rows, o.tenant, o.id), Released)
  {
    hide OutcomeOf;
    hide After;
    hide HoldRequest;
    hide AfterReserve;
    hide ReserveReply;
    hide Mark;
    hide ActiveIds;
    hide LinesAt;
    hide SortLines;
    hide SumTo;
    hide NoNegatives;
    hide InStock;
    var hold, c := ReserveOf(o, o.lines, at), ReleaseCallOf(o, at);
    var held := AfterReserve(w, hold);
    KeysDiffer(o);
    FreshHold(o, w, at);
    HeldStaysSound(o, w, at);
    OnlyNewAreActive(w.rows, hold, |o.lines|);
    assert o.lines[..|o.lines|] == o.lines;
    var req := ReleaseOf(held, c);
    var kind := Kind.Release(o.id, "payment_failed");
    assert req == InLockOrder(Request(kind, o.tenant, CompKey(o.tenant, o.id), o.lines, at));
    HeldCanMove(o, w.stock.levels, held.stock.levels, req);
    MoveCommitsExactlyWhen(held.stock, req);
    forall loc | loc in w.stock.levels ensures After(held.stock, req).levels[loc] == w.stock.levels[loc] {
      assert MovedBy(req.kind, held.stock.levels[loc], After(held.stock, req).levels[loc],
                     SumAt(req.tenant, req.lines, loc));
    }
  }

  /** And to a fresh order whose payment fails: it ends COMPENSATED, every stock row is as it was before the hold, and
      none of its reservations is left active. */
  lemma FreshRefusalIsUndone(o: Order, w: World, saga: SagaState, at: int)
    requires Saga.Placed(o) && !o.pays && Untouched(o, w) && InStock(w.stock.levels, o)
    ensures
      var d := Drive(o, Started(w, saga, o.lines), 0, at, None);
      && d.saga == Compensated && d.w.stock.levels == w.stock.levels
      && |d.w.rows| == |w.rows| + |o.lines| && ActiveIds(d.w.rows, o.tenant, o.id) == []
  {
    hide OutcomeOf;
    hide After;
    hide HoldRequest;
    hide AfterReserve;
    hide ReserveReply;
    hide AfterRelease;
    hide ReleaseReply;
    hide Mark;
    hide ActiveIds;
    hide Drive;
    hide TakenFrom;
    hide InStock;
    hide Untouched;
    var s, c := Started(w, saga, o.lines), ReserveOf(o, o.lines, at);
    FreshHold(o, w, at);
    FreshReturn(o, w, at);
    var mid := DriveReserve(o, s, at);
    var last := mid.(runs := [Run(AtRelease, o.lines)]);
    DriveCharge(o, mid, at, None, last);
    DriveRelease(o, last, at);
    var rows, ids := mid.w.rows, ActiveIds(mid.w.rows, o.tenant, o.id);
    forall i | 0 <= i < |rows| && Mine(o, Mark(rows, ids, Released)[i])
      ensures Mark(rows, ids, Released)[i].status != Active
    {
      MarkAt(rows, ids, Released, i);
      AllActiveIds(rows, o.tenant, o.id);
    }
    NoneActive(Mark(rows, ids, Released), o.tenant, o.id);
  }

  lemma {:induction false} NoneActive(rows: seq<Row>, tenant: string, order: string)
    requires forall i :: 0 <= i < |rows| && rows[i].tenant == tenant && rows[i].order == order ==>
               rows[i].status != Active
    ensures ActiveIds(rows, tenant, order) == []
  {
    if rows != [] { NoneActive(rows[..|rows| - 1], tenant, order); }
  }

  lemma FreshKinds(o: Order, at: int)
    ensures HoldRequest(ReserveOf(o, o.lines, at)).kind == Kind.Reserve(o.id)
    ensures ConfirmOf(o, o.lines, at).kind == Kind.Confirm(o.id)
  {
  }

  lemma LackingFails(o: Order, s: State, at: int)
    requires |s.runs| == 1 && s.runs[0].pc == AtReserve && !Held(s.w, ReserveOf(o, s.runs[0].lines, at))
    ensures Drive(o, s, 0, at, None).w == AfterReserve(s.w, ReserveOf(o, s.runs[0].lines, at))
  {
    hide Drive;
    hide AfterReserve;
    DriveRefusal(o, s, at);
  }

  lemma FreshRows(o: Order, w: World, at: int)
    requires Saga.Placed(o) && Untouched(o, w) && InStock(w.stock.levels, o)
    ensures
      var rows := AfterAllocate(AfterReserve(w, ReserveOf(o, o.lines, at)), AllocateOf(o, at)).rows;
      && |rows| == |w.rows| + |o.lines| && rows[..|w.rows|] == w.rows
      && forall i :: 0 <= i < |o.lines| ==>
           rows[|w.rows| + i].(expires := 0) == Row(o.tenant, o.id, o.lines[i], Allocated, 0)
  {
    hide OutcomeOf;
    hide After;
    hide HoldRequest;
    hide AfterReserve;
    hide ReserveReply;
    hide Mark;
    hide ActiveIds;
    hide LinesAt;
    hide NoNegatives;
    hide TakenFrom;
    hide InStock;
    var c := ReserveOf(o, o.lines, at);
    var held := AfterReserve(w, c);
    FreshHold(o, w, at);
    OnlyNewAreActive(w.rows, c, |o.lines|);
    var ids := ActiveIds(held.rows, o.tenant, o.id);
    AllocateKeyDiffers(o);
    forall k | 0 <= k < |held.rows|
      ensures Mark(held.rows, ids, Allocated)[k]
           == if |w.rows| <= k then held.rows[k].(status := Allocated) else held.rows[k]
    {
      MarkAt(held.rows, ids, Allocated, k);
      if |w.rows| <= k { assert ids[k - |w.rows|] == k; }
    }
    forall i | 0 <= i < |o.lines|
      ensures held.rows[|w.rows| + i].(expires := 0) == Row(o.tenant, o.id, o.lines[i], Active, 0)
    {
      NewRowsAre(c, |o.lines|, i);
    }
  }

  lemma AllocateKeyDiffers(o: Order)
    ensures ReserveKey(o) != Key(o.tenant, o.key + ":allocate") && o.key + ":allocate" != ""
  {
    var n := |o.key|;
    assert (o.key + ":reserve")[n + 1] == 'r' && (o.key + ":allocate")[n + 1] == 'a';
  }

  // ----- a hold both returned and allocated -----

  /** What the other runs are doing makes no difference to a run. */
  lemma ActAlone(o: Order, s: State, i: nat, at: int)
    requires i < |s.runs|
    ensures
      var s' := ActOf(o, s, i, Full, true, at);
      |s'.runs| == |s.runs| && ActOf(o, s.(runs := [s.runs[i]]), 0, Full, true, at) == s'.(runs := [s'.runs[i]])
  {
    hide OutcomeOf;
    hide After;
    hide HoldRequest;
    hide ReleaseOf;
    hide ActiveIds;
    hide Mark;
    hide AfterReserve;
    hide ReserveReply;
    hide AfterRelease;
    hide ReleaseReply;
    hide AfterAllocate;
  }

  lemma {:induction false} DriveAlone(o: Order, s: State, i: nat, at: int)
    requires i < |s.runs|
    ensures
      var d, alone := Drive(o, s, i, at, None), Drive(o, s.(runs := [s.runs[i]]), 0, at, None);
      d.w == alone.w && d.saga == alone.saga && d.log == alone.log
    decreases Rank(s.runs[i].pc)
  {
    hide ActOf;
    if s.runs[i].pc != Stopped {
      ActMovesOn(o, s, i, at);
      ActAlone(o, s, i, at);
      DriveAlone(o, ActOf(o, s, i, Full, true, at), i, at);
    }
  }

  lemma SortOne(l: Line)
    ensures SortLines([l]) == [l]
  {
    assert SortLines([]) == [];
  }

  /** The row has the units in reserved and room for them in allocated. */
  predicate Stocked(levels: map<Location, Level>, loc: Location, q: int) {
    && loc in levels && levels[loc].NonNegative()
    && levels[loc].reserved >= q && InInt32(levels[loc].alloc + q)
  }

  /** A reservation whose hold has been made before goes through, whether or not its rows are recorded, and moves no
      stock. */
  lemma SpentHoldPasses(w: World, c: ReserveCall)
    requires c.items != [] && c.key != "" && !c.fails && Persistable(c.items) && Key(c.tenant, c.key) in w.stock.keys
    ensures ReserveReply(w, c) == Ok || ReserveReply(w, c) == Replayed
    ensures AfterReserve(w, c).stock == w.stock && !OutcomeOf(w.stock, HoldRequest(c)).Committed?
  {
    hide OutcomeOf;
    hide After;
    hide HoldRequest;
    ReplayedHold(w.stock, c);
  }

  function Resumed(s: State, lines: seq<Line>): State {
    s.(runs := s.runs + [Run(AtReserve, lines)])
  }

  lemma ConfirmsOne(db: Tables, o: Order, l: Line, at: int)
    requires o.lines == [l] && l.quantity > 0 && ConfirmKey(o) !in db.keys
    requires Stocked(db.levels, Loc(o.tenant, l), l.quantity)
    ensures OutcomeOf(db, ConfirmOf(o, o.lines, at)).Committed?
  {
    KeysDiffer(o);
    SortOne(l);
    OneLineCall(db, ConfirmOf(o, o.lines, at), l);
  }

  /** A paying order resumed when its hold key is spent and its confirmation key is not ends CONFIRMED as long as
      the row has the units in reserved, whoever they are held for. */
  lemma SpentHoldConfirms(o: Order, s: State, l: Line, at: int)
    requires o.pays && o.lines == [l] && l.quantity > 0
    requires ReserveKey(o) in s.w.stock.keys && ConfirmKey(o) !in s.w.stock.keys
    requires Stocked(s.w.stock.levels, Loc(o.tenant, l), l.quantity)
    ensures
      var d := Drive(o, Resumed(s, o.lines), |s.runs|, at, None);
      d.saga == Confirmed && d.log == s.log + [ConfirmOf(o, o.lines, at)]
  {
    hide Drive;
    var all := Resumed(s, o.lines);
    var alone := all.(runs := [Run(AtReserve, o.lines)]);
    DriveAlone(o, all, |s.runs|, at);
    assert all.(runs := [all.runs[|s.runs|]]) == alone;
    AloneConfirms(o, alone, l, at);
  }

  lemma AloneConfirms(o: Order, alone: State, l: Line, at: int)
    requires o.pays && o.lines == [l] && l.quantity > 0 && alone.runs == [Run(AtReserve, o.lines)]
    requires ReserveKey(o) in alone.w.stock.keys && ConfirmKey(o) !in alone.w.stock.keys
    requires Stocked(alone.w.stock.levels, Loc(o.tenant, l), l.quantity)
    ensures
      var d := Drive(o, alone, 0, at, None);
      d.saga == Confirmed && d.log == alone.log + [ConfirmOf(o, o.lines, at)]
  {
    hide OutcomeOf;
    hide After;
    hide HoldRequest;
    hide ConfirmOf;
    hide AfterReserve;
    hide ReserveReply;
    hide Stocked;
    hide Drive;
    KeysDiffer(o);
    SpentHoldPasses(alone.w, ReserveOf(o, o.lines, at));
    ConfirmsOne(alone.w.stock, o, l, at);
    PayingRunEnds(o, alone, o.lines, at);
  }

  /** What a refused order has done to the stock when its saga is picked up: nothing, a hold, or a hold and a return. */
  lemma RefusedLog(o: Order, run: seq<State>, steps: seq<Saga.Step>, s: State)
    requires Saga.Placed(o) && Saga.IsRun(o, run, steps) && s == run[|run| - 1] && !o.pays
    ensures |s.log| <= 2 && (|s.log| >= 1 ==> s.log[0].kind.Reserve?) && (|s.log| == 2 <==> Returned(s.log))
    ensures |s.log| > 0 <==> ReserveKey(o) in s.w.stock.keys
    ensures Returned(s.log) <==> ReturnKey(o) in s.w.stock.keys
    ensures ConfirmKey(o) !in s.w.stock.keys
  {
    hide ReserveKey;
    hide ReturnKey;
    hide ConfirmKey;
    hide MovesOrder;
    hide RowsMatch;
    Saga.ExactlyOnce(o, run, steps, s);
    Saga.RunKeeps(o, run, steps, |run| - 1);
    KeysSay(o, s);
  }

  /** Where the fixed verdict is needed. The resume pass does not carry the forced payment failure. From every state
      the refused order's saga can reach in which it can be resumed, the resume as a paying order leaves the stock
      both returned and allocated if and only if the return has reached the stock service and the confirmation
      commits there; and one that ends CONFIRMED is harmless if and only if the return has not. */
  lemma RefusalForgottenExactlyWhen(o: Order, run: seq<State>, steps: seq<Saga.Step>, s: State, lines: seq<Line>,
                                    at: int)
    requires Saga.Placed(o) && Saga.IsRun(o, run, steps) && s == run[|run| - 1] && !o.pays
    requires Saga.Enabled(o, s, Resume(lines))
    ensures
      var d, returned := Drive(o.(pays := true), Resumed(s, lines), |s.runs|, at, None), ReturnKey(o) in s.w.stock.keys;
      && (d.saga == Confirmed ==> Allotted(d.log) && (Returned(d.log) <==> returned))
      && (Returned(d.log) && Allotted(d.log)
          <==> returned && OutcomeOf(s.w.stock, ConfirmOf(o, lines, at)).Committed?)
  {
    hide OutcomeOf;
    hide After;
    hide AfterReserve;
    hide ReserveReply;
    hide Drive;
    hide Saga.IsRun;
    hide SortLines;
    var p, all := o.(pays := true), Resumed(s, lines);
    var c, req := ReserveOf(p, lines, at), ConfirmOf(p, lines, at);
    var alone := all.(runs := [Run(AtReserve, lines)]);
    RefusedLog(o, run, steps, s);
    SameSize(lines, o.lines);
    KeysDiffer(p);
    DriveAlone(p, all, |s.runs|, at);
    assert all.(runs := [all.runs[|s.runs|]]) == alone;
    PayingRunEnds(p, alone, lines, at);
    if ReserveKey(o) in s.w.stock.keys { SpentHoldPasses(s.w, c); }
    if Held(s.w, c) {
      HeldIsStocked(s.w, c);
      KeyedCall(AfterReserve(s.w, c).stock, req);
    }
  }

  /** So it happens: as long as other orders keep the units in reserved, nothing stops it. */
  lemma ForgottenRefusal(o: Order, run: seq<State>, steps: seq<Saga.Step>, s: State, l: Line, at: int)
    requires Saga.Placed(o) && Saga.IsRun(o, run, steps) && s == run[|run| - 1] && !o.pays && o.lines == [l]
    requires Returned(s.log) && Saga.Enabled(o, s, Resume(o.lines))
    requires Stocked(s.w.stock.levels, Loc(o.tenant, l), l.quantity)
    ensures
      var d := Drive(o.(pays := true), Resumed(s, o.lines), |s.runs|, at, None);
      && d.saga == Confirmed && Returned(d.log) && Allotted(d.log)
      && |d.log| == 3 && d.log[..2] == s.log && d.log[1].kind.Release? && d.log[2].kind.Confirm?
  {
    hide Drive;
    hide Saga.IsRun;
    hide OutcomeOf;
    RefusedLog(o, run, steps, s);
    SpentHoldConfirms(o.(pays := true), s, l, at);
    ConfirmsOne(s.w.stock, o, l, at);
    RefusalForgottenExactlyWhen(o, run, steps, s, o.lines, at);
  }

  /** A run goes on with a further step. */
  lemma OneStepOn(o: Order, run: seq<State>, steps: seq<Saga.Step>, step: Saga.Step)
    requires Saga.IsRun(o, run, steps) && Saga.Enabled(o, run[|run| - 1], step)
    ensures Saga.IsRun(o, run + [Saga.Next(o, run[|run| - 1], step)], steps + [step])
  {
    hide Saga.Enabled;
    hide Saga.Next;
  }

  /** Driving a run to its end is a schedule like any other. */
  lemma {:induction false} DriveIsARun(o: Order, run: seq<State>, steps: seq<Saga.Step>, i: nat, at: int)
      returns (run': seq<State>, steps': seq<Saga.Step>)
    requires Saga.IsRun(o, run, steps) && i < |run[|run| - 1].runs|
    ensures Saga.IsRun(o, run', steps') && run'[0] == run[0]
    ensures run'[|run'| - 1] == Drive(o, run[|run| - 1], i, at, None)
    decreases Rank(run[|run| - 1].runs[i].pc)
  {
    hide ActOf;
    var s := run[|run| - 1];
    if s.runs[i].pc == Stopped { return run, steps; }
    ActMovesOn(o, s, i, at);
    OneStepOn(o, run, steps, Act(i, Full, true, at));
    run', steps' := DriveIsARun(o, run + [ActOf(o, s, i, Full, true, at)], steps + [Act(i, Full, true, at)], i, at);
  }

  /** A hold of one line and its release, back to back. */
  lemma HeldAndGivenBack(o: Order, db: Tables, l: Line, at: int)
    requires o.lines == [l] && l.quantity > 0 && ReserveKey(o) !in db.keys && ReturnKey(o) !in db.keys
    requires ReserveKey(o) != ReturnKey(o)
    requires Stocked(db.levels, Loc(o.tenant, l), l.quantity)
    requires
      var row := db.levels[Loc(o.tenant, l)];
      !row.locked && row.available >= l.quantity && InInt32(row.reserved + l.quantity)
    ensures
      var c := ReserveOf(o, o.lines, at);
      var held := After(db, HoldRequest(c));
      && OutcomeOf(db, HoldRequest(c)).Committed? && OutcomeOf(held, UndoRequest(c)).Committed?
      && After(held, UndoRequest(c)).levels == db.levels
      && After(held, UndoRequest(c)).keys.Keys == db.keys.Keys + {ReserveKey(o), ReturnKey(o)}
  {
    hide OutcomeOf;
    hide After;
    var c := ReserveOf(o, o.lines, at);
    SortOne(l);
    KeysDiffer(o);
    var hold, undo := HoldRequest(c), UndoRequest(c);
    OneLineCall(db, hold, l);
    var held := After(db, hold);
    assert UndoRequest(c).lines == [l] && !IsDuplicate(held, undo);
    OneLineCall(held, undo, l);
  }

  lemma UndoneWorld(w: World, c: ReserveCall)
    requires c.items != [] && StockSaysYes(OutcomeOf(w.stock, HoldRequest(c)))
    ensures AfterReserve(w, c.(fails := true)) == w.(stock := After(After(w.stock, HoldRequest(c)), UndoRequest(c)))
  {
    hide OutcomeOf;
    hide After;
    assert HoldRequest(c.(fails := true)) == HoldRequest(c) && UndoRequest(c.(fails := true)) == UndoRequest(c);
  }

  /** The undone reservation, and the failed attempt to mark the saga. */
  lemma Undoing(o: Order, s: State, l: Line, at: int) returns (undone: State, unmarked: State)
    requires Saga.Placed(o) && Saga.Initial(o, s) && o.lines == [l]
    requires
      var c := ReserveOf(o, o.lines, at);
      var held := After(s.w.stock, HoldRequest(c));
      OutcomeOf(s.w.stock, HoldRequest(c)).Committed? && OutcomeOf(held, UndoRequest(c)).Committed?
    ensures undone == ActOf(o, s, 0, Undone, false, at)
    ensures |undone.runs| == 1 && undone.runs[0].pc == AtFail && unmarked == ActOf(o, undone, 0, Nothing, false, at)
    ensures |unmarked.runs| == 1 && !Terminal(unmarked.saga)
    ensures
      var c := ReserveOf(o, o.lines, at);
      && unmarked.w.stock == After(After(s.w.stock, HoldRequest(c)), UndoRequest(c))
      && unmarked.log == [HoldRequest(c), UndoRequest(c)]
  {
    hide AfterReserve;
    hide HoldRequest;
    hide UndoRequest;
    hide OutcomeOf;
    hide After;
    var c := ReserveOf(o, o.lines, at);
    UndoneWorld(s.w, c);
    undone := ActOf(o, s, 0, Undone, false, at);
    unmarked := ActOf(o, undone, 0, Nothing, false, at);
    assert s.runs[0].lines == o.lines;
    assert [] + [HoldRequest(c)] + [UndoRequest(c)] == [HoldRequest(c), UndoRequest(c)];
  }

  lemma HoldKinds(o: Order, at: int)
    ensures HoldRequest(ReserveOf(o, o.lines, at)).kind == Kind.Reserve(o.id)
    ensures UndoRequest(ReserveOf(o, o.lines, at)).kind == Kind.Release(o.id, "reserve_failure")
  {
  }

  /** The schedule so far, with the resume that follows. */
  lemma UndoneRun(o: Order, s: State, undone: State, unmarked: State, at: int)
      returns (run: seq<State>, steps: seq<Saga.Step>)
    requires Saga.Initial(o, s) && undone == ActOf(o, s, 0, Undone, false, at) && |undone.runs| == 1
    requires undone.runs[0].pc == AtFail && unmarked == ActOf(o, undone, 0, Nothing, false, at)
    requires |unmarked.runs| == 1 && !Terminal(unmarked.saga)
    ensures Saga.IsRun(o, run, steps) && run[0] == s && run[|run| - 1] == Resumed(unmarked, o.lines)
  {
    hide ActOf;
    var first, second, third := Act(0, Undone, false, at), Act(0, Nothing, false, at), Resume(o.lines);
    OneStepOn(o, [s], [], first);
    assert [s] + [undone] == [s, undone] && [] + [first] == [first];
    OneStepOn(o, [s, undone], [first], second);
    assert [s, undone] + [unmarked] == [s, undone, unmarked] && [first] + [second] == [first, second];
    OneStepOn(o, [s, undone, unmarked], [first, second], third);
    run, steps := [s, undone, unmarked] + [Resumed(unmarked, o.lines)], [first, second] + [third];
  }

  /** Where undoing a reservation does harm. The rows cannot be recorded, the hold is given back under the
      compensation key, and marking the saga FAILED does not get through either, which nobody notices. The resume
      is told its hold is a replay, records the rows this time, and confirms: held, returned and allocated. */
  lemma UndoneHoldIsConfirmed(o: Order, s: State, l: Line, at: int) returns (run: seq<State>, steps: seq<Saga.Step>)
    requires Saga.Placed(o) && Saga.Initial(o, s) && o.pays && o.lines == [l]
    requires Stocked(s.w.stock.levels, Loc(o.tenant, l), l.quantity)
    requires
      var row := s.w.stock.levels[Loc(o.tenant, l)];
      !row.locked && row.available >= l.quantity && InInt32(row.reserved + l.quantity)
    ensures Saga.IsRun(o, run, steps) && run[0] == s
    ensures
      var end := run[|run| - 1];
      && end.saga == Confirmed && !Once(end.log, o)
      && |end.log| == 3 && end.log[0].kind == Kind.Reserve(o.id)
      && end.log[1].kind == Kind.Release(o.id, "reserve_failure") && end.log[2].kind == Kind.Confirm(o.id)
  {
    hide OutcomeOf;
    hide After;
    hide HoldRequest;
    hide UndoRequest;
    hide Drive;
    KeysDiffer(o);
    assert o.lines[0] == l;
    HeldAndGivenBack(o, s.w.stock, l, at);
    var undone, unmarked := Undoing(o, s, l, at);
    SpentHoldConfirms(o, unmarked, l, at) by {
      assert ConfirmKey(o) !in s.w.stock.keys && ConfirmKey(o) != ReturnKey(o);
    }
    assert HoldRequest(ReserveOf(o, o.lines, at)).kind == Kind.Reserve(o.id) by { HoldKinds(o, at); }
    assert UndoRequest(ReserveOf(o, o.lines, at)).kind == Kind.Release(o.id, "reserve_failure") by { HoldKinds(o, at); }
    run, steps := UndoneRun(o, s, undone, unmarked, at);
    run, steps := DriveIsARun(o, run, steps, 1, at);
  }

  // ----- when the key is not the order's own -----

  lemma ReplayedReserve(w: World, c: ReserveCall)
    requires c.items != [] && c.key != "" && !c.fails
    requires Key(c.tenant, c.key) in w.stock.keys && Key(c.tenant, c.key) in w.keys
    ensures ReserveReply(w, c) == Replayed && AfterReserve(w, c) == w
    ensures !OutcomeOf(w.stock, HoldRequest(c)).Committed?
  {
    hide OutcomeOf;
    hide After;
    hide HoldRequest;
    ReplayedHold(w.stock, c);
  }

  lemma ReplayedConfirm(db: Tables, o: Order, lines: seq<Line>, at: int)
    requires ConfirmKey(o) in db.keys
    ensures OutcomeOf(db, ConfirmOf(o, lines, at)).Duplicate? && After(db, ConfirmOf(o, lines, at)) == db
  {
    hide DeltaAfter;
    hide SortLines;
    KeysDiffer(o);
  }

  /** Where the tenant-unique key is needed. Orders placed without a key share the step keys of their tenant, as do
      orders placed under one key: once another order has been through, this one is told its hold and its
      confirmation are replays, and ends CONFIRMED without a unit of stock having moved. */
  lemma SharedKeyConfirmsNothing(o: Order, w: World, saga: SagaState, at: int)
    requires o.lines != [] && o.pays
    requires ReserveKey(o) in w.keys && ReserveKey(o) in w.stock.keys && ConfirmKey(o) in w.stock.keys
    requires forall i :: 0 <= i < |w.rows| ==> !Mine(o, w.rows[i])
    ensures
      var d := Drive(o, Started(w, saga, o.lines), 0, at, None);
      d.saga == Confirmed && d.log == [] && d.w.stock == w.stock && d.w.rows == w.rows
  {
    hide OutcomeOf;
    hide After;
    hide HoldRequest;
    hide ConfirmOf;
    hide AfterReserve;
    hide ReserveReply;
    hide AfterAllocate;
    hide Drive;
    KeysDiffer(o);
    ReplayedReserve(w, ReserveOf(o, o.lines, at));
    ReplayedConfirm(w.stock, o, o.lines, at);
    NothingToAllocate(w, AllocateOf(o, at));
    PayingRunEnds(o, Started(w, saga, o.lines), o.lines, at);
    ConfirmedExactlyWhen(o, w, saga, o.lines, at);
  }

  lemma {:induction false} NoActiveIds(rows: seq<Row>, tenant: string, order: string)
    requires forall i :: 0 <= i < |rows| ==> !(rows[i].tenant == tenant && rows[i].order == order)
    ensures ActiveIds(rows, tenant, order) == []
  {
    if rows != [] { NoActiveIds(rows[..|rows| - 1], tenant, order); }
  }

  lemma NothingToAllocate(w: World, c: OrderCall)
    requires forall i :: 0 <= i < |w.rows| ==> !(w.rows[i].tenant == c.tenant && w.rows[i].order == c.order)
    ensures AfterAllocate(w, c).rows == w.rows && AfterAllocate(w, c).stock == w.stock
  {
    NoActiveIds(w.rows, c.tenant, c.order);
  }

  // ----- the orchestrator -----

  /** The gateway's answer; a forced failure does not reach it. Only approval counts as payment. */
  datatype Charge = Approved | Declined | GatewayError | Forced

  datatype CancelReply = TooLate | Cancelled(state: SagaState) | CancelError

  /** A cancellation without a reason is a customer's. */
  function CancelCallOf(o: Order, reason: string, at: int): OrderCall {
    OrderCall(o.tenant, o.id, if reason == "" then "customer_cancel" else reason, CompKey(o.tenant, o.id), at)
  }

  /** A release that succeeds leaves no active row of its order, so nothing the sweeper or a second release could
      return again. */
  lemma ReleaseEndsTheHold(w: World, c: OrderCall, i: nat)
    requires ReleaseReply(w, c) == Ok && i < |w.rows|
    ensures
      var r := AfterRelease(w, c).rows[i];
      && |AfterRelease(w, c).rows| == |w.rows|
      && (r.tenant == c.tenant && r.order == c.order ==> r.status != Active)
      && (r != w.rows[i] ==> w.rows[i].status == Active && r == w.rows[i].(status := Released))
  {
    hide OutcomeOf;
    hide After;
    hide ReleaseOf;
    var ids := ActiveIds(w.rows, c.tenant, c.order);
    MarkAt(w.rows, ids, Released, i);
    AllActiveIds(w.rows, c.tenant, c.order);
  }

  /** A cancelled hold goes back once: the cancellation spends the key under which the saga's own compensation and the
      sweeper would return it, so neither returns anything after it, whatever reason was given. */
  lemma CancelReturnsOnce(w: World, o: Order, reason: string, at: int, g: Group, later: int)
    requires ReleaseReply(w, CancelCallOf(o, reason, at)) == Ok && ActiveIds(w.rows, o.tenant, o.id) != []
    requires g.tenant == o.tenant && g.order == o.id && Ids(w.rows, g.ids)
    ensures
      var w' := AfterRelease(w, CancelCallOf(o, reason, at));
      && ReleaseReply(w', ReleaseCallOf(o, later)) == Replayed && AfterRelease(w', ReleaseCallOf(o, later)) == w'
      && |w'.rows| == |w.rows| && AfterGroup(w', g, later).stock == w'.stock
      && ReturnKey(o) in w'.stock.keys && ReturnKey(o) in w'.keys
  {
    hide OutcomeOf;
    hide After;
    hide SortLines;
    hide ActiveIds;
    hide Mark;
    hide LinesAt;
    var c := CancelCallOf(o, reason, at);
    var w' := AfterRelease(w, c);
    CompKeys(o.tenant, o.id, o.id);
    KeyedCall(w.stock, ReleaseOf(w, c));
    assert ReturnKey(o) in w'.stock.keys;
    KeyedCall(w'.stock, SweepRequest(w', g, later));
  }

  /** A cancellation without a reason is logged as the customer's. */
  lemma CancelReason(o: Order, reason: string, at: int, w: World)
    ensures ReleaseOf(w, CancelCallOf(o, reason, at)).kind
         == Kind.Release(o.id, if reason == "" then "customer_cancel" else reason)
  {
  }

  class OrderService {
    const reservations: ReservationService
    const resBreaker: CircuitBreaker
    const payBreaker: CircuitBreaker
    const stockBreaker: CircuitBreaker
    var sagas: map<OrderId, SagaState>

    constructor (reservations: ReservationService, cfg: Config)
      ensures this.reservations == reservations && sagas == map[] && Valid()
      ensures fresh(resBreaker) && fresh(payBreaker) && fresh(stockBreaker)
      ensures Steady(0)
    {
      this.reservations := reservations;
      resBreaker := new CircuitBreaker(cfg);
      payBreaker := new CircuitBreaker(cfg);
      stockBreaker := new CircuitBreaker(cfg);
      sagas := map[];
    }

    ghost predicate Valid()
      reads this
    {
      resBreaker != payBreaker && payBreaker != stockBreaker && resBreaker != stockBreaker
      && resBreaker.cfg == payBreaker.cfg && resBreaker.cfg == stockBreaker.cfg && resBreaker.cfg.threshold > 0
    }

    function Fuses(): Fuses
      reads this, resBreaker, payBreaker, stockBreaker
    {
      FusesNow(resBreaker.State(), payBreaker.State(), stockBreaker.State())
    }

    /** Every breaker is closed and has counted at most n failures. */
    ghost predicate Steady(n: nat)
      reads resBreaker, payBreaker, stockBreaker
    {
      && resBreaker.mode == Closed && resBreaker.failures <= n
      && payBreaker.mode == Closed && payBreaker.failures <= n
      && stockBreaker.mode == Closed && stockBreaker.failures <= n
    }

    /** The services and the order's saga row are as in `s`, whose one run is at `pc`. */
    ghost predicate Shows(o: Order, s: State, pc: Pc)
      reads this, reservations, reservations.stock
    {
      && Tracks(o, s)
      && |s.runs| == 1 && s.runs[0].pc == pc
    }

    ghost predicate Tracks(o: Order, s: State)
      reads this, reservations, reservations.stock
    {
      reservations.Now() == s.w && OrderIdOf(o) in sagas && sagas[OrderIdOf(o)] == s.saga
    }

    /** Unconditional: the old state is not looked at. */
    method Transition(id: OrderId, state: SagaState)
      modifies this`sagas
      ensures sagas == old(sagas)[id := state]
    {
      sagas := sagas[id := state];
    }

    /** Release the hold under the compensation key, then mark the saga. */
    method Compensate(o: Order, at: int, ghost s: State)
      requires Valid() && Shows(o, s, AtRelease)
      modifies this`sagas, reservations, reservations.stock
      ensures Tracks(o, Drive(o, s, 0, at, None))
      ensures sagas == old(sagas)[OrderIdOf(o) := sagas[OrderIdOf(o)]]
    {
      hide Drive;
      hide AfterRelease;
      hide ReleaseReply;
      DriveRelease(o, s, at);
      var reply := reservations.Release(ReleaseCallOf(o, at));
      if reply.Error? {
        Transition(OrderIdOf(o), Failed);
      } else {
        Transition(OrderIdOf(o), Compensated);
      }
    }

    /** Cancel an order whose saga has not ended: release its hold and mark it. An ended saga is reported as it is. */
    method CancelOrder(o: Order, reason: string, at: int) returns (reply: CancelReply)
      requires Valid() && OrderIdOf(o) in sagas
      modifies this`sagas, reservations, reservations.stock
      ensures
        var was, w := old(sagas[OrderIdOf(o)]), old(reservations.Now());
        if Terminal(was) then
          sagas == old(sagas) && reservations.Now() == w
          && reply == (if was == Confirmed then TooLate else Cancelled(was))
        else
          && reservations.Now() == AfterRelease(w, CancelCallOf(o, reason, at))
          && (reply == CancelError <==> ReleaseReply(w, CancelCallOf(o, reason, at)).Error?)
          && (if reply == CancelError then sagas == old(sagas)
              else reply == Cancelled(Compensated) && sagas == old(sagas)[OrderIdOf(o) := Compensated])
    {
      hide AfterRelease;
      hide ReleaseReply;
      var was := sagas[OrderIdOf(o)];
      if was == Confirmed { return TooLate; }
      if was == Compensated || was == Failed { return Cancelled(was); }
      var released := reservations.Release(CancelCallOf(o, reason, at));
      if released.Error? { return CancelError; }
      Transition(OrderIdOf(o), Compensated);
      reply := Cancelled(Compensated);
    }

    /** Allocate the rows, then move the stock from reserved to allocated. */
    method AllocateAndConfirm(o: Order, lines: seq<Line>, at: int, now: int, ghost s: State)
      returns (refused: Option<Pc>)
      requires Valid() && Shows(o, s, AtAllocate) && s.runs[0].lines == lines
      modifies this`sagas, reservations, reservations.stock, resBreaker, stockBreaker
      ensures refused.None? || refused.value == AtConfirm
      ensures Tracks(o, Drive(o, s, 0, at, refused))
      ensures sagas == old(sagas)[OrderIdOf(o) := sagas[OrderIdOf(o)]]
      ensures refused.None? <==> Admits(stockBreaker.cfg, old(stockBreaker.State()), now)
      ensures resBreaker.State() == AfterCall(resBreaker.cfg, old(resBreaker.State()), Worked)
      ensures stockBreaker.State()
           == Guarded(stockBreaker.cfg, old(stockBreaker.State()), now, ConfirmErrs(o, s.w, lines, at))
    {
      hide Drive;
      hide AfterAllocate;
      hide OutcomeOf;
      hide After;
      hide SortLines;
      hide AfterCall;
      hide Admits;
      DriveAllocate(o, s, at, None);
      DriveAllocate(o, s, at, Some(AtConfirm));
      AllocateSpares(s.w, AllocateOf(o, at));
      var _ := reservations.AllocateReservation(AllocateOf(o, at));
      resBreaker.RecordSuccess();
      var ok := stockBreaker.Allow(now);
      if !ok { return Some(AtConfirm); }
      var out := reservations.stock.ConfirmStockAllocation(o.tenant, o.id, o.key + ":confirm", lines, at);
      if !StockSaysYes(out) {
        stockBreaker.RecordFailure(now);
        Transition(OrderIdOf(o), Failed);
        return None;
      }
      stockBreaker.RecordSuccess();
      Transition(OrderIdOf(o), Confirmed);
      return None;
    }

    /** Ask the gateway, unless the failure is forced. Anything but approval is a failed payment, but only a
        gateway error counts against the breaker. */
    method Charge(charge: Charge, now: int) returns (ok: bool)
      modifies payBreaker
      ensures ok <==> charge == Forced || Admits(payBreaker.cfg, old(payBreaker.State()), now)
      ensures payBreaker.State()
           == if charge == Forced then old(payBreaker.State())
              else Guarded(payBreaker.cfg, old(payBreaker.State()), now, charge == GatewayError)
    {
      if charge == Forced { return true; }
      ok := payBreaker.Allow(now);
      if !ok { return; }
      if charge == GatewayError { payBreaker.RecordFailure(now); } else { payBreaker.RecordSuccess(); }
    }

    /** Charge, then allocate and confirm, or compensate. */
    method ChargeAndSettle(o: Order, lines: seq<Line>, charge: Charge, at: int, now: int, ghost s: State)
      returns (refused: Option<Pc>)
      requires Valid() && Shows(o, s, AtCharge) && s.runs[0].lines == lines && (o.pays <==> charge == Approved)
      modifies this`sagas, reservations, reservations.stock, resBreaker, payBreaker, stockBreaker
      ensures Tracks(o, Drive(o, s, 0, at, refused))
      ensures sagas == old(sagas)[OrderIdOf(o) := sagas[OrderIdOf(o)]]
      ensures refused == SettleRefusedAt(resBreaker.cfg, old(Fuses()), charge, now)
      ensures Fuses() == SettledFuses(resBreaker.cfg, old(Fuses()), o, s.w, lines, charge, at, now)
    {
      hide Drive;
      hide AfterCall;
      hide Admits;
      hide ConfirmErrs;
      DriveStopped(o, s, at);
      ghost var s' := s.(runs := [s.runs[0].(pc := if o.pays then AtAllocate else AtRelease)]);
      DriveCharge(o, s, at, None, s');
      DriveCharge(o, s, at, Some(AtConfirm), s');
      var ok := this.Charge(charge, now);
      if !ok { return Some(AtCharge); }
      if charge == Approved {
        refused := AllocateAndConfirm(o, lines, at, now, s');
      } else {
        Compensate(o, at, s');
        refused := None;
      }
    }

    /** Ask for the hold, and fail the saga when it is not given. */
    method Hold(o: Order, lines: seq<Line>, at: int, now: int, ghost s: State)
      returns (ok: bool, held: bool, ghost mid: State)
      requires Valid() && Shows(o, s, AtReserve) && s.runs[0].lines == lines
      modifies this`sagas, reservations, reservations.stock, resBreaker
      ensures !ok ==> Tracks(o, s)
      ensures ok && !held ==> Tracks(o, Drive(o, s, 0, at, None))
      ensures ok && held ==> Shows(o, mid, AtCharge) && mid.runs[0].lines == lines && Continues(o, s, mid, at)
      ensures sagas == old(sagas)[OrderIdOf(o) := sagas[OrderIdOf(o)]]
      ensures ok <==> Admits(resBreaker.cfg, old(resBreaker.State()), now)
      ensures resBreaker.State() == Guarded(resBreaker.cfg, old(resBreaker.State()), now,
                                            ReserveReply(s.w, ReserveOf(o, lines, at)).Error?)
      ensures ok ==> (held <==> Held(s.w, ReserveOf(o, lines, at)))
      ensures ok && held ==> mid.w == AfterReserve(s.w, ReserveOf(o, lines, at))
    {
      hide Drive;
      hide AfterCall;
      hide Admits;
      hide AfterReserve;
      hide ReserveReply;
      held, mid := false, s;
      DriveRefusal(o, s, at);
      ok := resBreaker.Allow(now);
      if !ok { return; }
      var reply := reservations.Reserve(ReserveOf(o, lines, at));
      if reply.Error? {
        resBreaker.RecordFailure(now);
        Transition(OrderIdOf(o), Failed);
        return;
      }
      resBreaker.RecordSuccess();
      if reply.Lacking? {
        Transition(OrderIdOf(o), Failed);
        return;
      }
      mid := DriveReserve(o, s, at);
      Transition(OrderIdOf(o), StockReserved);
      held := true;
    }

    /** Reserve, charge, allocate, confirm; or release when the payment fails. Closed breakers refuse nothing. */
    method RunSaga(o: Order, lines: seq<Line>, charge: Charge, at: int, now: int) returns (refused: Option<Pc>)
      requires Valid() && OrderIdOf(o) in sagas && (o.pays <==> charge == Approved)
      modifies this`sagas, reservations, reservations.stock, resBreaker, payBreaker, stockBreaker
      ensures Tracks(o, Drive(o, Started(old(reservations.Now()), old(sagas[OrderIdOf(o)]), lines), 0, at, refused))
      ensures sagas == old(sagas)[OrderIdOf(o) := sagas[OrderIdOf(o)]]
      ensures refused
           == RefusedAt(resBreaker.cfg, old(Fuses()), o, old(reservations.Now()), lines, charge, at, now)
      ensures Fuses()
           == FusesAfter(resBreaker.cfg, old(Fuses()), o, old(reservations.Now()), lines, charge, at, now)
    {
      hide Drive;
      hide ReserveReply;
      hide AfterReserve;
      hide ReserveOf;
      hide Held;
      hide Guarded;
      hide Admits;
      hide SettleRefusedAt;
      hide SettledFuses;
      ghost var s := Started(reservations.Now(), sagas[OrderIdOf(o)], lines);
      DriveStopped(o, s, at);
      var ok, held, mid := Hold(o, lines, at, now, s);
      if !ok { return Some(AtReserve); }
      if !held { return None; }
      refused := ChargeAndSettle(o, lines, charge, at, now, mid);
      SettleRefusals(resBreaker.cfg, old(Fuses()), charge, now);
      assert Drive(o, s, 0, at, refused) == Drive(o, mid, 0, at, refused);
    }

    method ResumeOne(p: Pending, at: int, now: int, ghost n: nat)
      requires Valid() && OrderIdOf(p.order) in sagas && (p.order.pays <==> p.charge == Approved)
      modifies this`sagas, reservations, reservations.stock, resBreaker, payBreaker, stockBreaker
      ensures OrderIdOf(p.order) in sagas && sagas == old(sagas)[OrderIdOf(p.order) := sagas[OrderIdOf(p.order)]]
      ensures
        var erred: nat := if Errs(p.order, old(reservations.Now()), p.lines, p.charge, at) then 1 else 0;
        old(Steady(n)) ==>
          && Terminal(sagas[OrderIdOf(p.order)])
          && reservations.Now() == WorldAfter(old(reservations.Now()), old(sagas[OrderIdOf(p.order)]), p, at)
          && (n + erred < resBreaker.cfg.threshold ==> Steady(n + erred))
    {
      hide Drive;
      hide RefusedAt;
      hide FusesAfter;
      hide Errs;
      DriveEnds(p.order, Started(reservations.Now(), sagas[OrderIdOf(p.order)], p.lines), 0, at);
      ghost var w := reservations.Now();
      RunIsSteady(resBreaker.cfg, Fuses(), p.order, w, p.lines, p.charge, at, now);
      ClosedRefuseNothing(resBreaker.cfg, Fuses(), p.order, w, p.lines, p.charge, at, now);
      var _ := RunSaga(p.order, p.lines, p.charge, at, now);
    }

    /** Re-drives the sagas it picked up, going on past the ones that error but giving up the pass at the first whose
        lines cannot be loaded. However long the pass, a saga it gets to ends when fewer calls have errored before it
        than the breakers have to spare; when none errs, every saga it gets to ends. */
    method ResumePendingSagas(picked: seq<Pending>, at: int, now: int, ghost n: nat) returns (ok: bool)
      requires Valid() && Resumable(picked, sagas)
      modifies this`sagas, reservations, reservations.stock, resBreaker, payBreaker, stockBreaker
      ensures ok <==> Loaded(picked) == |picked|
      ensures sagas.Keys == old(sagas.Keys)
      ensures forall id :: id in old(sagas) && !Picked(picked[..Loaded(picked)], id) ==> sagas[id] == old(sagas[id])
      ensures
        var w, was, got := old(reservations.Now()), old(sagas), Loaded(picked);
        old(Steady(n)) ==>
          && Ended(w, was, picked, got, at, resBreaker.cfg.threshold - n, sagas)
          && (n + Errors(w, was, picked, got, at) < resBreaker.cfg.threshold ==>
                reservations.Now() == PassWorld(w, was, picked, got, at))
          && (n < resBreaker.cfg.threshold && Clean(w, was, picked, got, at) ==> AllEnded(picked, got, sagas))
    {
      hide Errs;
      hide Drive;
      hide Errors;
      hide PassWorld;
      hide WorldAfter;
      hide Picked;
      hide Ended;
      hide Clean;
      hide AllEnded;
      PassBegins(reservations.Now(), sagas, picked, at, resBreaker.cfg.threshold - n);
      ghost var w, was, steady, most := reservations.Now(), sagas, Steady(n), resBreaker.cfg.threshold;
      for k := 0 to |picked|
        invariant Valid() && sagas.Keys == was.Keys && k <= Loaded(picked)
        invariant forall id :: id in was && !Picked(picked[..k], id) ==> sagas[id] == was[id]
        invariant steady && n + Errors(w, was, picked, k, at) < most ==>
                    Steady(n + Errors(w, was, picked, k, at)) && reservations.Now() == PassWorld(w, was, picked, k, at)
        invariant steady ==> Ended(w, was, picked, k, at, most - n, sagas)
      {
        if !picked[k].loads {
          if steady && n < most { CleanPass(w, was, picked, k, at, most - n, sagas); }
          return false;
        }
        NotYetPicked(picked, k, was);
        ghost var before := sagas;
        ResumeOne(picked[k], at, now, n + Errors(w, was, picked, k, at));
        PickedMore(picked, k);
        PassGoesOn(w, was, picked, k, at);
        if steady { EndsOneMore(w, was, picked, k, at, most - n, before, sagas); }
      }
      if steady && n < most { CleanPass(w, was, picked, |picked|, at, most - n, sagas); }
      ok := true;
    }
  }

  /** A saga the resume pass picked up: whether its lines can be loaded, those lines, and what the gateway will
      answer. */
  datatype Pending = Pending(order: Order, loads: bool, lines: seq<Line>, charge: Charge)

  /** How many sagas the pass gets to before the first whose lines cannot be loaded. */
  function Loaded(picked: seq<Pending>): (n: nat)
    ensures n <= |picked| && (forall i :: 0 <= i < n ==> picked[i].loads) && (n < |picked| ==> !picked[n].loads)
  {
    if picked == [] || !picked[0].loads then 0 else 1 + Loaded(picked[1..])
  }

  predicate Picked(picked: seq<Pending>, id: OrderId) {
    exists i :: 0 <= i < |picked| && OrderIdOf(picked[i].order) == id
  }

  /** Distinct orders with a saga row, each with a settled payment verdict. */
  ghost predicate Resumable(picked: seq<Pending>, sagas: map<OrderId, SagaState>) {
    && (forall i :: 0 <= i < |picked| ==>
          OrderIdOf(picked[i].order) in sagas && (picked[i].order.pays <==> picked[i].charge == Approved))
    && (forall i, j :: 0 <= i < j < |picked| ==> OrderIdOf(picked[i].order) != OrderIdOf(picked[j].order))
  }

  lemma PickedMore(picked: seq<Pending>, k: nat)
    requires k < |picked|
    ensures forall id :: Picked(picked[..k + 1], id) <==> Picked(picked[..k], id) || id == OrderIdOf(picked[k].order)
  {
    forall id ensures Picked(picked[..k + 1], id) <==> Picked(picked[..k], id) || id == OrderIdOf(picked[k].order) {
      if Picked(picked[..k], id) {
        var i :| 0 <= i < k && OrderIdOf(picked[..k][i].order) == id;
        assert OrderIdOf(picked[..k + 1][i].order) == id;
      }
      assert OrderIdOf(picked[..k + 1][k].order) == OrderIdOf(picked[k].order);
    }
  }

  lemma NotYetPicked(picked: seq<Pending>, k: nat, sagas: map<OrderId, SagaState>)
    requires Resumable(picked, sagas) && k < |picked|
    ensures !Picked(picked[..k], OrderIdOf(picked[k].order)) && OrderIdOf(picked[k].order) in sagas
  {
  }

  // ----- errors in a pass -----

  predicate ConfirmErrs(o: Order, w: World, lines: seq<Line>, at: int) {
    !StockSaysYes(OutcomeOf(w.stock, ConfirmOf(o, lines, at)))
  }

  predicate SettleErrs(o: Order, w: World, lines: seq<Line>, charge: Charge, at: int) {
    charge == GatewayError || (charge == Approved && ConfirmErrs(o, w, lines, at))
  }

  /** Whether a run no breaker refuses meets a call that errors: the reservation, the gateway or the confirmation. */
  predicate Errs(o: Order, w: World, lines: seq<Line>, charge: Charge, at: int) {
    var c := ReserveOf(o, lines, at);
    ReserveReply(w, c).Error? || (Held(w, c) && SettleErrs(o, AfterReserve(w, c), lines, charge, at))
  }

  lemma AllocateSpares(w: World, c: OrderCall)
    ensures AfterAllocate(w, c).stock == w.stock
  {
  }

  // ----- the breakers -----

  datatype Fuses = FusesNow(res: Fuse, pay: Fuse, stock: Fuse)

  /** The call a breaker refuses once the hold is granted, if one does. A forced failure does not ask the gateway. */
  function SettleRefusedAt(cfg: Config, f: Fuses, charge: Charge, now: int): Option<Pc> {
    if charge != Forced && !Admits(cfg, f.pay, now) then Some(AtCharge)
    else if charge == Approved && !Admits(cfg, f.stock, now) then Some(AtConfirm)
    else None
  }

  /** The breakers after the charge and, if it is approved, the allocation and the confirmation. */
  function SettledFuses(cfg: Config, f: Fuses, o: Order, w: World, lines: seq<Line>, charge: Charge, at: int, now: int)
    : Fuses
  {
    var pay := if charge == Forced then f.pay else Guarded(cfg, f.pay, now, charge == GatewayError);
    if charge != Approved || !Admits(cfg, f.pay, now) then f.(pay := pay)
    else FusesNow(AfterCall(cfg, f.res, Worked), pay, Guarded(cfg, f.stock, now, ConfirmErrs(o, w, lines, at)))
  }

  /** The call a breaker refuses, if one does. */
  function RefusedAt(cfg: Config, f: Fuses, o: Order, w: World, lines: seq<Line>, charge: Charge, at: int, now: int)
    : Option<Pc>
  {
    if !Admits(cfg, f.res, now) then Some(AtReserve)
    else if !Held(w, ReserveOf(o, lines, at)) then None
    else SettleRefusedAt(cfg, f, charge, now)
  }

  /** The breakers after the run: every call made is recorded as what it was, and no other. */
  function FusesAfter(cfg: Config, f: Fuses, o: Order, w: World, lines: seq<Line>, charge: Charge, at: int, now: int)
    : Fuses
  {
    var c := ReserveOf(o, lines, at);
    var asked := f.(res := Guarded(cfg, f.res, now, ReserveReply(w, c).Error?));
    if !Admits(cfg, f.res, now) || !Held(w, c) then asked
    else SettledFuses(cfg, asked, o, AfterReserve(w, c), lines, charge, at, now)
  }

  lemma SettleRefusals(cfg: Config, f: Fuses, charge: Charge, now: int)
    ensures forall res :: SettleRefusedAt(cfg, f.(res := res), charge, now) == SettleRefusedAt(cfg, f, charge, now)
    ensures SettleRefusedAt(cfg, f, charge, now) in {None, Some(AtCharge), Some(AtConfirm)}
  {
  }

  /** A run counts at most one failure against each breaker, and none unless a call of it errs. */
  lemma RunIsSteady(cfg: Config, f: Fuses, o: Order, w: World, lines: seq<Line>, charge: Charge, at: int, now: int)
    ensures
      var f', erred := FusesAfter(cfg, f, o, w, lines, charge, at, now), Errs(o, w, lines, charge, at);
      && Steadier(cfg, f.res, f'.res, erred)
      && Steadier(cfg, f.pay, f'.pay, erred) && Steadier(cfg, f.stock, f'.stock, erred)
  {
    hide Guarded;
    hide AfterCall;
    hide Admits;
    hide Steadier;
    hide ReserveReply;
    hide AfterReserve;
    hide ConfirmErrs;
    var c, erred := ReserveOf(o, lines, at), Errs(o, w, lines, charge, at);
    GuardedIsSteady(cfg, f.res, now, ReserveReply(w, c).Error?, erred);
    GuardedIsSteady(cfg, f.pay, now, false, erred);
    GuardedIsSteady(cfg, f.stock, now, false, erred);
    if Held(w, c) {
      GuardedIsSteady(cfg, f.pay, now, charge == GatewayError, erred);
      if charge == Approved {
        GuardedIsSteady(cfg, f.stock, now, ConfirmErrs(o, AfterReserve(w, c), lines, at), erred);
      }
    }
  }

  lemma ClosedRefuseNothing(cfg: Config, f: Fuses, o: Order, w: World, lines: seq<Line>, charge: Charge, at: int,
                            now: int)
    ensures f.res.mode == Closed && f.pay.mode == Closed && f.stock.mode == Closed ==>
              RefusedAt(cfg, f, o, w, lines, charge, at, now) == None
  {
    hide ReserveReply;
  }

  /** What fail-fast means for the saga: when a reservation errs and the breaker has no failure to spare, every run
      started within the cooldown is refused before it asks for anything. */
  lemma FailsFast(cfg: Config, f: Fuses, o: Order, w: World, lines: seq<Line>, charge: Charge, at: int, now: int,
                  later: int, o': Order, w': World, lines': seq<Line>, charge': Charge)
    requires f.res.mode == Closed && f.res.failures + 1 >= cfg.threshold
    requires ReserveReply(w, ReserveOf(o, lines, at)).Error? && later - now < cfg.cooldown
    ensures RefusedAt(cfg, FusesAfter(cfg, f, o, w, lines, charge, at, now), o', w', lines', charge', at, later)
         == Some(AtReserve)
  {
    hide ReserveReply;
    ErrorTrips(cfg, f.res, now, later);
  }

  /** The services after one saga has been re-driven. */
  function WorldAfter(w: World, saga: SagaState, p: Pending, at: int): World {
    Drive(p.order, Started(w, saga, p.lines), 0, at, None).w
  }

  /** The services after the first k sagas of a pass have been re-driven. */
  ghost function PassWorld(w: World, sagas: map<OrderId, SagaState>, picked: seq<Pending>, k: nat, at: int): World
    requires Resumable(picked, sagas) && k <= |picked|
  {
    if k == 0 then w
    else WorldAfter(PassWorld(w, sagas, picked, k - 1, at), sagas[OrderIdOf(picked[k - 1].order)], picked[k - 1], at)
  }

  ghost predicate ErrsAt(w: World, sagas: map<OrderId, SagaState>, picked: seq<Pending>, i: nat, at: int)
    requires Resumable(picked, sagas) && i < |picked|
  {
    Errs(picked[i].order, PassWorld(w, sagas, picked, i, at), picked[i].lines, picked[i].charge, at)
  }

  /** How many of the first k sagas of a pass meet a call that errors. */
  ghost function Errors(w: World, sagas: map<OrderId, SagaState>, picked: seq<Pending>, k: nat, at: int): nat
    requires Resumable(picked, sagas) && k <= |picked|
  {
    if k == 0 then 0
    else Errors(w, sagas, picked, k - 1, at) + if ErrsAt(w, sagas, picked, k - 1, at) then 1 else 0
  }

  /** Each of the first k sagas has ended unless `spare` or more of those before it met a call that errored. */
  ghost predicate Ended(w: World, was: map<OrderId, SagaState>, picked: seq<Pending>, k: nat, at: int, spare: int,
                        now: map<OrderId, SagaState>)
    requires Resumable(picked, was) && k <= |picked|
  {
    forall i :: 0 <= i < k && Errors(w, was, picked, i, at) < spare ==>
      OrderIdOf(picked[i].order) in now && Terminal(now[OrderIdOf(picked[i].order)])
  }

  lemma PassBegins(w: World, was: map<OrderId, SagaState>, picked: seq<Pending>, at: int, spare: int)
    requires Resumable(picked, was)
    ensures PassWorld(w, was, picked, 0, at) == w && Errors(w, was, picked, 0, at) == 0
    ensures Ended(w, was, picked, 0, at, spare, was) && forall id :: !Picked(picked[..0], id)
  {
  }

  lemma PassGoesOn(w: World, was: map<OrderId, SagaState>, picked: seq<Pending>, k: nat, at: int)
    requires Resumable(picked, was) && k < |picked|
    ensures PassWorld(w, was, picked, k + 1, at)
         == WorldAfter(PassWorld(w, was, picked, k, at), was[OrderIdOf(picked[k].order)], picked[k], at)
    ensures Errors(w, was, picked, k + 1, at)
         == Errors(w, was, picked, k, at)
            + (if Errs(picked[k].order, PassWorld(w, was, picked, k, at), picked[k].lines, picked[k].charge, at)
               then 1 else 0)
  {
    hide Errs;
    hide WorldAfter;
  }

  lemma EndsOneMore(w: World, was: map<OrderId, SagaState>, picked: seq<Pending>, k: nat, at: int, spare: int,
                    before: map<OrderId, SagaState>, now: map<OrderId, SagaState>)
    requires Resumable(picked, was) && k < |picked| && Ended(w, was, picked, k, at, spare, before)
    requires OrderIdOf(picked[k].order) in now
    requires now == before[OrderIdOf(picked[k].order) := now[OrderIdOf(picked[k].order)]]
    requires Errors(w, was, picked, k, at) < spare ==> Terminal(now[OrderIdOf(picked[k].order)])
    ensures Ended(w, was, picked, k + 1, at, spare, now)
  {
    hide Errors;
  }

  /** No call of the first k sagas errors. */
  ghost predicate Clean(w: World, was: map<OrderId, SagaState>, picked: seq<Pending>, k: nat, at: int)
    requires Resumable(picked, was) && k <= |picked|
  {
    forall i :: 0 <= i < k ==> !ErrsAt(w, was, picked, i, at)
  }

  predicate AllEnded(picked: seq<Pending>, k: nat, now: map<OrderId, SagaState>)
    requires k <= |picked|
  {
    forall i :: 0 <= i < k ==> OrderIdOf(picked[i].order) in now && Terminal(now[OrderIdOf(picked[i].order)])
  }

  lemma {:induction false} NothingCounted(w: World, was: map<OrderId, SagaState>, picked: seq<Pending>, k: nat, i: nat,
                                          at: int)
    requires Resumable(picked, was) && i <= k <= |picked| && Clean(w, was, picked, k, at)
    ensures Errors(w, was, picked, i, at) == 0
    decreases i
  {
    hide ErrsAt;
    hide PassWorld;
    if i > 0 { NothingCounted(w, was, picked, k, i - 1, at); }
  }

  /** A pass in which nothing errors ends every saga it gets to, however many there are. */
  lemma CleanPass(w: World, was: map<OrderId, SagaState>, picked: seq<Pending>, k: nat, at: int, spare: int,
                  now: map<OrderId, SagaState>)
    requires Resumable(picked, was) && k <= |picked| && Ended(w, was, picked, k, at, spare, now) && spare > 0
    ensures Clean(w, was, picked, k, at) ==> AllEnded(picked, k, now)
  {
    hide ErrsAt;
    hide Errors;
    if Clean(w, was, picked, k, at) {
      forall i | 0 <= i < k
        ensures OrderIdOf(picked[i].order) in now && Terminal(now[OrderIdOf(picked[i].order)])
      {
        NothingCounted(w, was, picked, k, i, at);
      }
    }
  }

  /** A refused call stops the run where it is. */
  lemma DriveStopped(o: Order, s: State, at: int)
    requires |s.runs| == 1 && s.runs[0].pc != Stopped
    ensures
      var d := Drive(o, s, 0, at, Some(s.runs[0].pc));
      d.w == s.w && d.saga == s.saga
  {
  }

  function OrderIdOf(o: Order): OrderId { OrderId(o.tenant, o.id) }
}
