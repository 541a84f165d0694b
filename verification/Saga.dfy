/**
 The order saga under crashes, lost replies, concurrent resumes and interference.

 The state is one order's saga row, the two services it calls, every run of `runSaga` for the order
 (the original and any number of resumes, all of which may be alive at once) and the log of stock
 calls those runs caused to commit. Each RPC may take no effect, stop between its two local
 transactions, or take full effect, and its reply may be lost in every case; a reservation whose rows
 cannot be recorded may also give its hold back.
 */
module Saga {
  import opened StockLedger
  import opened AllOrNothing
  import opened Reservations
  import opened Holds

  datatype SagaState = PendingPayment | StockReserved | Confirmed | Compensated | Failed

  /** An order as persisted by CreateOrder; `pays` is its fixed payment verdict. */
  datatype Order = Order(tenant: string, id: string, key: string, lines: seq<Line>, pays: bool)

  /** Where a run of runSaga is about to act. */
  datatype Pc =
    | AtReserve | AtMarkReserved | AtCharge | AtRecord | AtAllocate | AtConfirm | AtMarkConfirmed
    | AtRelease | AtMarkCompensated | AtFail | Stopped

  /** A run works on the order's lines in request order or, resumed, in stored order. */
  datatype Run = Run(pc: Pc, lines: seq<Line>)

  datatype State = State(w: World, saga: SagaState, runs: seq<Run>, log: seq<Request>)

  /** How far an RPC got. Undone is Reserve's own: the rows could not be recorded, and the hold was released. */
  datatype Reach = Nothing | Half | Undone | Full

  // ----- the calls -----

  function ReserveOf(o: Order, lines: seq<Line>, at: int): ReserveCall {
    ReserveCall(o.tenant, o.id, o.key + ":reserve", lines, at, 0, false)
  }

  function ReleaseCallOf(o: Order, at: int): OrderCall {
    OrderCall(o.tenant, o.id, "payment_failed", CompKey(o.tenant, o.id), at)
  }

  function AllocateOf(o: Order, at: int): OrderCall {
    OrderCall(o.tenant, o.id, "", o.key + ":allocate", at)
  }

  function ConfirmOf(o: Order, lines: seq<Line>, at: int): Request {
    InLockOrder(Request(Kind.Confirm(o.id), o.tenant, o.key + ":confirm", lines, at))
  }

  function ReserveKey(o: Order): Key { Key(o.tenant, o.key + ":reserve") }
  function ConfirmKey(o: Order): Key { Key(o.tenant, o.key + ":confirm") }
  function ReturnKey(o: Order): Key { Key(o.tenant, CompKey(o.tenant, o.id)) }

  /** The log grows by a stock call that commits. */
  function Logged(log: seq<Request>, db: Tables, req: Request): seq<Request> {
    if OutcomeOf(db, req).Committed? then log + [req] else log
  }

  predicate Terminal(s: SagaState) {
    s == Confirmed || s == Compensated || s == Failed
  }

  // ----- steps -----

  /** What can happen: a run acts (`reach` and `seen` say how its RPC fares, or `seen` whether its local
      transaction committed), a run crashes, the resume loop picks the saga up, anything happens elsewhere. */
  datatype Step =
    | Act(i: nat, reach: Reach, seen: bool, at: int)
    | Crash(i: nat)
    | Resume(lines: seq<Line>)
    | Elsewhere(w: World)

  predicate Mine(o: Order, r: Row) {
    r.tenant == o.tenant && r.order == o.id
  }

  /** Interference leaves the order's rows and keys alone: nobody cancels or sweeps it, and no other order
      shares its keys. Stock levels may change in any way. */
  ghost predicate Spares(o: Order, w: World, w': World) {
    && |w.rows| <= |w'.rows|
    && (forall i :: 0 <= i < |w.rows| ==> if Mine(o, w.rows[i]) then w'.rows[i] == w.rows[i] else !Mine(o, w'.rows[i]))
    && (forall i :: |w.rows| <= i < |w'.rows| ==> !Mine(o, w'.rows[i]))
    && (forall k :: k in {ReserveKey(o), ConfirmKey(o), ReturnKey(o)} ==> (k in w.stock.keys <==> k in w'.stock.keys))
    && (forall k :: k in {ReserveKey(o), ReturnKey(o)} ==> (k in w.keys <==> k in w'.keys))
  }

  ghost predicate Enabled(o: Order, s: State, step: Step) {
    match step
    case Act(i, _, _, _) => i < |s.runs| && s.runs[i].pc != Stopped
    case Crash(i) => i < |s.runs|
    case Resume(lines) => !Terminal(s.saga) && multiset(lines) == multiset(o.lines)
    case Elsewhere(w) => Spares(o, s.w, w)
  }

  function Goto(s: State, i: nat, pc: Pc): State
    requires i < |s.runs|
  {
    s.(runs := s.runs[i := s.runs[i].(pc := pc)])
  }

  /** The log after a reservation whose rows could not be recorded. */
  function UndoneLog(log: seq<Request>, db: Tables, c: ReserveCall): seq<Request> {
    if StockSaysYes(OutcomeOf(db, HoldRequest(c)))
    then Logged(Logged(log, db, HoldRequest(c)), After(db, HoldRequest(c)), UndoRequest(c))
    else log
  }

  /** Reserve: stock hold, then rows, or the hold given back. */
  function ActReserve(o: Order, s: State, i: nat, reach: Reach, seen: bool, at: int): State
    requires i < |s.runs|
  {
    var c := ReserveOf(o, s.runs[i].lines, at);
    var held := After(s.w.stock, HoldRequest(c));
    match reach
    case Nothing => Goto(s, i, AtFail)
    case Half => Goto(s.(w := s.w.(stock := held), log := Logged(s.log, s.w.stock, HoldRequest(c))), i, AtFail)
    case Undone =>
      Goto(s.(w := AfterReserve(s.w, c.(fails := true)), log := UndoneLog(s.log, s.w.stock, c)), i, AtFail)
    case Full =>
      var reply := ReserveReply(s.w, c);
      Goto(s.(w := AfterReserve(s.w, c),
              log := if c.items == [] then s.log else Logged(s.log, s.w.stock, HoldRequest(c))),
           i, if seen && (reply == Ok || reply == Replayed) then AtMarkReserved else AtFail)
  }

  /** Release: stock return, then rows. */
  function ActRelease(o: Order, s: State, i: nat, reach: Reach, seen: bool, at: int): State
    requires i < |s.runs|
  {
    var c := ReleaseCallOf(o, at);
    var calls := !InUse(s.w.keys, c.tenant, c.key) && ActiveIds(s.w.rows, c.tenant, c.order) != [];
    var log := if calls then Logged(s.log, s.w.stock, ReleaseOf(s.w, c)) else s.log;
    match reach
    case Nothing | Undone => Goto(s, i, AtFail)
    case Half =>
      Goto(s.(w := if calls then s.w.(stock := After(s.w.stock, ReleaseOf(s.w, c))) else s.w, log := log), i, AtFail)
    case Full =>
      Goto(s.(w := AfterRelease(s.w, c), log := log), i,
           if seen && !ReleaseReply(s.w, c).Error? then AtMarkCompensated else AtFail)
  }

  function ActConfirm(o: Order, s: State, i: nat, reach: Reach, seen: bool, at: int): State
    requires i < |s.runs|
  {
    var req := ConfirmOf(o, s.runs[i].lines, at);
    if reach != Full then Goto(s, i, AtFail)
    else
      Goto(s.(w := s.w.(stock := After(s.w.stock, req)), log := Logged(s.log, s.w.stock, req)), i,
           if seen && StockSaysYes(OutcomeOf(s.w.stock, req)) then AtMarkConfirmed else AtFail)
  }

  /** One action of run i. A breaker that is open and a local transaction that fails stop the run where it is. */
  function ActOf(o: Order, s: State, i: nat, reach: Reach, seen: bool, at: int): State
    requires i < |s.runs|
  {
    match s.runs[i].pc
    case AtReserve => ActReserve(o, s, i, reach, seen, at)
    case AtMarkReserved => if seen then Goto(s.(saga := StockReserved), i, AtCharge) else Goto(s, i, Stopped)
    case AtCharge => if !seen then Goto(s, i, Stopped) else Goto(s, i, if o.pays then AtRecord else AtRelease)
    case AtRecord => Goto(s, i, if seen then AtAllocate else Stopped)
    case AtAllocate =>
      if reach != Full then Goto(s, i, AtFail)
      else Goto(s.(w := AfterAllocate(s.w, AllocateOf(o, at))), i, if seen then AtConfirm else AtFail)
    case AtConfirm => ActConfirm(o, s, i, reach, seen, at)
    case AtMarkConfirmed => if seen then Goto(s.(saga := Confirmed), i, Stopped) else Goto(s, i, Stopped)
    case AtRelease => ActRelease(o, s, i, reach, seen, at)
    case AtMarkCompensated => if seen then Goto(s.(saga := Compensated), i, Stopped) else Goto(s, i, AtFail)
    case AtFail => if seen then Goto(s.(saga := Failed), i, Stopped) else Goto(s, i, Stopped)
    case Stopped => s
  }

  ghost function Next(o: Order, s: State, step: Step): State
    requires Enabled(o, s, step)
  {
    match step
    case Act(i, reach, seen, at) => ActOf(o, s, i, reach, seen, at)
    case Crash(i) => Goto(s, i, Stopped)
    case Resume(lines) => s.(runs := s.runs + [Run(AtReserve, lines)])
    case Elsewhere(w) => s.(w := w)
  }

  // ----- the invariant -----

  /** A logged call moves exactly the order's lines. */
  ghost predicate MovesOrder(o: Order, req: Request) {
    req.tenant == o.tenant && forall loc :: SumAt(req.tenant, req.lines, loc) == SumAt(o.tenant, o.lines, loc)
  }

  predicate IsReturn(o: Order, kind: Kind) {
    || kind == Kind.Release(o.id, "reserve_failure")
    || (kind == Kind.Release(o.id, "payment_failed") && !o.pays)
  }

  /** Each call at most once, the hold first. */
  predicate Kinds(log: seq<Request>, o: Order) {
    && |log| <= 3
    && (|log| >= 1 ==> log[0].kind == Kind.Reserve(o.id))
    && (|log| >= 2 ==> IsReturn(o, log[1].kind) || log[1].kind == Kind.Confirm(o.id))
    && (|log| >= 3 ==> if log[1].kind.Release? then log[2].kind == Kind.Confirm(o.id) else IsReturn(o, log[2].kind))
  }

  predicate Returned(log: seq<Request>) {
    (|log| >= 2 && log[1].kind.Release?) || (|log| >= 3 && log[2].kind.Release?)
  }

  predicate Allotted(log: seq<Request>) {
    (|log| >= 2 && log[1].kind.Confirm?) || (|log| >= 3 && log[2].kind.Confirm?)
  }

  /** Exactly once: nothing, one hold, one hold and one return, or one hold and one allocation. */
  predicate Once(log: seq<Request>, o: Order) {
    Kinds(log, o) && |log| <= 2
  }

  /** The log is what the keys say it is. */
  ghost predicate LogMatchesKeys(o: Order, s: State) {
    && Kinds(s.log, o)
    && (forall i :: 0 <= i < |s.log| ==> MovesOrder(o, s.log[i]))
    && (|s.log| > 0 <==> ReserveKey(o) in s.w.stock.keys)
    && (Returned(s.log) <==> ReturnKey(o) in s.w.stock.keys)
    && (Allotted(s.log) <==> ConfirmKey(o) in s.w.stock.keys)
    && (Allotted(s.log) ==> o.pays)
  }

  /** What the order's rows add up to at a location. */
  function MineAt(o: Order, rows: seq<Row>, loc: Location): int {
    if rows == [] then 0
    else
      var r := rows[|rows| - 1];
      MineAt(o, rows[..|rows| - 1], loc) + (if Mine(o, r) && Loc(r.tenant, r.line) == loc then r.line.quantity else 0)
  }

  /** Every row of the order has the same status. */
  predicate All(o: Order, rows: seq<Row>, status: Status) {
    forall i :: 0 <= i < |rows| && Mine(o, rows[i]) ==> rows[i].status == status
  }

  predicate SomeMine(o: Order, rows: seq<Row>) {
    exists i :: 0 <= i < |rows| && Mine(o, rows[i])
  }

  /** No rows until they are recorded; then the order's lines, all held, or all given back, or all allocated. */
  ghost predicate RowsMatch(o: Order, s: State) {
    if ReserveKey(o) !in s.w.keys then !SomeMine(o, s.w.rows) && ReturnKey(o) !in s.w.keys && !Allotted(s.log)
    else
      && |s.log| >= 1
      && SomeMine(o, s.w.rows)
      && (forall loc :: MineAt(o, s.w.rows, loc) == SumAt(o.tenant, o.lines, loc))
      && (All(o, s.w.rows, Active)
          || (All(o, s.w.rows, Released) && Returned(s.log))
          || (All(o, s.w.rows, Allocated) && o.pays))
      && (ReturnKey(o) in s.w.keys ==> Returned(s.log))
  }

  ghost predicate RunOk(o: Order, s: State, r: Run) {
    && multiset(r.lines) == multiset(o.lines)
    && (r.pc.AtReserve? || r.pc.AtFail? || r.pc.Stopped? || ReserveKey(o) in s.w.keys)
    && (r.pc.AtRecord? || r.pc.AtAllocate? || r.pc.AtConfirm? || r.pc.AtMarkConfirmed? ==> o.pays)
    && (r.pc.AtRelease? || r.pc.AtMarkCompensated? ==> !o.pays)
    && (r.pc.AtMarkConfirmed? ==> Allotted(s.log))
    && (r.pc.AtMarkCompensated? ==> Returned(s.log))
  }

  ghost predicate Inv(o: Order, s: State) {
    && LogMatchesKeys(o, s)
    && RowsMatch(o, s)
    && (forall i :: 0 <= i < |s.runs| ==> RunOk(o, s, s.runs[i]))
    && (s.saga == Confirmed ==> Allotted(s.log))
    && (s.saga == Compensated ==> Returned(s.log) && !o.pays)
  }

  /** Lines the order tables accept, and keys that do not collide with each other. */
  predicate Placed(o: Order) {
    && o.lines != [] && Persistable(o.lines)
    && CompKey(o.tenant, o.id) !in {o.key + ":reserve", o.key + ":allocate", o.key + ":confirm"}
  }

  lemma NoClash(key: string, suffix: string, tenant: string, id: string)
    requires !IsComp(key) && |suffix| > 0 && suffix[0] == ':' && forall i :: 0 < i < |suffix| ==> suffix[i] != ':'
    ensures CompKey(tenant, id) != key + suffix
  {
    var s, t := CompKey(tenant, id), key + suffix;
    assert s[..5] == "comp:" && s[5 + |tenant|] == ':';
    assert |key| < 4 ==> s[|key|] != ':';
    assert t[|key|] == ':' && forall i :: |key| < i < |t| ==> t[i] == suffix[i - |key|];
    assert |key| >= 5 ==> t[..5] == key[..5];
  }

  /** An order key that does not pass for a compensation key keeps the saga's keys apart. */
  lemma PlainKeysDoNotCollide(o: Order)
    requires !IsComp(o.key)
    ensures CompKey(o.tenant, o.id) !in {o.key + ":reserve", o.key + ":allocate", o.key + ":confirm"}
  {
    NoClash(o.key, ":reserve", o.tenant, o.id);
    NoClash(o.key, ":allocate", o.tenant, o.id);
    NoClash(o.key, ":confirm", o.tenant, o.id);
  }

  lemma KeysDiffer(o: Order)
    ensures ReserveKey(o) != ConfirmKey(o)
    ensures ReserveKey(o).name != "" && ConfirmKey(o).name != "" && ReturnKey(o).name != ""
  {
    var n := |o.key|;
    assert (o.key + ":reserve")[n + 1] == 'r' && (o.key + ":confirm")[n + 1] == 'c';
  }

  // ----- rows -----

  lemma {:induction false} SameMine(o: Order, a: seq<Row>, b: seq<Row>, loc: Location)
    requires |a| == |b|
    requires forall i :: 0 <= i < |a| ==>
               (Mine(o, a[i]) <==> Mine(o, b[i])) && (Mine(o, a[i]) ==> a[i].line == b[i].line)
    ensures MineAt(o, a, loc) == MineAt(o, b, loc)
  {
    if a != [] { SameMine(o, a[..|a| - 1], b[..|b| - 1], loc); }
  }

  lemma {:induction false} NoMine(o: Order, rows: seq<Row>, loc: Location)
    requires !SomeMine(o, rows)
    ensures MineAt(o, rows, loc) == 0
  {
    if rows != [] {
      assert !Mine(o, rows[|rows| - 1]);
      NoMine(o, rows[..|rows| - 1], loc);
    }
  }

  lemma {:induction false} OthersAppended(o: Order, rows: seq<Row>, more: seq<Row>, loc: Location)
    requires forall i :: 0 <= i < |more| ==> !Mine(o, more[i])
    ensures MineAt(o, rows + more, loc) == MineAt(o, rows, loc)
    decreases |more|
  {
    if more == [] {
      assert rows + more == rows;
    } else {
      assert (rows + more)[..|rows + more| - 1] == rows + more[..|more| - 1];
      OthersAppended(o, rows, more[..|more| - 1], loc);
    }
  }

  lemma {:induction false} MineRecorded(o: Order, rows: seq<Row>, c: ReserveCall, n: nat, loc: Location)
    requires n <= |c.items| && c.tenant == o.tenant && c.order == o.id
    ensures MineAt(o, rows + NewRows(c, n), loc) == MineAt(o, rows, loc) + SumTo(o.tenant, c.items, n, loc)
    decreases n
  {
    if n == 0 {
      assert rows + [] == rows;
    } else {
      MineRecorded(o, rows, c, n - 1, loc);
      var all := rows + NewRows(c, n);
      assert all[..|all| - 1] == rows + NewRows(c, n - 1);
    }
  }

  lemma {:induction false} LinesFromFront(rows: seq<Row>, ids: seq<nat>)
    requires rows != [] && Ids(rows[..|rows| - 1], ids)
    ensures Ids(rows, ids) && LinesAt(rows, ids) == LinesAt(rows[..|rows| - 1], ids)
  {
    if ids != [] { LinesFromFront(rows, ids[..|ids| - 1]); }
  }

  /** While every row of the order is active, the active rows are the order's rows. */
  lemma {:induction false} ActiveLinesAreMine(o: Order, rows: seq<Row>, loc: Location)
    requires All(o, rows, Active)
    ensures SumAt(o.tenant, LinesAt(rows, ActiveIds(rows, o.tenant, o.id)), loc) == MineAt(o, rows, loc)
    decreases |rows|
  {
    if rows != [] {
      var front, r := rows[..|rows| - 1], rows[|rows| - 1];
      var before, ids := ActiveIds(front, o.tenant, o.id), ActiveIds(rows, o.tenant, o.id);
      ActiveLinesAreMine(o, front, loc);
      LinesFromFront(rows, before);
      if Mine(o, r) {
        assert ids == before + [|rows| - 1];
        assert ids[..|ids| - 1] == before;
        LinesGrow(rows, ids, o.tenant, loc);
      }
    }
  }

  lemma MarkedRow(o: Order, rows: seq<Row>, was: Status, status: Status, i: nat)
    requires All(o, rows, was) && i < |rows|
    ensures
      var ids := ActiveIds(rows, o.tenant, o.id);
      var r := Mark(rows, ids, status)[i];
      && (Mine(o, r) <==> Mine(o, rows[i])) && r.line == rows[i].line
      && (Mine(o, rows[i]) ==> r.status == if was == Active then status else was)
      && (Mine(o, rows[i]) && was == Active ==> i in ids)
  {
    MarkAt(rows, ActiveIds(rows, o.tenant, o.id), status, i);
    if Mine(o, rows[i]) && was == Active { ActiveIdsComplete(rows, o.tenant, o.id, i); }
  }

  lemma HasActive(o: Order, rows: seq<Row>, was: Status)
    requires All(o, rows, was) && SomeMine(o, rows)
    ensures ActiveIds(rows, o.tenant, o.id) == [] <==> was != Active
  {
    var ids := ActiveIds(rows, o.tenant, o.id);
    if was == Active {
      var i :| 0 <= i < |rows| && Mine(o, rows[i]);
      ActiveIdsComplete(rows, o.tenant, o.id, i);
    } else {
      assert ids != [] ==> Mine(o, rows[ids[0]]);
    }
  }

  lemma SameRows(o: Order, rows: seq<Row>, rows': seq<Row>, status: Status)
    requires |rows| == |rows'| && SomeMine(o, rows)
    requires forall i :: 0 <= i < |rows| ==> (Mine(o, rows'[i]) <==> Mine(o, rows[i])) && rows'[i].line == rows[i].line
    requires forall i :: 0 <= i < |rows| && Mine(o, rows'[i]) ==> rows'[i].status == status
    ensures SomeMine(o, rows') && All(o, rows', status) && forall loc :: MineAt(o, rows', loc) == MineAt(o, rows, loc)
  {
    var i :| 0 <= i < |rows| && Mine(o, rows[i]);
    assert Mine(o, rows'[i]);
    forall loc ensures MineAt(o, rows', loc) == MineAt(o, rows, loc) { SameMine(o, rows', rows, loc); }
  }

  /** Marking the order's active rows. */
  lemma MarkedRows(o: Order, rows: seq<Row>, was: Status, status: Status)
    requires All(o, rows, was) && SomeMine(o, rows)
    ensures
      var rows' := Mark(rows, ActiveIds(rows, o.tenant, o.id), status);
      && SomeMine(o, rows')
      && (forall loc :: MineAt(o, rows', loc) == MineAt(o, rows, loc))
      && All(o, rows', if was == Active then status else was)
  {
    var rows' := Mark(rows, ActiveIds(rows, o.tenant, o.id), status);
    forall i | 0 <= i < |rows|
      ensures (Mine(o, rows'[i]) <==> Mine(o, rows[i])) && rows'[i].line == rows[i].line
      ensures Mine(o, rows'[i]) ==> rows'[i].status == if was == Active then status else was
    {
      MarkedRow(o, rows, was, status, i);
    }
    SameRows(o, rows, rows', if was == Active then status else was);
  }

  // ----- stock calls -----

  /** The keys after a keyed stock call. */
  lemma KeyedCall(db: Tables, req: Request)
    requires req.key != ""
    ensures
      var out, after, key := OutcomeOf(db, req), After(db, req), Key(req.tenant, req.key);
      && (out.Committed? ==> key !in db.keys && after.keys == db.keys[key := req.at])
      && (!out.Committed? ==> after == db)
      && (out.Duplicate? ==> key in db.keys)
  {
    hide DeltaAfter;
  }

  /** A call the saga makes: its key, its kind, and when it is made. */
  ghost predicate Fits(o: Order, s: State, req: Request) {
    && MovesOrder(o, req)
    && match req.kind
       case Reserve(id) => id == o.id && Key(req.tenant, req.key) == ReserveKey(o)
       case Release(_, _) => IsReturn(o, req.kind) && Key(req.tenant, req.key) == ReturnKey(o) && |s.log| >= 1
       case Confirm(id) => id == o.id && Key(req.tenant, req.key) == ConfirmKey(o) && |s.log| >= 1 && o.pays
       case _ => false
  }

  /** What a call that says yes has done, now or before. */
  predicate Done(log: seq<Request>, kind: Kind) {
    match kind
    case Reserve(_) => |log| > 0
    case Release(_, _) => Returned(log)
    case Confirm(_) => Allotted(log)
    case _ => false
  }

  predicate Grows(log: seq<Request>, log': seq<Request>) {
    && log <= log'
    && (Returned(log) ==> Returned(log'))
    && (Allotted(log) ==> Allotted(log'))
  }

  /** Each of the saga's stock calls commits at most once, and only where the log allows it. */
  lemma CallKeepsLog(o: Order, s: State, req: Request, s': State)
    requires Placed(o) && LogMatchesKeys(o, s) && Fits(o, s, req)
    requires s'.w.stock == After(s.w.stock, req) && s'.log == Logged(s.log, s.w.stock, req)
    ensures LogMatchesKeys(o, s') && Grows(s.log, s'.log)
    ensures StockSaysYes(OutcomeOf(s.w.stock, req)) ==> Done(s'.log, req.kind)
    ensures !req.kind.Confirm? ==> (Allotted(s'.log) <==> Allotted(s.log))
    ensures !req.kind.Release? ==> (Returned(s'.log) <==> Returned(s.log))
  {
    hide OutcomeOf;
    hide After;
    hide MovesOrder;
    hide Persistable;
    KeysDiffer(o);
    KeyedCall(s.w.stock, req);
    if OutcomeOf(s.w.stock, req).Committed? {
      assert s'.log == s.log + [req];
      assert forall i :: 0 <= i < |s.log| ==> s'.log[i] == s.log[i];
    }
  }

  // ----- each step keeps the invariant -----

  ghost predicate Progress(o: Order, s: State, s': State) {
    && Grows(s.log, s'.log)
    && (ReserveKey(o) in s.w.keys ==> ReserveKey(o) in s'.w.keys)
    && (s'.saga == s.saga || !Terminal(s'.saga) || s'.saga == Failed || (s'.saga == Confirmed && Allotted(s'.log))
        || (s'.saga == Compensated && Returned(s'.log) && !o.pays))
  }

  /** After an action of run i, only that run's own facts need to be shown. */
  lemma RunActed(o: Order, s: State, s': State, i: nat, pc: Pc)
    requires Inv(o, s) && i < |s.runs| && LogMatchesKeys(o, s') && RowsMatch(o, s') && Progress(o, s, s')
    requires s'.runs == s.runs[i := s.runs[i].(pc := pc)] && RunOk(o, s', s'.runs[i])
    ensures Inv(o, s')
  {
    hide LogMatchesKeys;
    hide RowsMatch;
    hide ReserveKey;
    forall j | 0 <= j < |s'.runs| ensures RunOk(o, s', s'.runs[j]) {
      if j != i { assert RunOk(o, s, s.runs[j]); }
    }
  }

  /** Rows and row keys untouched, the log longer. */
  lemma RowsStand(o: Order, s: State, s': State)
    requires RowsMatch(o, s) && s'.w.rows == s.w.rows && s'.w.keys == s.w.keys && Grows(s.log, s'.log)
    requires ReserveKey(o) !in s.w.keys ==> !Allotted(s'.log)
    ensures RowsMatch(o, s')
  {
    hide MineAt;
    hide SumTo;
    hide ReserveKey;
    hide ReturnKey;
  }

  lemma HoldFits(o: Order, s: State, lines: seq<Line>, at: int)
    requires multiset(lines) == multiset(o.lines)
    ensures Fits(o, s, HoldRequest(ReserveOf(o, lines, at)))
  {
    var req := Request(Kind.Reserve(o.id), o.tenant, o.key + ":reserve", lines, at);
    assert HoldRequest(ReserveOf(o, lines, at)) == InLockOrder(req);
    MovesAny(o, req);
  }

  lemma ConfirmFits(o: Order, s: State, lines: seq<Line>, at: int)
    requires multiset(lines) == multiset(o.lines) && |s.log| >= 1 && o.pays
    ensures Fits(o, s, ConfirmOf(o, lines, at))
  {
    MovesAny(o, Request(Kind.Confirm(o.id), o.tenant, o.key + ":confirm", lines, at));
  }

  /** The order the lines come in does not matter. */
  lemma MovesAny(o: Order, req: Request)
    requires req.tenant == o.tenant && multiset(req.lines) == multiset(o.lines)
    ensures MovesOrder(o, InLockOrder(req))
  {
    forall loc ensures SumAt(req.tenant, InLockOrder(req).lines, loc) == SumAt(o.tenant, o.lines, loc) {
      SortedSums(req, loc);
      SumsIgnoreOrder(o.tenant, req.lines, o.lines, loc);
    }
  }

  lemma ReturnFits(o: Order, s: State, at: int)
    requires RowsMatch(o, s) && ReserveKey(o) in s.w.keys && All(o, s.w.rows, Active) && !o.pays
    ensures Fits(o, s, ReleaseOf(s.w, ReleaseCallOf(o, at)))
  {
    var c := ReleaseCallOf(o, at);
    var lines := LinesAt(s.w.rows, ActiveIds(s.w.rows, o.tenant, o.id));
    var req := Request(Kind.Release(o.id, "payment_failed"), o.tenant, c.key, lines, at);
    assert ReleaseOf(s.w, c) == InLockOrder(req);
    forall loc ensures SumAt(req.tenant, InLockOrder(req).lines, loc) == SumAt(o.tenant, o.lines, loc) {
      SortedSums(req, loc);
      ActiveLinesAreMine(o, s.w.rows, loc);
    }
    assert MovesOrder(o, InLockOrder(req));
  }

  lemma SameSize(a: seq<Line>, b: seq<Line>)
    requires multiset(a) == multiset(b)
    ensures |a| == |b| && (Persistable(a) <==> Persistable(b))
  {
    SameMembers(a, b);
  }

  /** Recording the rows of a committed hold. */
  lemma RecordedRows(o: Order, s: State, s': State, c: ReserveCall)
    requires RowsMatch(o, s) && ReserveKey(o) !in s.w.keys
    requires c.tenant == o.tenant && c.order == o.id && c.items != []
    requires multiset(c.items) == multiset(o.lines) && Key(c.tenant, c.key) == ReserveKey(o) && c.key != ""
    requires s'.w.rows == s.w.rows + NewRows(c, |c.items|) && s'.w.keys == Recorded(s.w.keys, c.tenant, c.key)
    requires |s'.log| >= 1 && ReserveKey(o) != ReturnKey(o)
    ensures RowsMatch(o, s')
  {
    hide NewRows;
    hide MineAt;
    hide SumTo;
    hide ReserveKey;
    hide ReturnKey;
    var rows, rows', n := s.w.rows, s'.w.rows, |s.w.rows|;
    forall loc ensures MineAt(o, rows', loc) == SumAt(o.tenant, o.lines, loc) {
      NoMine(o, rows, loc);
      MineRecorded(o, rows, c, |c.items|, loc);
      SumsIgnoreOrder(o.tenant, c.items, o.lines, loc);
    }
    forall j | n <= j < |rows'| ensures Mine(o, rows'[j]) && rows'[j].status == Active {
      NewRowsAre(c, |c.items|, j - n);
    }
    assert Mine(o, rows'[n]);
    assert forall i :: 0 <= i < n ==> rows'[i] == rows[i];
  }

  lemma ReserveActs(o: Order, s: State, i: nat, reach: Reach, seen: bool, at: int)
    requires Placed(o) && Inv(o, s) && i < |s.runs| && s.runs[i].pc == AtReserve
    ensures Inv(o, ActReserve(o, s, i, reach, seen, at))
  {
    hide HoldRequest;
    hide UndoneLog;
    hide OutcomeOf;
    hide After;
    hide LogMatchesKeys;
    hide Fits;
    hide Allotted;
    var s', c := ActReserve(o, s, i, reach, seen, at), ReserveOf(o, s.runs[i].lines, at);
    assert RunOk(o, s, s.runs[i]);
    SameSize(c.items, o.lines);
    HoldFits(o, s, c.items, at);
    if reach == Undone { UndoneLogs(o, s, i, seen, at); } else { ReserveLogs(o, s, i, reach, seen, at); }
    if reach != Full || ReserveKey(o) in s.w.keys || !StockSaysYes(OutcomeOf(s.w.stock, HoldRequest(c))) {
      RowsStand(o, s, s');
    } else {
      RecordedRows(o, s, s', c);
    }
    RunActed(o, s, s', i, s'.runs[i].pc);
  }

  lemma ReserveLogs(o: Order, s: State, i: nat, reach: Reach, seen: bool, at: int)
    requires Placed(o) && LogMatchesKeys(o, s) && i < |s.runs| && s.runs[i].lines != [] && reach != Undone
    requires Fits(o, s, HoldRequest(ReserveOf(o, s.runs[i].lines, at))) && Persistable(s.runs[i].lines)
    ensures
      var s' := ActReserve(o, s, i, reach, seen, at);
      var yes := StockSaysYes(OutcomeOf(s.w.stock, HoldRequest(ReserveOf(o, s.runs[i].lines, at))));
      && LogMatchesKeys(o, s') && Grows(s.log, s'.log)
      && (Allotted(s'.log) <==> Allotted(s.log))
      && (Returned(s'.log) <==> Returned(s.log))
      && (reach == Full && yes ==> |s'.log| >= 1)
  {
    hide OutcomeOf;
    hide After;
    hide Fits;
    hide Allotted;
    hide Returned;
    var s', c := ActReserve(o, s, i, reach, seen, at), ReserveOf(o, s.runs[i].lines, at);
    if reach == Nothing {
      assert s'.log == s.log;
    } else {
      var req := HoldRequest(c);
      KeyedCall(s.w.stock, req) by { assert req.key == c.key; }
      CallKeepsLog(o, s, req, s');
    }
  }

  lemma UndoFits(o: Order, s: State, lines: seq<Line>, at: int)
    requires multiset(lines) == multiset(o.lines) && |s.log| >= 1
    ensures Fits(o, s, UndoRequest(ReserveOf(o, lines, at)))
  {
    var req := Request(Kind.Release(o.id, "reserve_failure"), o.tenant, CompKey(o.tenant, o.id), lines, at);
    assert UndoRequest(ReserveOf(o, lines, at)) == InLockOrder(req);
    MovesAny(o, req);
  }

  /** Where the saga stands between the hold and its release. */
  function Between(s: State, c: ReserveCall): State {
    s.(w := s.w.(stock := After(s.w.stock, HoldRequest(c))), log := Logged(s.log, s.w.stock, HoldRequest(c)))
  }

  /** A hold that was given back: two stock calls, each of which keeps the log. */
  lemma UndoneLogs(o: Order, s: State, i: nat, seen: bool, at: int)
    requires Placed(o) && LogMatchesKeys(o, s) && i < |s.runs| && multiset(s.runs[i].lines) == multiset(o.lines)
    requires Fits(o, s, HoldRequest(ReserveOf(o, s.runs[i].lines, at))) && s.runs[i].lines != []
    ensures
      var s', c := ActReserve(o, s, i, Undone, seen, at), ReserveOf(o, s.runs[i].lines, at);
      && LogMatchesKeys(o, s') && Grows(s.log, s'.log)
      && (Allotted(s'.log) <==> Allotted(s.log))
      && s'.w.rows == s.w.rows && s'.w.keys == s.w.keys
      && (s'.log == s.log || s'.log == Between(s, c).log || s'.log == Between(s, c).log + [UndoRequest(c)])
  {
    hide OutcomeOf;
    hide After;
    hide LogMatchesKeys;
    hide Fits;
    hide Allotted;
    hide Returned;
    var s', c := ActReserve(o, s, i, Undone, seen, at), ReserveOf(o, s.runs[i].lines, at);
    var hold, undo, mid := HoldRequest(c), UndoRequest(c), Between(s, c);
    assert HoldRequest(c.(fails := true)) == hold && UndoRequest(c.(fails := true)) == undo;
    OnlyYesChanges(s.w.stock, hold);
    CallKeepsLog(o, s, hold, mid);
    if StockSaysYes(OutcomeOf(s.w.stock, hold)) {
      UndoFits(o, mid, c.items, at);
      CallKeepsLog(o, mid, undo, s');
    } else {
      SameLog(o, s, s');
    }
  }

  lemma ReleaseLogs(o: Order, s: State, i: nat, reach: Reach, seen: bool, at: int)
    requires Placed(o) && LogMatchesKeys(o, s) && RowsMatch(o, s) && ReserveKey(o) in s.w.keys
    requires !o.pays && i < |s.runs|
    ensures
      var s', c := ActRelease(o, s, i, reach, seen, at), ReleaseCallOf(o, at);
      var calls := ReturnKey(o) !in s.w.keys && ActiveIds(s.w.rows, o.tenant, o.id) != [];
      && LogMatchesKeys(o, s') && Grows(s.log, s'.log)
      && (reach == Full && calls && StockSaysYes(OutcomeOf(s.w.stock, ReleaseOf(s.w, c))) ==> Returned(s'.log))
      && (calls ==> All(o, s.w.rows, Active))
  {
    hide OutcomeOf;
    hide After;
    hide ActiveIds;
    hide LogMatchesKeys;
    hide Fits;
    var s', c := ActRelease(o, s, i, reach, seen, at), ReleaseCallOf(o, at);
    var req := ReleaseOf(s.w, c);
    KeysDiffer(o);
    if All(o, s.w.rows, Released) { HasActive(o, s.w.rows, Released); }
    if All(o, s.w.rows, Active) { ReturnFits(o, s, at); }
    KeyedCall(s.w.stock, req) by { assert req.key == c.key; }
    var calls := !InUse(s.w.keys, c.tenant, c.key) && ActiveIds(s.w.rows, c.tenant, c.order) != [];
    if (reach == Half || reach == Full) && calls {
      CallKeepsLog(o, s, req, s');
    } else {
      SameLog(o, s, s');
    }
  }

  lemma SameLog(o: Order, s: State, s': State)
    requires LogMatchesKeys(o, s) && s'.log == s.log && s'.w.stock == s.w.stock
    ensures LogMatchesKeys(o, s') && Grows(s.log, s'.log)
  {
  }

  /** Giving the rows back, or recording that there was nothing left to give back. */
  lemma ReleasedRows(o: Order, s: State, s': State, marked: bool)
    requires RowsMatch(o, s) && ReserveKey(o) in s.w.keys && !o.pays && Grows(s.log, s'.log)
    requires ReserveKey(o) in s'.w.keys && (ReturnKey(o) in s'.w.keys ==> Returned(s'.log))
    requires marked ==> All(o, s.w.rows, Active) && Returned(s'.log)
    requires s'.w.rows == if marked then Mark(s.w.rows, ActiveIds(s.w.rows, o.tenant, o.id), Released) else s.w.rows
    ensures RowsMatch(o, s')
  {
    hide MineAt;
    hide SumTo;
    hide ReserveKey;
    hide ReturnKey;
    hide Mark;
    hide ActiveIds;
    if marked { MarkedRows(o, s.w.rows, Active, Released); }
  }

  /** What an action at AtRelease leaves, apart from the stock and the log. */
  lemma ReleaseLeaves(o: Order, s: State, i: nat, reach: Reach, seen: bool, at: int, calls: bool, yes: bool)
    requires i < |s.runs|
    requires calls == (ReturnKey(o) !in s.w.keys && ActiveIds(s.w.rows, o.tenant, o.id) != [])
    requires yes == StockSaysYes(OutcomeOf(s.w.stock, ReleaseOf(s.w, ReleaseCallOf(o, at))))
    ensures
      var s' := ActRelease(o, s, i, reach, seen, at);
      && s'.w.rows == (if reach == Full && calls && yes
                       then Mark(s.w.rows, ActiveIds(s.w.rows, o.tenant, o.id), Released) else s.w.rows)
      && s'.w.keys == (if reach == Full && (calls ==> yes) then s.w.keys + {ReturnKey(o)} else s.w.keys)
      && s'.saga == s.saga
      && s'.runs == s.runs[i := s'.runs[i]]
      && s'.runs[i] == s.runs[i].(pc := if reach == Full && seen && (calls ==> yes) then AtMarkCompensated else AtFail)
  {
    hide OutcomeOf;
    hide After;
    hide ActiveIds;
    hide Mark;
    hide ReleaseOf;
    KeysDiffer(o);
    assert s.w.keys + {ReturnKey(o)} == if ReturnKey(o) in s.w.keys then s.w.keys else s.w.keys + {ReturnKey(o)};
  }

  /** A release that finds nothing to give back finds it given back already. */
  lemma GivenBackAlready(o: Order, s: State)
    requires RowsMatch(o, s) && ReserveKey(o) in s.w.keys && !o.pays
    requires ReturnKey(o) in s.w.keys || ActiveIds(s.w.rows, o.tenant, o.id) == []
    ensures Returned(s.log)
  {
    hide MineAt;
    hide SumTo;
    hide ActiveIds;
    if All(o, s.w.rows, Active) { HasActive(o, s.w.rows, Active); }
  }

  lemma ReleaseSettles(o: Order, s: State, i: nat, reach: Reach, seen: bool, at: int)
    requires Placed(o) && Inv(o, s) && i < |s.runs| && s.runs[i].pc == AtRelease
    ensures
      var s' := ActRelease(o, s, i, reach, seen, at);
      && LogMatchesKeys(o, s') && RowsMatch(o, s') && Grows(s.log, s'.log) && ReserveKey(o) in s'.w.keys
      && s'.saga == s.saga && (s'.runs[i].pc == AtMarkCompensated ==> Returned(s'.log))
  {
    hide ReserveKey;
    hide ReturnKey;
    hide RowsMatch;
    hide LogMatchesKeys;
    hide OutcomeOf;
    hide After;
    hide ActiveIds;
    hide ReleaseOf;
    hide Returned;
    hide Allotted;
    hide All;
    hide Mark;
    hide ActRelease;
    var s', c := ActRelease(o, s, i, reach, seen, at), ReleaseCallOf(o, at);
    assert RunOk(o, s, s.runs[i]);
    ReleaseLogs(o, s, i, reach, seen, at);
    var calls := ReturnKey(o) !in s.w.keys && ActiveIds(s.w.rows, o.tenant, o.id) != [];
    var yes := StockSaysYes(OutcomeOf(s.w.stock, ReleaseOf(s.w, c)));
    if !calls { GivenBackAlready(o, s); }
    ReleaseLeaves(o, s, i, reach, seen, at, calls, yes);
    ReleasedRows(o, s, s', reach == Full && calls && yes);
  }

  lemma ReleaseActs(o: Order, s: State, i: nat, reach: Reach, seen: bool, at: int)
    requires Placed(o) && Inv(o, s) && i < |s.runs| && s.runs[i].pc == AtRelease
    ensures Inv(o, ActRelease(o, s, i, reach, seen, at))
  {
    hide LogMatchesKeys;
    hide RowsMatch;
    hide ReserveKey;
    hide Returned;
    hide Allotted;
    var s' := ActRelease(o, s, i, reach, seen, at);
    assert RunOk(o, s, s.runs[i]);
    ReleaseSettles(o, s, i, reach, seen, at);
    RunActed(o, s, s', i, s'.runs[i].pc);
  }

  lemma AllocatedRows(o: Order, s: State, s': State)
    requires RowsMatch(o, s) && ReserveKey(o) in s.w.keys && o.pays && s'.log == s.log
    requires s'.w.keys == Recorded(s.w.keys, o.tenant, o.key + ":allocate") && Placed(o)
    requires s'.w.rows == Mark(s.w.rows, ActiveIds(s.w.rows, o.tenant, o.id), Allocated)
    ensures RowsMatch(o, s')
  {
    hide MineAt;
    hide SumTo;
    hide Mark;
    hide ActiveIds;
    var rows := s.w.rows;
    var status := if All(o, rows, Active) then Active else if All(o, rows, Released) then Released else Allocated;
    MarkedRows(o, rows, status, Allocated);
  }

  lemma AllocateActs(o: Order, s: State, i: nat, reach: Reach, seen: bool, at: int)
    requires Placed(o) && Inv(o, s) && i < |s.runs| && s.runs[i].pc == AtAllocate
    ensures Inv(o, ActOf(o, s, i, reach, seen, at))
  {
    hide MineAt;
    hide SumTo;
    hide Mark;
    hide ActiveIds;
    hide LogMatchesKeys;
    hide RowsMatch;
    hide ReserveKey;
    var s', c := ActOf(o, s, i, reach, seen, at), AllocateOf(o, at);
    assert RunOk(o, s, s.runs[i]);
    SameLog(o, s, s');
    if reach != Full || InUse(s.w.keys, c.tenant, c.key) {
      RowsStand(o, s, s');
    } else {
      AllocatedRows(o, s, s');
    }
    RunActed(o, s, s', i, s'.runs[i].pc);
  }

  lemma ConfirmActs(o: Order, s: State, i: nat, reach: Reach, seen: bool, at: int)
    requires Placed(o) && Inv(o, s) && i < |s.runs| && s.runs[i].pc == AtConfirm
    ensures Inv(o, ActConfirm(o, s, i, reach, seen, at))
  {
    hide MineAt;
    hide SumTo;
    hide OutcomeOf;
    hide After;
    hide LogMatchesKeys;
    hide Fits;
    hide ReserveKey;
    var s', req := ActConfirm(o, s, i, reach, seen, at), ConfirmOf(o, s.runs[i].lines, at);
    assert RunOk(o, s, s.runs[i]);
    if reach == Full {
      ConfirmFits(o, s, s.runs[i].lines, at);
      CallKeepsLog(o, s, req, s');
    } else {
      SameLog(o, s, s');
    }
    RowsStand(o, s, s');
    RunActed(o, s, s', i, s'.runs[i].pc);
  }

  /** Steps that touch neither service. */
  lemma LocalActs(o: Order, s: State, i: nat, reach: Reach, seen: bool, at: int)
    requires Placed(o) && Inv(o, s) && i < |s.runs|
    requires s.runs[i].pc !in {AtReserve, AtRelease, AtAllocate, AtConfirm, Stopped}
    ensures Inv(o, ActOf(o, s, i, reach, seen, at))
  {
    hide LogMatchesKeys;
    hide ReserveKey;
    var s' := ActOf(o, s, i, reach, seen, at);
    assert RunOk(o, s, s.runs[i]);
    SameLog(o, s, s');
    RowsStand(o, s, s');
    RunActed(o, s, s', i, s'.runs[i].pc);
  }

  lemma ElsewhereRows(o: Order, w: World, w': World, loc: Location)
    requires Spares(o, w, w')
    ensures MineAt(o, w'.rows, loc) == MineAt(o, w.rows, loc)
    ensures SomeMine(o, w'.rows) <==> SomeMine(o, w.rows)
    ensures forall status :: All(o, w.rows, status) ==> All(o, w'.rows, status)
  {
    hide MineAt;
    var n := |w.rows|;
    assert w'.rows == w'.rows[..n] + w'.rows[n..];
    OthersAppended(o, w'.rows[..n], w'.rows[n..], loc);
    SameMine(o, w'.rows[..n], w.rows, loc);
    if SomeMine(o, w.rows) {
      var i :| 0 <= i < n && Mine(o, w.rows[i]);
      assert Mine(o, w'.rows[i]);
    }
    if SomeMine(o, w'.rows) {
      var i :| 0 <= i < |w'.rows| && Mine(o, w'.rows[i]);
      assert i < n && Mine(o, w.rows[i]);
    }
  }

  lemma ElsewhereKeeps(o: Order, s: State, w: World)
    requires Placed(o) && Inv(o, s) && Spares(o, s.w, w)
    ensures Inv(o, s.(w := w))
  {
    hide MineAt;
    hide SumTo;
    hide ReserveKey;
    var s' := s.(w := w);
    forall loc ensures MineAt(o, w.rows, loc) == MineAt(o, s.w.rows, loc) { ElsewhereRows(o, s.w, w, loc); }
    ElsewhereRows(o, s.w, w, Location("", "", ""));
    assert ReserveKey(o) in s.w.keys <==> ReserveKey(o) in w.keys;
    assert RowsMatch(o, s');
    assert LogMatchesKeys(o, s');
    forall j | 0 <= j < |s'.runs| ensures RunOk(o, s', s'.runs[j]) { assert RunOk(o, s, s.runs[j]); }
  }

  lemma StepKeeps(o: Order, s: State, step: Step)
    requires Placed(o) && Inv(o, s) && Enabled(o, s, step)
    ensures Inv(o, Next(o, s, step))
  {
    hide LogMatchesKeys;
    match step
    case Act(i, reach, seen, at) =>
      var pc := s.runs[i].pc;
      if pc == AtReserve { ReserveActs(o, s, i, reach, seen, at); }
      else if pc == AtRelease { ReleaseActs(o, s, i, reach, seen, at); }
      else if pc == AtAllocate { AllocateActs(o, s, i, reach, seen, at); }
      else if pc == AtConfirm { ConfirmActs(o, s, i, reach, seen, at); }
      else { LocalActs(o, s, i, reach, seen, at); }
    case Crash(i) =>
      var s' := Goto(s, i, Stopped);
      assert RunOk(o, s, s.runs[i]);
      SameLog(o, s, s');
      RowsStand(o, s, s');
      RunActed(o, s, s', i, Stopped);
    case Resume(lines) =>
      var s' := Next(o, s, step);
      SameLog(o, s, s');
      RowsStand(o, s, s');
      forall j | 0 <= j < |s'.runs| ensures RunOk(o, s', s'.runs[j]) {
        if j < |s.runs| { assert RunOk(o, s, s.runs[j]); }
      }
    case Elsewhere(w) => ElsewhereKeeps(o, s, w);
  }

  // ----- whole runs -----

  /** The saga as CreateOrder leaves it: recorded, nothing done downstream, its first run about to start. */
  ghost predicate Initial(o: Order, s: State) {
    && s.saga == PendingPayment && s.runs == [Run(AtReserve, o.lines)] && s.log == []
    && !SomeMine(o, s.w.rows)
    && (forall k :: k in {ReserveKey(o), ConfirmKey(o), ReturnKey(o)} ==> k !in s.w.stock.keys && k !in s.w.keys)
  }

  ghost predicate IsRun(o: Order, run: seq<State>, steps: seq<Step>) {
    && |run| == |steps| + 1 && Initial(o, run[0])
    && forall i: nat :: i < |steps| ==> Enabled(o, run[i], steps[i]) && run[i + 1] == Next(o, run[i], steps[i])
  }

  lemma {:induction false} RunKeeps(o: Order, run: seq<State>, steps: seq<Step>, n: nat)
    requires Placed(o) && IsRun(o, run, steps) && n < |run|
    ensures Inv(o, run[n])
  {
    hide MineAt;
    if n == 0 {
    } else {
      RunKeeps(o, run, steps, n - 1);
      StepKeeps(o, run[n - 1], steps[n - 1]);
    }
  }

  // ----- exactly once -----

  /** The step disposes of the hold a second time: it allocates one that has been returned, or gives back one that
      has been allocated. */
  ghost predicate Clashes(o: Order, s: State, step: Step) {
    && step.Act? && step.i < |s.runs|
    && var r := s.runs[step.i];
       || (r.pc == AtConfirm && step.reach == Full && ReturnKey(o) in s.w.stock.keys
           && OutcomeOf(s.w.stock, ConfirmOf(o, r.lines, step.at)).Committed?)
       || (r.pc == AtReserve && step.reach == Undone && ConfirmKey(o) in s.w.stock.keys
           && OutcomeOf(s.w.stock, UndoRequest(ReserveOf(o, r.lines, step.at))).Committed?)
  }

  lemma OnceIs(o: Order, s: State)
    requires LogMatchesKeys(o, s)
    ensures Once(s.log, o) <==> !(Returned(s.log) && Allotted(s.log))
    ensures Once(s.log, o) <==> !(ReturnKey(o) in s.w.stock.keys && ConfirmKey(o) in s.w.stock.keys)
  {
    hide MovesOrder;
    hide ReserveKey;
    hide ConfirmKey;
    hide ReturnKey;
  }

  lemma ConfirmClashes(o: Order, s: State, i: nat, reach: Reach, seen: bool, at: int)
    requires Placed(o) && Inv(o, s) && i < |s.runs| && s.runs[i].pc == AtConfirm
    ensures
      var s' := ActConfirm(o, s, i, reach, seen, at);
      Returned(s'.log) && Allotted(s'.log)
      <==> (Returned(s.log) && Allotted(s.log)) || Clashes(o, s, Act(i, reach, seen, at))
  {
    hide OutcomeOf;
    hide After;
    hide LogMatchesKeys;
    hide Returned;
    hide Allotted;
    var s', req := ActConfirm(o, s, i, reach, seen, at), ConfirmOf(o, s.runs[i].lines, at);
    assert RunOk(o, s, s.runs[i]);
    if reach == Full {
      ConfirmFits(o, s, s.runs[i].lines, at);
      CallKeepsLog(o, s, req, s');
      KeyedCall(s.w.stock, req) by { KeysDiffer(o); }
      assert Returned(s.log) <==> ReturnKey(o) in s.w.stock.keys by { OnceIs(o, s); KeysSay(o, s); }
      assert Allotted(s.log) <==> ConfirmKey(o) in s.w.stock.keys by { KeysSay(o, s); }
      assert Allotted(s'.log) <==> ConfirmKey(o) in s'.w.stock.keys by { KeysSay(o, s'); }
      assert Key(req.tenant, req.key) == ConfirmKey(o);
    }
  }

  lemma KeysSay(o: Order, s: State)
    requires LogMatchesKeys(o, s)
    ensures |s.log| > 0 <==> ReserveKey(o) in s.w.stock.keys
    ensures Returned(s.log) <==> ReturnKey(o) in s.w.stock.keys
    ensures Allotted(s.log) <==> ConfirmKey(o) in s.w.stock.keys
  {
  }

  lemma UndoClashes(o: Order, s: State, i: nat, seen: bool, at: int)
    requires Placed(o) && Inv(o, s) && i < |s.runs| && s.runs[i].pc == AtReserve
    ensures
      var s' := ActReserve(o, s, i, Undone, seen, at);
      Returned(s'.log) && Allotted(s'.log)
      <==> (Returned(s.log) && Allotted(s.log)) || Clashes(o, s, Act(i, Undone, seen, at))
  {
    hide OutcomeOf;
    hide After;
    var s', c := ActReserve(o, s, i, Undone, seen, at), ReserveOf(o, s.runs[i].lines, at);
    var undo := UndoRequest(c);
    assert RunOk(o, s, s.runs[i]);
    SameSize(c.items, o.lines);
    HoldFits(o, s, c.items, at);
    UndoneLogs(o, s, i, seen, at);
    KeysSay(o, s);
    KeysSay(o, s');
    if Allotted(s.log) {
      ReplayedHold(s.w.stock, c) by { KeysDiffer(o); }
      assert HoldRequest(c.(fails := true)) == HoldRequest(c) && UndoRequest(c.(fails := true)) == undo;
      assert Key(undo.tenant, undo.key) == ReturnKey(o);
      KeyedCall(s.w.stock, undo) by { KeysDiffer(o); }
      assert s'.w.stock == After(s.w.stock, undo);
    }
  }

  /** One step leaves the order's effect exactly-once if and only if it was and the step does not clash. */
  lemma StepOnce(o: Order, s: State, step: Step)
    requires Placed(o) && Inv(o, s) && Enabled(o, s, step)
    ensures Once(Next(o, s, step).log, o) <==> Once(s.log, o) && !Clashes(o, s, step)
  {
    hide Once;
    hide Returned;
    hide Allotted;
    hide RowsMatch;
    hide ActReserve;
    var s' := Next(o, s, step);
    StepKeeps(o, s, step);
    OnceIs(o, s);
    OnceIs(o, s');
    assert !o.pays ==> !Allotted(s.log) && !Allotted(s'.log);
    if step.Act? {
      var i, reach, seen, at := step.i, step.reach, step.seen, step.at;
      var pc := s.runs[i].pc;
      assert RunOk(o, s, s.runs[i]);
      if pc == AtConfirm {
        ConfirmClashes(o, s, i, reach, seen, at);
      } else if pc == AtReserve && reach == Undone {
        UndoClashes(o, s, i, seen, at);
      } else if pc == AtReserve {
        HoldAlters(o, s, i, reach, seen, at);
      } else if pc != AtRelease {
        LocalLogs(o, s, i, reach, seen, at);
      }
    }
  }

  lemma LocalLogs(o: Order, s: State, i: nat, reach: Reach, seen: bool, at: int)
    requires i < |s.runs| && s.runs[i].pc !in {AtReserve, AtRelease, AtConfirm}
    ensures ActOf(o, s, i, reach, seen, at).log == s.log
  {
    hide AfterAllocate;
  }

  /** A reservation that is not undone neither returns nor allocates. */
  lemma HoldAlters(o: Order, s: State, i: nat, reach: Reach, seen: bool, at: int)
    requires Placed(o) && Inv(o, s) && i < |s.runs| && s.runs[i].pc == AtReserve && reach != Undone
    ensures
      var s' := ActReserve(o, s, i, reach, seen, at);
      (Returned(s'.log) <==> Returned(s.log)) && (Allotted(s'.log) <==> Allotted(s.log))
  {
    hide ActReserve;
    hide RowsMatch;
    hide LogMatchesKeys;
    hide Returned;
    hide Allotted;
    assert RunOk(o, s, s.runs[i]);
    HoldFits(o, s, s.runs[i].lines, at);
    SameSize(s.runs[i].lines, o.lines);
    ReserveLogs(o, s, i, reach, seen, at);
  }

  predicate NoneUndone(steps: seq<Step>) {
    forall n :: 0 <= n < |steps| && steps[n].Act? ==> steps[n].reach != Undone
  }

  /** A paying order's stock is returned only by a reservation that could not be recorded. */
  lemma StepReturnsNothing(o: Order, s: State, step: Step)
    requires Placed(o) && Inv(o, s) && Enabled(o, s, step) && o.pays && (step.Act? ==> step.reach != Undone)
    ensures Returned(Next(o, s, step).log) <==> Returned(s.log)
  {
    hide LogMatchesKeys;
    hide OutcomeOf;
    hide After;
    hide ActReserve;
    var s' := Next(o, s, step);
    if step.Act? {
      var i, reach, seen, at := step.i, step.reach, step.seen, step.at;
      var pc := s.runs[i].pc;
      assert RunOk(o, s, s.runs[i]);
      if pc == AtConfirm {
        if reach == Full {
          ConfirmFits(o, s, s.runs[i].lines, at);
          CallKeepsLog(o, s, ConfirmOf(o, s.runs[i].lines, at), s');
        }
      } else if pc == AtReserve {
        HoldAlters(o, s, i, reach, seen, at);
      } else {
        assert pc != AtRelease;
        LocalLogs(o, s, i, reach, seen, at);
      }
    }
  }

  /** None of the first n steps clashes. */
  ghost predicate ClashFree(o: Order, run: seq<State>, steps: seq<Step>, n: nat)
    requires n <= |steps| <= |run|
  {
    forall m: nat :: m < n ==> !Clashes(o, run[m], steps[m])
  }

  lemma ClashFreeMore(o: Order, run: seq<State>, steps: seq<Step>, n: nat)
    requires 0 < n <= |steps| <= |run|
    ensures ClashFree(o, run, steps, n) <==> ClashFree(o, run, steps, n - 1) && !Clashes(o, run[n - 1], steps[n - 1])
  {
    hide Clashes;
  }

  lemma {:induction false} RunOnce(o: Order, run: seq<State>, steps: seq<Step>, n: nat)
    requires Placed(o) && IsRun(o, run, steps) && n < |run|
    ensures Once(run[n].log, o) <==> ClashFree(o, run, steps, n)
    ensures o.pays && NoneUndone(steps) ==> !Returned(run[n].log)
  {
    hide Clashes;
    hide Inv;
    hide Placed;
    hide Next;
    hide Enabled;
    if n > 0 {
      var m := n - 1;
      RunOnce(o, run, steps, m);
      RunKeeps(o, run, steps, m);
      assert Enabled(o, run[m], steps[m]) && run[m + 1] == Next(o, run[m], steps[m]);
      StepOnce(o, run[m], steps[m]);
      ClashFreeMore(o, run, steps, n);
      if o.pays && NoneUndone(steps) { StepReturnsNothing(o, run[m], steps[m]); }
    }
  }

  /** Over every schedule of crashes, resumes, lost replies, undone reservations and interference, each of the
      order's stock calls commits at most once, the hold first, each for exactly its lines; CONFIRMED implies
      allocated and COMPENSATED implies returned. The order's effect is exactly-once, one of nothing, a hold, a
      hold and a return, a hold and an allocation, if and only if the schedule has no clash, which is if and only
      if the stock service has not recorded both the return key and the confirmation key. It always is when the
      payment fails, and when no reservation had to be undone. */
  lemma ExactlyOnce(o: Order, run: seq<State>, steps: seq<Step>, s: State)
    requires Placed(o) && IsRun(o, run, steps) && s == run[|run| - 1]
    ensures Kinds(s.log, o)
    ensures forall i :: 0 <= i < |s.log| ==> MovesOrder(o, s.log[i])
    ensures Allotted(s.log) ==> o.pays
    ensures s.saga == Confirmed ==> Allotted(s.log)
    ensures s.saga == Compensated ==> Returned(s.log) && !o.pays
    ensures Once(s.log, o) <==> ClashFree(o, run, steps, |steps|)
    ensures Once(s.log, o) <==> !(ReturnKey(o) in s.w.stock.keys && ConfirmKey(o) in s.w.stock.keys)
    ensures !o.pays || NoneUndone(steps) ==> Once(s.log, o) && (Returned(s.log) ==> !o.pays)
  {
    hide ClashFree;
    hide Once;
    hide RowsMatch;
    hide RunOk;
    RunKeeps(o, run, steps, |run| - 1);
    RunOnce(o, run, steps, |run| - 1);
    OnceIs(o, s);
  }
}
