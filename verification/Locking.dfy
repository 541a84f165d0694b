/**
 Concurrent stock transactions, one step at a time: take the idempotency key, then one row lock per
 line, each held to the end, reading the committed row under the lock. No interleaving deadlocks, and
 unless an adjustment creates a row that another call has already looked for, each gives the replies
 and the database of running the transactions one at a time in the order they finished.
 */
module Locking {
  import opened Base
  import opened StockLedger
  import opened AllOrNothing

  datatype Phase = Start | Running(k: nat, delta: Delta) | Finished(outcome: Outcome)

  /** `rows` are the row locks held; a running transaction with a key holds that key too. */
  datatype Txn = Txn(phase: Phase, rows: set<Location>)

  /** Transaction i executes reqs[i]; `log` lists the finished transactions in the order they finished. */
  datatype System = System(db: Tables, reqs: seq<Request>, txns: seq<Txn>, log: seq<nat>) {
    ghost predicate Shaped() {
      && |reqs| == |txns|
      && (forall p :: 0 <= p < |log| ==> log[p] < |reqs|)
      && (forall i :: 0 <= i < |txns| && txns[i].phase.Running? ==> txns[i].phase.k <= |reqs[i].lines|)
    }
  }

  ghost predicate KeyFree(s: System, i: nat)
    requires s.Shaped() && i < |s.txns|
  {
    forall j :: 0 <= j < |s.txns| && j != i && s.txns[j].phase.Running? ==> !SameKey(s.reqs[j], s.reqs[i])
  }

  predicate SameKey(a: Request, b: Request) {
    a.key != "" && a.key == b.key && a.tenant == b.tenant
  }

  ghost predicate RowFree(s: System, i: nat, loc: Location)
    requires s.Shaped() && i < |s.txns|
  {
    forall j :: 0 <= j < |s.txns| && j != i && s.txns[j].phase.Running? ==> loc !in s.txns[j].rows
  }

  /** The row transaction i asks for next. */
  ghost function Here(s: System, i: nat): Location
    requires s.Shaped() && i < |s.txns| && s.txns[i].phase.Running? && s.txns[i].phase.k < |s.reqs[i].lines|
  {
    Loc(s.reqs[i].tenant, s.reqs[i].lines[s.txns[i].phase.k])
  }

  ghost predicate Ready(s: System, i: nat)
    requires s.Shaped() && i < |s.txns| && s.txns[i].phase.Running?
  {
    s.txns[i].phase.k == |s.reqs[i].lines| || s.txns[i].phase.delta.aborted
  }

  /** Asking for a row takes its lock: an upsert always does, FOR UPDATE only when the row is committed. A row that
      is being inserted is invisible to FOR UPDATE, which neither waits for it nor locks it. */
  predicate TakesLock(db: Tables, req: Request, loc: Location) {
    loc in db.levels || req.kind.Adjust?
  }

  /** A replayed adjustment re-reads its row FOR UPDATE. */
  ghost predicate ReplayWaits(s: System, i: nat)
    requires s.Shaped() && i < |s.txns|
  {
    && IsDuplicate(s.db, s.reqs[i]) && s.reqs[i].kind.Adjust? && s.reqs[i].lines != []
    && var loc := Loc(s.reqs[i].tenant, s.reqs[i].lines[0]);
       loc in s.db.levels && !RowFree(s, i, loc)
  }

  /** Whether transaction i can move: nothing it asks for next is locked by another. */
  ghost predicate CanStep(s: System, i: nat)
    requires s.Shaped()
  {
    && i < |s.txns|
    && match s.txns[i].phase
       case Start => KeyFree(s, i) && !ReplayWaits(s, i)
       case Running(_, _) => Ready(s, i) || !TakesLock(s.db, s.reqs[i], Here(s, i)) || RowFree(s, i, Here(s, i))
       case Finished(_) => false
  }

  ghost function Finish(s: System, i: nat, db: Tables, outcome: Outcome): System
    requires s.Shaped() && i < |s.txns|
  {
    System(db, s.reqs, s.txns[i := Txn(Finished(outcome), {})], s.log + [i])
  }

  /** Reading one row, under its lock if one is taken. */
  ghost function Advance(s: System, i: nat): Txn
    requires s.Shaped() && i < |s.txns| && s.txns[i].phase.Running? && !Ready(s, i)
  {
    var req, k, d, here := s.reqs[i], s.txns[i].phase.k, s.txns[i].phase.delta, Here(s, i);
    Txn(Running(k + 1, Absorb(d, here, RowStep(s.db.checks, req, req.lines[k], Lookup(s.db.levels, d, here)))),
        s.txns[i].rows + (if TakesLock(s.db, req, here) then {here} else {}))
  }

  /** The state after transaction i moves. */
  ghost function StepOf(s: System, i: nat): System
    requires s.Shaped() && CanStep(s, i)
  {
    var req := s.reqs[i];
    match s.txns[i].phase
    case Start =>
      if req.kind.Reserve? && req.lines == [] then Finish(s, i, s.db, Invalid)
      else if IsDuplicate(s.db, req) then Finish(s, i, s.db, ReplayOf(s.db, req))
      else s.(txns := s.txns[i := Txn(Running(0, NOTHING), {})])
    case Running(k, d) =>
      if !Ready(s, i) then s.(txns := s.txns[i := Advance(s, i)])
      else if d.aborted then Finish(s, i, s.db, Internal)
      else if d.failed != [] then Finish(s, i, s.db, Insufficient(d.failed))
      else Finish(s, i, Apply(s.db, req, d), Committed(d.results))
  }

  predicate Initial(s: System) {
    && |s.reqs| == |s.txns|
    && s.log == []
    && forall i :: 0 <= i < |s.txns| ==> s.txns[i] == Txn(Start, {})
  }

  /** A run: at each step some transaction that can move moves. */
  ghost predicate IsRun(run: seq<System>) {
    && run != [] && Initial(run[0])
    && forall t :: 0 <= t < |run| - 1 ==> Moves(run[t], run[t + 1])
  }

  ghost predicate Moves(s: System, s': System) {
    s.Shaped() && exists i :: CanStep(s, i) && s' == StepOf(s, i)
  }

  /** The database after running some requests one at a time. */
  function Serial(db: Tables, reqs: seq<Request>, log: seq<nat>): Tables
    requires forall p :: 0 <= p < |log| ==> log[p] < |reqs|
  {
    if log == [] then db else After(Serial(db, reqs, log[..|log| - 1]), reqs[log[|log| - 1]])
  }

  // ----- what the locks protect -----

  function Touched(req: Request, k: nat): set<Location>
    requires k <= |req.lines|
  {
    set i | 0 <= i < k :: Loc(req.tenant, req.lines[i])
  }

  function Named(req: Request): set<Location> {
    Touched(req, |req.lines|)
  }

  lemma TouchedIsNamed(req: Request, k: nat)
    requires k <= |req.lines|
    ensures Touched(req, k) <= Named(req)
  {
  }

  /** No location without a row is named both by an adjustment, which would create the row, and by a call of another
      kind, which would have looked for it. */
  ghost predicate NoneCreatedUnseen(reqs: seq<Request>, levels: map<Location, Level>) {
    forall i, j, loc ::
      && 0 <= i < |reqs| && 0 <= j < |reqs| && reqs[i].kind.Adjust? && !reqs[j].kind.Adjust?
      && loc in Named(reqs[i]) && loc in Named(reqs[j])
      ==> loc in levels
  }

  /** The rows whose locks the first k lines took. */
  function LockedBy(db: Tables, req: Request, k: nat): set<Location>
    requires k <= |req.lines|
  {
    set loc | loc in Touched(req, k) && TakesLock(db, req, loc)
  }

  predicate AgreeOn(a: map<Location, Level>, b: map<Location, Level>, locs: set<Location>) {
    forall loc :: loc in locs ==> (loc in a <==> loc in b) && (loc in a ==> a[loc] == b[loc])
  }

  /** What a transaction has built depends only on the rows it has touched. */
  lemma {:induction false} OverlayFrame(checks: bool, a: map<Location, Level>, b: map<Location, Level>, req: Request,
                                        k: nat)
    requires k <= |req.lines| && AgreeOn(a, b, Touched(req, k))
    ensures DeltaAfter(checks, a, req, k) == DeltaAfter(checks, b, req, k)
    decreases k
  {
    hide RowStep;
    if k > 0 {
      assert Touched(req, k - 1) <= Touched(req, k);
      OverlayFrame(checks, a, b, req, k - 1);
      assert Loc(req.tenant, req.lines[k - 1]) in Touched(req, k);
    }
  }

  lemma {:induction false} WritesWhatItTouched(checks: bool, levels: map<Location, Level>, req: Request, k: nat)
    requires k <= |req.lines|
    ensures DeltaAfter(checks, levels, req, k).writes.Keys <= Touched(req, k)
    decreases k
  {
    hide RowStep;
    if k > 0 {
      WritesWhatItTouched(checks, levels, req, k - 1);
      assert Touched(req, k) == Touched(req, k - 1) + {Loc(req.tenant, req.lines[k - 1])};
    }
  }

  /** Only an adjustment writes a row that is not there. */
  lemma {:induction false} CreatesNothing(checks: bool, levels: map<Location, Level>, req: Request, k: nat)
    requires k <= |req.lines| && !req.kind.Adjust?
    ensures DeltaAfter(checks, levels, req, k).writes.Keys <= levels.Keys
    decreases k
  {
    if k > 0 {
      CreatesNothing(checks, levels, req, k - 1);
      var row := Lookup(levels, DeltaAfter(checks, levels, req, k - 1), Loc(req.tenant, req.lines[k - 1]));
      assert row.None? ==> !RowStep(checks, req, req.lines[k - 1], row).Put?;
    }
  }

  // ----- the invariant -----

  /** A running transaction holds the lock of every row it found, and what it has built is what it would build
      reading the rows as they are committed now. */
  ghost predicate Sound(s: System, i: nat)
    requires s.Shaped() && i < |s.txns|
  {
    s.txns[i].phase.Running? ==>
      var req, k := s.reqs[i], s.txns[i].phase.k;
      && s.txns[i].rows == LockedBy(s.db, req, k)
      && s.txns[i].phase.delta == DeltaAfter(s.db.checks, s.db.levels, req, k)
      && !IsDuplicate(s.db, req)
      && (req.kind.Reserve? ==> req.lines != [])
  }

  ghost predicate Apart(s: System, i: nat, j: nat)
    requires s.Shaped() && i < |s.txns| && j < |s.txns|
  {
    i != j && s.txns[i].phase.Running? && s.txns[j].phase.Running? ==>
      s.txns[i].rows !! s.txns[j].rows && !SameKey(s.reqs[i], s.reqs[j])
  }

  /** Transaction log[p] was told what a serial execution would have told it at that point. */
  ghost predicate Answered(s: System, db0: Tables, p: nat)
    requires s.Shaped() && p < |s.log|
  {
    s.txns[s.log[p]].phase == Finished(OutcomeOf(Serial(db0, s.reqs, s.log[..p]), s.reqs[s.log[p]]))
  }

  ghost predicate Inv(s: System, db0: Tables) {
    && s.Shaped()
    && NoneCreatedUnseen(s.reqs, s.db.levels)
    && (forall i :: 0 <= i < |s.txns| ==> Sound(s, i))
    && (forall i, j :: 0 <= i < |s.txns| && 0 <= j < |s.txns| ==> Apart(s, i, j))
    && s.db == Serial(db0, s.reqs, s.log)
    && (forall p :: 0 <= p < |s.log| ==> Answered(s, db0, p))
  }

  lemma StartsSound(s: System)
    requires Initial(s) && NoneCreatedUnseen(s.reqs, s.db.levels)
    ensures Inv(s, s.db)
  {
  }

  lemma TouchOneMore(req: Request, k: nat)
    requires k < |req.lines|
    ensures Touched(req, k + 1) == Touched(req, k) + {Loc(req.tenant, req.lines[k])}
  {
  }

  lemma LockOneMore(db: Tables, req: Request, k: nat)
    requires k < |req.lines|
    ensures
      var here := Loc(req.tenant, req.lines[k]);
      LockedBy(db, req, k + 1) == LockedBy(db, req, k) + if TakesLock(db, req, here) then {here} else {}
  {
    hide Touched;
    TouchOneMore(req, k);
  }

  /** Taking the key keeps the invariant. */
  lemma KeyKeeps(s: System, db0: Tables, i: nat)
    requires Inv(s, db0) && CanStep(s, i) && s.txns[i].phase.Start?
    requires !(s.reqs[i].kind.Reserve? && s.reqs[i].lines == []) && !IsDuplicate(s.db, s.reqs[i])
    ensures Inv(StepOf(s, i), db0)
  {
    hide IsDuplicate;
    hide Serial;
    hide OutcomeOf;
    var s' := StepOf(s, i);
    assert LockedBy(s.db, s.reqs[i], 0) == {};
    forall j | 0 <= j < |s.txns| ensures Sound(s', j) { assert Sound(s, j); }
    forall j, l | 0 <= j < |s.txns| && 0 <= l < |s.txns| ensures Apart(s', j, l) { assert Apart(s, j, l); }
    forall p | 0 <= p < |s'.log| ensures Answered(s', db0, p) { assert Answered(s, db0, p); }
  }

  /** Reading one more row keeps the invariant. */
  lemma LineKeeps(s: System, db0: Tables, i: nat)
    requires Inv(s, db0) && CanStep(s, i) && s.txns[i].phase.Running? && !Ready(s, i)
    ensures Inv(StepOf(s, i), db0)
  {
    hide IsDuplicate;
    hide Serial;
    hide OutcomeOf;
    hide RowStep;
    hide LockedBy;
    hide NoneCreatedUnseen;
    var s' := StepOf(s, i);
    assert Sound(s, i);
    var req, k := s.reqs[i], s.txns[i].phase.k;
    LockOneMore(s.db, req, k);
    assert s.txns[i].phase.delta == DeltaAfter(s.db.checks, s.db.levels, req, k);
    assert Advance(s, i).phase.delta == DeltaAfter(s.db.checks, s.db.levels, req, k + 1);
    assert Sound(s', i);
    forall j | 0 <= j < |s.txns| ensures Sound(s', j) { assert Sound(s, j); }
    forall j, l | 0 <= j < |s.txns| && 0 <= l < |s.txns| ensures Apart(s', j, l) { assert Apart(s, j, l); }
    forall p | 0 <= p < |s'.log| ensures Answered(s', db0, p) { assert Answered(s, db0, p); }
  }

  /** Finishing without a change of database keeps the invariant. */
  lemma QuietFinishKeeps(s: System, db0: Tables, i: nat, outcome: Outcome)
    requires Inv(s, db0) && i < |s.txns| && !s.txns[i].phase.Finished?
    requires outcome == OutcomeOf(s.db, s.reqs[i]) && !outcome.Committed?
    ensures Inv(Finish(s, i, s.db, outcome), db0)
  {
    hide IsDuplicate;
    hide OutcomeOf;
    hide DeltaAfter;
    hide LockedBy;
    hide NoneCreatedUnseen;
    var s' := Finish(s, i, s.db, outcome);
    forall j | 0 <= j < |s.txns| ensures Sound(s', j) { assert Sound(s, j); }
    forall j, l | 0 <= j < |s.txns| && 0 <= l < |s.txns| ensures Apart(s', j, l) { assert Apart(s, j, l); }
    LogsOneMore(s, db0, i, s.db, outcome);
  }

  /** The log after one more transaction finishes. */
  lemma LogsOneMore(s: System, db0: Tables, i: nat, db: Tables, outcome: Outcome)
    requires s.Shaped() && i < |s.txns| && !s.txns[i].phase.Finished?
    requires s.db == Serial(db0, s.reqs, s.log)
    requires forall p :: 0 <= p < |s.log| ==> Answered(s, db0, p)
    requires outcome == OutcomeOf(s.db, s.reqs[i]) && db == After(s.db, s.reqs[i])
    ensures
      var s' := Finish(s, i, db, outcome);
      && s'.Shaped()
      && db == Serial(db0, s.reqs, s'.log)
      && forall p :: 0 <= p < |s'.log| ==> Answered(s', db0, p)
  {
    hide OutcomeOf;
    hide After;
    var s' := Finish(s, i, db, outcome);
    assert s'.log[..|s.log|] == s.log;
    forall p | 0 <= p < |s'.log| ensures Answered(s', db0, p) {
      if p < |s.log| {
        assert Answered(s, db0, p);
        assert s'.log[..p] == s.log[..p];
        assert s.log[p] != i;
      }
    }
  }

  /** What a committing transaction writes is out of the way of every other: locked by it, or created where no other
      kind of call looks. */
  lemma WritesApart(s: System, i: nat, j: nat, loc: Location)
    requires s.Shaped() && i < |s.txns| && j < |s.txns| && i != j && NoneCreatedUnseen(s.reqs, s.db.levels)
    requires Sound(s, i) && Sound(s, j) && Apart(s, i, j)
    requires s.txns[i].phase.Running? && s.txns[j].phase.Running?
    requires loc in s.txns[j].phase.delta.writes
    ensures loc !in Touched(s.reqs[i], s.txns[i].phase.k)
  {
    hide DeltaAfter;
    hide Touched;
    var req, k := s.reqs[j], s.txns[j].phase.k;
    WritesWhatItTouched(s.db.checks, s.db.levels, req, k);
    if !req.kind.Adjust? { CreatesNothing(s.db.checks, s.db.levels, req, k); }
    TouchedIsNamed(req, k);
    TouchedIsNamed(s.reqs[i], s.txns[i].phase.k);
    assert loc in s.txns[j].rows;
  }

  /** Another transaction's commit leaves what i has built, and what it holds, untouched. */
  lemma CommitFrames(s: System, i: nat, j: nat, d: Delta)
    requires s.Shaped() && i < |s.txns| && j < |s.txns| && i != j && NoneCreatedUnseen(s.reqs, s.db.levels)
    requires Sound(s, i) && Sound(s, j) && Apart(s, i, j)
    requires s.txns[i].phase.Running? && s.txns[j].phase.Running? && d == s.txns[j].phase.delta
    ensures
      var db, k := Apply(s.db, s.reqs[j], d), s.txns[i].phase.k;
      && s.txns[i].phase.delta == DeltaAfter(db.checks, db.levels, s.reqs[i], k)
      && s.txns[i].rows == LockedBy(db, s.reqs[i], k)
      && !IsDuplicate(db, s.reqs[i])
  {
    hide Touched;
    hide DeltaAfter;
    var touched := Touched(s.reqs[i], s.txns[i].phase.k);
    forall loc | loc in d.writes ensures loc !in touched { WritesApart(s, i, j, loc); }
    OverlayFrame(s.db.checks, s.db.levels, s.db.levels + d.writes, s.reqs[i], s.txns[i].phase.k);
  }

  lemma CommitKeeps(s: System, db0: Tables, j: nat)
    requires Inv(s, db0) && CanStep(s, j) && s.txns[j].phase.Running?
    requires Ready(s, j) && !s.txns[j].phase.delta.aborted && s.txns[j].phase.delta.failed == []
    ensures Inv(StepOf(s, j), db0)
  {
    hide DeltaAfter;
    hide IsDuplicate;
    hide LockedBy;
    hide OutcomeOf;
    hide Serial;
    var d := s.txns[j].phase.delta;
    var s' := StepOf(s, j);
    assert Sound(s, j);
    CommitIsSerial(s, j);
    LogsOneMore(s, db0, j, Apply(s.db, s.reqs[j], d), Committed(d.results));
    forall i | 0 <= i < |s.txns| ensures Sound(s', i) {
      assert Sound(s, i);
      if i != j && s.txns[i].phase.Running? { assert Apart(s, i, j); CommitFrames(s, i, j, d); }
    }
    forall i, l | 0 <= i < |s.txns| && 0 <= l < |s.txns| ensures Apart(s', i, l) { assert Apart(s, i, l); }
  }

  lemma CommitIsSerial(s: System, j: nat)
    requires s.Shaped() && j < |s.txns| && Sound(s, j) && s.txns[j].phase.Running? && Ready(s, j)
    requires !s.txns[j].phase.delta.aborted && s.txns[j].phase.delta.failed == []
    ensures OutcomeOf(s.db, s.reqs[j]) == Committed(s.txns[j].phase.delta.results)
    ensures After(s.db, s.reqs[j]) == Apply(s.db, s.reqs[j], s.txns[j].phase.delta)
  {
    hide DeltaAfter;
  }

  lemma FailureIsSerial(s: System, j: nat)
    requires s.Shaped() && j < |s.txns| && Sound(s, j) && s.txns[j].phase.Running? && Ready(s, j)
    requires s.txns[j].phase.delta.aborted || s.txns[j].phase.delta.failed != []
    ensures
      var d := s.txns[j].phase.delta;
      OutcomeOf(s.db, s.reqs[j]) == if d.aborted then Internal else Insufficient(d.failed)
  {
    hide DeltaAfter;
    var req := s.reqs[j];
    if s.txns[j].phase.delta.aborted {
      AbortSticks(s.db.checks, s.db.levels, req, s.txns[j].phase.k, |req.lines|);
    }
  }

  /** Every move keeps the invariant. */
  lemma MoveKeeps(s: System, db0: Tables, i: nat)
    requires Inv(s, db0) && CanStep(s, i)
    ensures Inv(StepOf(s, i), db0)
  {
    assert Sound(s, i);
    var req := s.reqs[i];
    if s.txns[i].phase.Start? {
      if req.kind.Reserve? && req.lines == [] {
        QuietFinishKeeps(s, db0, i, Invalid);
      } else if IsDuplicate(s.db, req) {
        QuietFinishKeeps(s, db0, i, ReplayOf(s.db, req));
      } else {
        KeyKeeps(s, db0, i);
      }
    } else if !Ready(s, i) {
      LineKeeps(s, db0, i);
    } else if s.txns[i].phase.delta.aborted || s.txns[i].phase.delta.failed != [] {
      FailureIsSerial(s, i);
      QuietFinishKeeps(s, db0, i, OutcomeOf(s.db, req));
    } else {
      CommitKeeps(s, db0, i);
    }
  }

  /** The log names each finished transaction exactly once. */
  ghost predicate LogIsExact(s: System) {
    && (forall i :: 0 <= i < |s.txns| ==> (s.txns[i].phase.Finished? <==> i in s.log))
    && (forall p, q :: 0 <= p < q < |s.log| ==> s.log[p] != s.log[q])
  }

  lemma MoveKeepsLogExact(s: System, i: nat)
    requires s.Shaped() && LogIsExact(s) && CanStep(s, i)
    ensures LogIsExact(StepOf(s, i))
  {
    hide ReplayOf;
    hide IsDuplicate;
    hide Apply;
    hide RowStep;
    hide Absorb;
  }

  /** Serializability: in every run in which no adjustment creates a row another kind of call names, at every
      moment, the committed database is what running the finished transactions one at a time in the order they
      finished produces, each of them was told what that serial execution would have told it, and each finished
      transaction is counted once. */
  lemma {:induction false} EveryRunIsSerial(run: seq<System>)
    requires IsRun(run) && NoneCreatedUnseen(run[0].reqs, run[0].db.levels)
    ensures
      var s := run[|run| - 1];
      && s.reqs == run[0].reqs
      && Inv(s, run[0].db)
      && LogIsExact(s)
    decreases |run|
  {
    hide Inv;
    hide StepOf;
    if |run| == 1 {
      StartsSound(run[0]);
    } else {
      var before := run[..|run| - 1];
      EveryRunIsSerial(before);
      var s := run[|run| - 2];
      assert Moves(run[|run| - 2], run[|run| - 2 + 1]);
      var i :| CanStep(s, i) && run[|run| - 1] == StepOf(s, i);
      MoveKeeps(s, run[0].db, i);
      MoveKeepsLogExact(s, i);
      SameRequests(s, i);
    }
  }

  lemma SameRequests(s: System, i: nat)
    requires s.Shaped() && CanStep(s, i)
    ensures StepOf(s, i).reqs == s.reqs
  {
  }

  /** What the invariant says outright: the serial database, and every finished transaction's serial answer. */
  lemma SerialAnswers(s: System, db0: Tables, i: nat)
    requires Inv(s, db0) && LogIsExact(s) && i < |s.txns| && s.txns[i].phase.Finished?
    ensures s.db == Serial(db0, s.reqs, s.log)
    ensures exists p :: 0 <= p < |s.log| && s.log[p] == i
                        && s.txns[i].phase.outcome == OutcomeOf(Serial(db0, s.reqs, s.log[..p]), s.reqs[i])
  {
    var p :| 0 <= p < |s.log| && s.log[p] == i;
    assert Answered(s, db0, p);
  }

  // ----- no deadlock -----

  /** A running transaction holds locks only of rows it has asked for. */
  ghost predicate HoldsOnlyAsked(s: System, i: nat)
    requires s.Shaped() && i < |s.txns|
  {
    s.txns[i].phase.Running? ==> s.txns[i].rows <= Touched(s.reqs[i], s.txns[i].phase.k)
  }

  /** What the locks alone keep true, whether or not the rows exist. */
  ghost predicate Orderly(s: System) {
    && s.Shaped()
    && (forall i :: 0 <= i < |s.txns| ==> HoldsOnlyAsked(s, i))
    && (forall i, j :: 0 <= i < |s.txns| && 0 <= j < |s.txns| ==> Apart(s, i, j))
  }

  lemma MoveKeepsOrder(s: System, i: nat)
    requires Orderly(s) && CanStep(s, i)
    ensures Orderly(StepOf(s, i))
  {
    hide ReplayOf;
    hide IsDuplicate;
    hide Apply;
    hide RowStep;
    hide Absorb;
    hide Touched;
    var s' := StepOf(s, i);
    assert HoldsOnlyAsked(s, i);
    if s.txns[i].phase.Running? && s.txns[i].phase.k < |s.reqs[i].lines| { TouchOneMore(s.reqs[i], s.txns[i].phase.k); }
    forall j | 0 <= j < |s'.txns| ensures HoldsOnlyAsked(s', j) { assert HoldsOnlyAsked(s, j); }
    forall j, l | 0 <= j < |s'.txns| && 0 <= l < |s'.txns| ensures Apart(s', j, l) { assert Apart(s, j, l); }
  }

  lemma {:induction false} RunsAreOrderly(run: seq<System>)
    requires IsRun(run)
    ensures Orderly(run[|run| - 1]) && run[|run| - 1].reqs == run[0].reqs
    decreases |run|
  {
    hide StepOf;
    if |run| > 1 {
      RunsAreOrderly(run[..|run| - 1]);
      var s := run[|run| - 2];
      assert Moves(run[|run| - 2], run[|run| - 2 + 1]);
      var i :| CanStep(s, i) && run[|run| - 1] == StepOf(s, i);
      MoveKeepsOrder(s, i);
      SameRequests(s, i);
    }
  }

  predicate Before(a: Location, b: Location) {
    || Less(a.tenant, b.tenant)
    || (a.tenant == b.tenant && Precedes(Line(a.sku, a.warehouse, 0), Line(b.sku, b.warehouse, 0)))
  }

  lemma BeforeChains(a: Location, b: Location, c: Location)
    ensures Before(a, b) && Before(b, c) ==> Before(a, c)
    ensures !(Before(a, b) && Before(b, a))
  {
    hide Precedes;
    hide Less;
    PrecedesChains(Line(a.sku, a.warehouse, 0), Line(b.sku, b.warehouse, 0), Line(c.sku, c.warehouse, 0));
    NotLessBoth(a.tenant, b.tenant);
    if Less(a.tenant, b.tenant) && Less(b.tenant, c.tenant) { LessTransitive(a.tenant, b.tenant, c.tenant); }
    LessNotSelf(a.tenant);
  }

  lemma LessNotSelf(a: string)
    ensures !Less(a, a)
  {
    LessIrreflexive(a);
  }

  ghost predicate LockOrder(reqs: seq<Request>) {
    forall i :: 0 <= i < |reqs| ==> Ascending(reqs[i].lines)
  }

  /** A running transaction that cannot move waits for a row another running transaction holds. */
  ghost predicate Waits(s: System, i: nat)
    requires s.Shaped()
    ensures Waits(s, i) ==> i < |s.txns| && s.txns[i].phase.Running? && s.txns[i].phase.k < |s.reqs[i].lines|
  {
    i < |s.txns| && s.txns[i].phase.Running? && !CanStep(s, i)
  }

  /** The holder of the row i waits for, if it waits too, waits for a later row. */
  lemma WaitsClimb(s: System, i: nat) returns (j: nat)
    requires Orderly(s) && LockOrder(s.reqs) && Waits(s, i)
    ensures j < |s.txns| && s.txns[j].phase.Running?
    ensures Waits(s, j) ==> Before(Here(s, i), Here(s, j))
  {
    hide Precedes;
    j :| 0 <= j < |s.txns| && j != i && s.txns[j].phase.Running? && Here(s, i) in s.txns[j].rows;
    assert HoldsOnlyAsked(s, j);
    if Waits(s, j) {
      var l :| 0 <= l < |s.txns| && l != j && s.txns[l].phase.Running? && Here(s, j) in s.txns[l].rows;
      assert Apart(s, j, l);
      var m :| 0 <= m < s.txns[j].phase.k && Loc(s.reqs[j].tenant, s.reqs[j].lines[m]) == Here(s, i);
      assert Here(s, j) != Here(s, i);
      LaterRow(s.reqs[j], m, s.txns[j].phase.k);
    }
  }

  lemma LaterRow(req: Request, m: nat, k: nat)
    requires m < k < |req.lines| && Ascending(req.lines)
    requires Loc(req.tenant, req.lines[m]) != Loc(req.tenant, req.lines[k])
    ensures Before(Loc(req.tenant, req.lines[m]), Loc(req.tenant, req.lines[k]))
  {
    hide Less;
    var a, b := req.lines[m], req.lines[k];
    assert !Precedes(b, a);
    LessTotal(a.sku, b.sku);
    LessTotal(a.warehouse, b.warehouse);
  }

  /** Some waiting transaction waits for a row no other waiting transaction waits beyond. */
  lemma {:induction false} LastWaiter(s: System, upTo: nat) returns (m: nat)
    requires s.Shaped() && upTo <= |s.txns|
    requires exists i: nat :: i < upTo && Waits(s, i)
    ensures m < upTo && Waits(s, m)
    ensures forall i: nat :: i < upTo && Waits(s, i) ==> !Before(Here(s, m), Here(s, i))
    decreases upTo
  {
    hide Waits;
    hide Before;
    var last := upTo - 1;
    if exists i: nat :: i < last && Waits(s, i) {
      m := LastWaiter(s, last);
      if Waits(s, last) && Before(Here(s, m), Here(s, last)) {
        forall i: nat | i < upTo && Waits(s, i)
          ensures !Before(Here(s, last), Here(s, i))
        {
          BeforeChains(Here(s, m), Here(s, last), Here(s, i));
          BeforeChains(Here(s, last), Here(s, last), Here(s, i));
        }
        m := last;
      }
    } else {
      m := last;
      BeforeChains(Here(s, m), Here(s, m), Here(s, m));
    }
  }

  /** A transaction that has not begun waits for a running one. */
  lemma StartWaitsForRunning(s: System, i: nat)
    requires s.Shaped() && i < |s.txns| && s.txns[i].phase.Start? && !CanStep(s, i)
    ensures exists j :: 0 <= j < |s.txns| && s.txns[j].phase.Running?
  {
  }

  /** While any transaction is unfinished, some transaction can move. */
  lemma SomeoneMoves(s: System, i: nat) returns (j: nat)
    requires Orderly(s) && LockOrder(s.reqs)
    requires i < |s.txns| && !s.txns[i].phase.Finished?
    ensures CanStep(s, j)
  {
    hide CanStep;
    hide Before;
    hide LockOrder;
    hide Apart;
    hide HoldsOnlyAsked;
    if CanStep(s, i) { return i; }
    var r := i;
    if s.txns[i].phase.Start? {
      StartWaitsForRunning(s, i);
      r :| 0 <= r < |s.txns| && s.txns[r].phase.Running?;
    }
    if CanStep(s, r) { return r; }
    assert Waits(s, r);
    var m := LastWaiter(s, |s.txns|);
    j := WaitsClimb(s, m);
  }

  /** Deadlock freedom: whatever the transactions ask for, rows that exist or not, every run of them that has left
      one unfinished can go on. */
  lemma NoDeadlock(run: seq<System>, i: nat) returns (j: nat)
    requires IsRun(run) && LockOrder(run[0].reqs)
    requires i < |run[|run| - 1].txns| && !run[|run| - 1].txns[i].phase.Finished?
    ensures run[|run| - 1].Shaped() && CanStep(run[|run| - 1], j)
  {
    hide CanStep;
    hide LockOrder;
    RunsAreOrderly(run);
    j := SomeoneMoves(run[|run| - 1], i);
  }

  // ----- and it ends -----

  ghost function StepsLeft(s: System, i: nat): nat
    requires s.Shaped() && i < |s.txns|
  {
    match s.txns[i].phase
    case Start => |s.reqs[i].lines| + 2
    case Running(k, _) => |s.reqs[i].lines| - k + 1
    case Finished(_) => 0
  }

  ghost function StepsTo(s: System, n: nat): nat
    requires s.Shaped() && n <= |s.txns|
  {
    if n == 0 then 0 else StepsTo(s, n - 1) + StepsLeft(s, n - 1)
  }

  lemma {:induction false} OneFewer(s: System, s': System, i: nat, n: nat)
    requires s.Shaped() && s'.Shaped() && |s.txns| == |s'.txns| && n <= |s.txns| && i < |s.txns|
    requires StepsLeft(s', i) < StepsLeft(s, i)
    requires forall j :: 0 <= j < |s.txns| && j != i ==> StepsLeft(s', j) == StepsLeft(s, j)
    ensures StepsTo(s', n) <= StepsTo(s, n)
    ensures i < n ==> StepsTo(s', n) < StepsTo(s, n)
    decreases n
  {
    hide StepsLeft;
    if n > 0 { OneFewer(s, s', i, n - 1); }
  }

  /** Every move brings the end closer, so with NoDeadlock every transaction finishes. */
  lemma EveryMoveCounts(s: System, i: nat)
    requires s.Shaped() && CanStep(s, i)
    ensures StepOf(s, i).Shaped() && |StepOf(s, i).txns| == |s.txns|
    ensures StepsTo(StepOf(s, i), |s.txns|) < StepsTo(s, |s.txns|)
  {
    hide RowStep;
    hide Absorb;
    hide ReplayOf;
    hide IsDuplicate;
    hide Apply;
    OneFewer(s, StepOf(s, i), i, |s.txns|);
  }

  /** No run is longer than the steps its transactions have between them. */
  lemma {:induction false} RunsAreBounded(run: seq<System>)
    requires IsRun(run)
    ensures run[0].Shaped() && run[|run| - 1].Shaped() && |run[|run| - 1].txns| == |run[0].txns|
    ensures |run| - 1 + StepsTo(run[|run| - 1], |run[0].txns|) <= StepsTo(run[0], |run[0].txns|)
    decreases |run|
  {
    hide StepOf;
    if |run| > 1 {
      RunsAreBounded(run[..|run| - 1]);
      var s := run[|run| - 2];
      assert Moves(run[|run| - 2], run[|run| - 2 + 1]);
      var i :| CanStep(s, i) && run[|run| - 1] == StepOf(s, i);
      EveryMoveCounts(s, i);
    }
  }

  /** A run that cannot go on has finished every transaction. */
  lemma StuckMeansDone(run: seq<System>, s: System, i: nat)
    requires IsRun(run) && LockOrder(run[0].reqs)
    requires s == run[|run| - 1] && s.Shaped() && forall j: nat :: !CanStep(s, j)
    requires i < |s.txns|
    ensures s.txns[i].phase.Finished?
  {
    hide CanStep;
    hide LockOrder;
    if !s.txns[i].phase.Finished? {
      var j := NoDeadlock(run, i);
    }
  }

  // ----- when a row is created unseen -----

  /** Two one-line calls for a location without a row: an adjustment that would create it, and a call of another
      kind. */
  predicate Overtaking(db: Tables, other: Request, adjust: Request) {
    && |other.lines| == 1 && !other.kind.Adjust? && |adjust.lines| == 1 && adjust.kind.Adjust?
    && Loc(other.tenant, other.lines[0]) == Loc(adjust.tenant, adjust.lines[0])
    && Loc(other.tenant, other.lines[0]) !in db.levels
    && !IsDuplicate(db, other) && !SameKey(other, adjust) && OutcomeOf(db, adjust).Committed?
  }

  /** The interleaving, state by state: the other call looks for the row, the adjustment creates it and commits, then
      the other call finishes. */
  ghost function Overtaken(db: Tables, other: Request, adjust: Request): seq<System>
    requires |other.lines| == 1 && |adjust.lines| == 1
  {
    var reqs := [other, adjust];
    var idle, here := Txn(Start, {}), Loc(adjust.tenant, adjust.lines[0]);
    var looked := Txn(Running(1, Absorb(NOTHING, here, RowStep(db.checks, other, other.lines[0], None))), {});
    var d := Absorb(NOTHING, here, RowStep(db.checks, adjust, adjust.lines[0], None));
    var db' := Apply(db, adjust, d);
    var adjusted := Txn(Finished(Committed(d.results)), {});
    [ System(db, reqs, [idle, idle], []),
      System(db, reqs, [Txn(Running(0, NOTHING), {}), idle], []),
      System(db, reqs, [looked, idle], []),
      System(db, reqs, [looked, Txn(Running(0, NOTHING), {})], []),
      System(db, reqs, [looked, Txn(Running(1, d), {here})], []),
      System(db', reqs, [looked, adjusted], [1]),
      System(if OutcomeOf(db, other).Committed? then Apply(db', other, NOTHING) else db', reqs,
             [Txn(Finished(OutcomeOf(db, other)), {}), adjusted], [1, 0]) ]
  }

  lemma OneLine(db: Tables, req: Request)
    requires |req.lines| == 1 && Loc(req.tenant, req.lines[0]) !in db.levels
    ensures DeltaOf(db, req)
         == Absorb(NOTHING, Loc(req.tenant, req.lines[0]), RowStep(db.checks, req, req.lines[0], None))
  {
    hide RowStep;
    assert DeltaAfter(db.checks, db.levels, req, 0) == NOTHING;
    assert Lookup(db.levels, NOTHING, Loc(req.tenant, req.lines[0])) == None;
  }

  lemma OvertakenStarts(db: Tables, other: Request, adjust: Request)
    requires Overtaking(db, other, adjust)
    ensures
      var run := Overtaken(db, other, adjust);
      && run[0].Shaped() && CanStep(run[0], 0) && StepOf(run[0], 0) == run[1]
      && run[2].Shaped() && CanStep(run[2], 1) && StepOf(run[2], 1) == run[3]
  {
    hide RowStep;
    hide Absorb;
    hide DeltaOf;
    hide ReplayOf;
    assert !IsDuplicate(db, adjust);
  }

  lemma OvertakenReads(db: Tables, other: Request, adjust: Request)
    requires Overtaking(db, other, adjust)
    ensures
      var run := Overtaken(db, other, adjust);
      && run[1].Shaped() && CanStep(run[1], 0) && StepOf(run[1], 0) == run[2]
      && run[3].Shaped() && CanStep(run[3], 1) && StepOf(run[3], 1) == run[4]
  {
    hide OutcomeOf;
    hide RowStep;
    hide Absorb;
    var run := Overtaken(db, other, adjust);
    var here := Loc(adjust.tenant, adjust.lines[0]);
    assert Lookup(db.levels, NOTHING, here) == None;
    assert {} + {here} == {here};
    assert Advance(run[1], 0) == run[2].txns[0];
    assert Advance(run[3], 1) == run[4].txns[1];
  }

  /** A call that finds no row puts nothing. */
  lemma LooksInVain(checks: bool, other: Request, l: Line, loc: Location)
    requires !other.kind.Adjust?
    ensures
      var d := Absorb(NOTHING, loc, RowStep(checks, other, l, None));
      d.aborted || d.failed != [] || d == NOTHING
  {
  }

  lemma OvertakenCommits(db: Tables, other: Request, adjust: Request)
    requires Overtaking(db, other, adjust)
    ensures
      var run := Overtaken(db, other, adjust);
      run[4].Shaped() && CanStep(run[4], 1) && StepOf(run[4], 1) == run[5]
  {
    hide RowStep;
    hide Absorb;
    hide Apply;
    hide DeltaOf;
    hide ReplayOf;
    hide IsDuplicate;
    OneLine(db, adjust);
  }

  lemma OvertakenFinishes(db: Tables, other: Request, adjust: Request)
    requires Overtaking(db, other, adjust)
    ensures
      var run := Overtaken(db, other, adjust);
      run[5].Shaped() && CanStep(run[5], 0) && StepOf(run[5], 0) == run[6]
  {
    hide RowStep;
    hide Absorb;
    hide Apply;
    hide DeltaOf;
    hide ReplayOf;
    hide IsDuplicate;
    OneLine(db, other);
    LooksInVain(db.checks, other, other.lines[0], Loc(other.tenant, other.lines[0]));
    assert [1] + [0] == [1, 0];
  }

  lemma OvertakenRuns(db: Tables, other: Request, adjust: Request)
    requires Overtaking(db, other, adjust)
    ensures IsRun(Overtaken(db, other, adjust))
  {
    hide StepOf;
    hide CanStep;
    hide OutcomeOf;
    hide RowStep;
    hide Absorb;
    hide Apply;
    var run := Overtaken(db, other, adjust);
    OvertakenStarts(db, other, adjust);
    OvertakenReads(db, other, adjust);
    OvertakenCommits(db, other, adjust);
    OvertakenFinishes(db, other, adjust);
    assert Moves(run[0], run[1]) && Moves(run[1], run[2]) && Moves(run[2], run[3]);
    assert Moves(run[3], run[4]) && Moves(run[4], run[5]) && Moves(run[5], run[6]);
  }

  /** Whatever the other call is, a run of the two has it finish last and be told what it would have been told had
      it come first. So the order they finished in explains its answer exactly when the new row makes no difference
      to that answer: the hypothesis of EveryRunIsSerial can be given up only for calls that would not notice. */
  lemma OvertakenExactlyWhen(db: Tables, other: Request, adjust: Request) returns (run: seq<System>)
    requires Overtaking(db, other, adjust)
    ensures IsRun(run) && run[0].db == db && run[|run| - 1].reqs == [other, adjust] && run[|run| - 1].log == [1, 0]
    ensures run[|run| - 1].Shaped() && run[|run| - 1].txns[0].phase == Finished(OutcomeOf(db, other))
    ensures Answered(run[|run| - 1], db, 1) <==> OutcomeOf(After(db, adjust), other) == OutcomeOf(db, other)
    ensures run[|run| - 1].db.levels == After(db, adjust).levels
  {
    hide OutcomeOf;
    hide RowStep;
    hide Absorb;
    run := Overtaken(db, other, adjust);
    OvertakenRuns(db, other, adjust);
    OneLine(db, adjust);
    var s := run[|run| - 1];
    assert s.log[..1] == [1] && [1][..0] == [];
    assert Serial(db, s.reqs, [1]) == After(db, adjust);
    assert s.db.levels == After(db, adjust).levels;
  }

  /** A release or an unlock always notices: it reports the row it moved, or fails on it. */
  lemma MissingRowIsNotSerial(db: Tables, other: Request, adjust: Request) returns (run: seq<System>)
    requires Overtaking(db, other, adjust) && (other.kind.Release? || other.kind.Unlock?)
    ensures IsRun(run) && run[0].db == db && run[|run| - 1].reqs == [other, adjust] && run[|run| - 1].log == [1, 0]
    ensures run[|run| - 1].Shaped() && !Answered(run[|run| - 1], db, 1)
  {
    run := OvertakenExactlyWhen(db, other, adjust);
    OneLine(db, other);
    OneLine(db, adjust);
    CreatesItsRow(db, adjust);
    ReportsItsRow(After(db, adjust), other);
    assert OutcomeOf(db, other) == Committed([]);
  }

  lemma CreatesItsRow(db: Tables, adjust: Request)
    requires |adjust.lines| == 1 && adjust.kind.Adjust? && OutcomeOf(db, adjust).Committed?
    requires Loc(adjust.tenant, adjust.lines[0]) !in db.levels
    ensures Loc(adjust.tenant, adjust.lines[0]) in After(db, adjust).levels
  {
    OneLine(db, adjust);
  }

  lemma ReportsItsRow(db: Tables, req: Request)
    requires |req.lines| == 1 && (req.kind.Release? || req.kind.Unlock?) && Loc(req.tenant, req.lines[0]) in db.levels
    ensures OutcomeOf(db, req) != Committed([])
  {
    var here := Loc(req.tenant, req.lines[0]);
    var e := RowStep(db.checks, req, req.lines[0], Some(db.levels[here]));
    assert DeltaAfter(db.checks, db.levels, req, 0) == NOTHING;
    assert DeltaOf(db, req) == Absorb(NOTHING, here, e);
    assert e.Put? ==> |e.results| == 1;
  }
}
