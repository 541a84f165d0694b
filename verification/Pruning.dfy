/** Retention of idempotency keys: a keyed call stays exactly-once for as long as its key is retained. */
module Pruning {
  import opened Base
  import opened StockLedger
  import opened Accounting

  const DEFAULT_RETENTION := 7 * 24 * 3600
  const DEFAULT_BATCH := 1000

  function Expired(keys: map<Key, int>, cutoff: int): set<Key> {
    set k | k in keys && keys[k] < cutoff
  }

  /** One batch: only expired keys go, the oldest first, as many as the batch allows. */
  ghost predicate PrunedTo(before: map<Key, int>, kept: map<Key, int>, cutoff: int, batch: nat) {
    && kept.Keys <= before.Keys
    && (forall k :: k in kept ==> kept[k] == before[k])
    && before.Keys - kept.Keys <= Expired(before, cutoff)
    && (forall r, e :: r in before && r !in kept && e in Expired(kept, cutoff) ==> before[r] <= before[e])
    && |before.Keys - kept.Keys| <= batch
    && (|before.Keys - kept.Keys| < batch ==> Expired(kept, cutoff) == {})
  }

  method OldestExpired(keys: map<Key, int>, cutoff: int) returns (oldest: Option<Key>)
    ensures oldest.None? ==> Expired(keys, cutoff) == {}
    ensures oldest.Some? ==> oldest.value in Expired(keys, cutoff)
                             && forall k :: k in Expired(keys, cutoff) ==> keys[oldest.value] <= keys[k]
  {
    oldest := None;
    var todo := keys.Keys;
    while todo != {}
      invariant todo <= keys.Keys
      invariant oldest.None? ==> forall k :: k in keys && k !in todo ==> keys[k] >= cutoff
      invariant oldest.Some? ==> oldest.value in Expired(keys, cutoff)
      invariant oldest.Some? ==> forall k :: k in Expired(keys, cutoff) && k !in todo ==> keys[oldest.value] <= keys[k]
      decreases todo
    {
      var k :| k in todo;
      todo := todo - {k};
      if keys[k] < cutoff && (oldest.None? || keys[k] < keys[oldest.value]) { oldest := Some(k); }
    }
  }

  /** DELETE ... ORDER BY created_at LIMIT batch. */
  method DeleteExpired(keys: map<Key, int>, cutoff: int, batch: nat) returns (kept: map<Key, int>, deleted: nat)
    ensures PrunedTo(keys, kept, cutoff, batch)
    ensures deleted == |keys.Keys - kept.Keys|
  {
    kept, deleted := keys, 0;
    assert keys.Keys - kept.Keys == {};
    while deleted < batch
      invariant deleted <= batch
      invariant deleted == |keys.Keys - kept.Keys|
      invariant kept.Keys <= keys.Keys
      invariant forall k :: k in kept ==> kept[k] == keys[k]
      invariant keys.Keys - kept.Keys <= Expired(keys, cutoff)
      invariant forall r, e :: r in keys && r !in kept && e in Expired(kept, cutoff) ==> keys[r] <= keys[e]
    {
      var oldest := OldestExpired(kept, cutoff);
      if oldest.None? { return; }
      ghost var was := kept;
      kept := kept - {oldest.value};
      assert keys.Keys - kept.Keys == (keys.Keys - was.Keys) + {oldest.value};
      deleted := deleted + 1;
    }
  }

  // ----- repeated passes -----

  /** What a pass removed of the keys expired by an earlier cutoff: all it removed, if any of them is left. */
  lemma OldestGoFirst(before: map<Key, int>, kept: map<Key, int>, now: int, batch: nat, cutoff: int)
    requires PrunedTo(before, kept, now, batch) && cutoff <= now
    ensures
      var removed := before.Keys - kept.Keys;
      && Expired(before, cutoff) == Expired(kept, cutoff) + removed * Expired(before, cutoff)
      && Expired(kept, cutoff) !! removed
      && (Expired(kept, cutoff) != {} ==> removed <= Expired(before, cutoff) && |removed| == batch)
  {
    var removed := before.Keys - kept.Keys;
    if Expired(kept, cutoff) != {} {
      var e :| e in Expired(kept, cutoff);
      assert e in Expired(kept, now);
      forall r | r in removed ensures r in Expired(before, cutoff) { assert before[r] <= before[e]; }
    }
  }

  /** A pass removes the whole of what had expired by any earlier cutoff or a full batch of it, and keeps every key
      that has not expired. */
  lemma PassShrinks(before: map<Key, int>, kept: map<Key, int>, now: int, batch: nat, cutoff: int)
    requires PrunedTo(before, kept, now, batch) && cutoff <= now
    ensures |Expired(kept, cutoff)| == if |Expired(before, cutoff)| <= batch then 0
                                        else |Expired(before, cutoff)| - batch
    ensures forall k :: k in before && before[k] >= now ==> k in kept
  {
    forall k | k in before && before[k] >= now ensures k in kept { assert k !in Expired(before, now); }
    var removed := before.Keys - kept.Keys;
    OldestGoFirst(before, kept, now, batch, cutoff);
    assert |removed| <= batch;
    if Expired(kept, cutoff) != {} {
      assert removed * Expired(before, cutoff) == removed;
    } else {
      assert Expired(before, cutoff) <= removed;
      Subset(Expired(before, cutoff), removed);
    }
  }

  lemma {:induction false} Subset<T>(a: set<T>, b: set<T>)
    requires a <= b
    ensures |a| <= |b|
  {
    assert b == a + (b - a);
  }

  /** A pass, with the keys it found, the cutoff of its moment and the keys it left. */
  datatype Pass = Pass(found: map<Key, int>, now: int, left: map<Key, int>)

  /** Calls record keys of their own time and redate none. */
  ghost predicate OnlyNewer(a: map<Key, int>, b: map<Key, int>, cutoff: int) {
    && (forall k :: k in a ==> k in b && b[k] == a[k])
    && (forall k :: k in b && k !in a ==> b[k] >= cutoff)
  }

  ghost predicate Passes(passes: seq<Pass>, cutoff: int, batch: nat) {
    && (forall i :: 0 <= i < |passes| ==>
          cutoff <= passes[i].now && PrunedTo(passes[i].found, passes[i].left, passes[i].now, batch))
    && (forall i, j :: 0 <= i && j == i + 1 && j < |passes| ==> OnlyNewer(passes[i].left, passes[j].found, cutoff))
  }

  /** Whatever calls record between them, passes from a moment on empty the set of keys expired at that moment after as
      many passes as batches it holds. */
  lemma {:induction false} PassesDrain(passes: seq<Pass>, cutoff: int, batch: nat)
    requires passes != [] && batch > 0 && Passes(passes, cutoff, batch)
    requires |Expired(passes[0].found, cutoff)| <= |passes| * batch
    ensures Expired(passes[|passes| - 1].left, cutoff) == {}
    decreases |passes|
  {
    hide PrunedTo;
    var first, rest := passes[0], passes[1..];
    PassShrinks(first.found, first.left, first.now, batch, cutoff);
    if rest != [] {
      assert OnlyNewer(passes[0].left, passes[1].found, cutoff);
      assert Expired(rest[0].found, cutoff) == Expired(first.left, cutoff);
      assert Passes(rest, cutoff, batch);
      assert |passes| * batch == |rest| * batch + batch;
      PassesDrain(rest, cutoff, batch);
    } else {
      assert |passes| * batch == batch;
    }
  }

  // ----- exactly once while the key is retained -----

  /** Something that happens to the stock database at a moment. */
  datatype Event = Event(now: int, op: Op)

  /** Calls record their own time; a prune pass removes only keys older than the retention. */
  ghost predicate Timed(db: Tables, e: Event, retention: int) {
    match e.op
    case Call(req) => req.at == e.now
    case ReconcilePass => true
    case PrunePass(removed) => removed <= Expired(db.keys, e.now - retention)
  }

  function OpsOf(events: seq<Event>): seq<Op> {
    seq(|events|, i requires 0 <= i < |events| => events[i].op)
  }

  ghost predicate TimedRun(db: Tables, events: seq<Event>, retention: int) {
    && (forall i, j :: 0 <= i < j < |events| ==> events[i].now <= events[j].now)
    && (forall i :: 0 <= i < |events| ==> Timed(Run(db, OpsOf(events[..i])), events[i], retention))
  }

  lemma RunOneMore(db: Tables, events: seq<Event>, i: nat)
    requires i < |events|
    ensures Run(db, OpsOf(events[..i + 1])) == Do(Run(db, OpsOf(events[..i])), events[i].op)
  {
    var ops := OpsOf(events[..i + 1]);
    assert ops[..i] == OpsOf(events[..i]);
    assert ops[i] == events[i].op;
  }

  /** One event neither forgets nor redates a key that is still retained. */
  lemma KeyOutlives(db: Tables, e: Event, retention: int, key: Key, since: int)
    requires Timed(db, e, retention)
    requires key.name != "" && key in db.keys && db.keys[key] >= since && e.now <= since + retention
    ensures key in Do(db, e.op).keys && Do(db, e.op).keys[key] >= since
  {
    hide DeltaOf;
    hide ReplayOf;
    hide Drifted;
  }

  lemma {:induction false} KeyStays(db: Tables, events: seq<Event>, retention: int, key: Key, since: int, p: nat,
                                    q: nat)
    requires TimedRun(db, events, retention) && p <= q <= |events| && key.name != ""
    requires key in Run(db, OpsOf(events[..p])).keys && Run(db, OpsOf(events[..p])).keys[key] >= since
    requires forall i :: p <= i < q ==> events[i].now <= since + retention
    ensures key in Run(db, OpsOf(events[..q])).keys
    ensures Run(db, OpsOf(events[..q])).keys[key] >= since
    decreases q
  {
    hide Do;
    hide OpsOf;
    hide Timed;
    if p < q {
      KeyStays(db, events, retention, key, since, p, q - 1);
      RunOneMore(db, events, q - 1);
      KeyOutlives(Run(db, OpsOf(events[..q - 1])), events[q - 1], retention, key, since);
    }
  }

  lemma RowsStay(db: Tables, op: Op)
    ensures db.levels.Keys <= Do(db, op).levels.Keys
  {
    hide DeltaOf;
    hide Drifted;
    hide EventLocations;
  }

  lemma {:induction false} RowsStayOn(db: Tables, events: seq<Event>, p: nat, q: nat)
    requires p <= q <= |events|
    ensures Run(db, OpsOf(events[..p])).levels.Keys <= Run(db, OpsOf(events[..q])).levels.Keys
    decreases q
  {
    hide Do;
    hide OpsOf;
    if p < q {
      RowsStayOn(db, events, p, q - 1);
      RunOneMore(db, events, q - 1);
      RowsStay(Run(db, OpsOf(events[..q - 1])), events[q - 1].op);
    }
  }

  lemma AdjustedRowIsThere(db: Tables, req: Request, l: Line)
    requires req.kind.Adjust? && req.lines == [l] && OutcomeOf(db, req).Committed?
    ensures Loc(req.tenant, l) in After(db, req).levels
  {
    hide After;
    OneLineCall(db, req, l);
  }

  /** A replay is told it succeeded; a replayed adjustment is told what its row holds now, and fails without a row. */
  predicate ToldOfReplay(db: Tables, req: Request, out: Outcome) {
    if req.kind.Reserve? && req.lines == [] then out == Invalid
    else if !req.kind.Adjust? then out == Duplicate([])
    else if |req.lines| != 1 then !out.Committed?
    else if Loc(req.tenant, req.lines[0]) !in db.levels then out == Internal
    else
      var row := db.levels[Loc(req.tenant, req.lines[0])];
      out == Duplicate([LevelNow(row, row.available == 0)])
  }

  lemma ReplayTells(db: Tables, req: Request)
    requires IsDuplicate(db, req)
    ensures ToldOfReplay(db, req, OutcomeOf(db, req)) && After(db, req) == db
  {
    hide DeltaOf;
  }

  /** Exactly once: once a keyed call has committed, every call under that key within the retention window, however
      many there are and whatever pruning, reconciliation and other calls come between, is told it is a replay
      and leaves every table as it was. An adjustment repeated in these circumstances always finds its row. */
  lemma ExactlyOnceWhileRetained(db: Tables, events: seq<Event>, retention: int, p: nat, q: nat)
    requires TimedRun(db, events, retention)
    requires p < q < |events| && events[p].op.Call? && events[q].op.Call?
    requires Commits(Run(db, OpsOf(events[..p])), events[p].op)
    requires events[p].op.req.key != ""
    requires events[q].op.req.tenant == events[p].op.req.tenant && events[q].op.req.key == events[p].op.req.key
    requires events[q].now <= events[p].now + retention
    ensures
      var now := Run(db, OpsOf(events[..q]));
      && !Commits(now, events[q].op)
      && Run(db, OpsOf(events[..q + 1])) == now
      && ToldOfReplay(now, events[q].op.req, OutcomeOf(now, events[q].op.req))
      && (events[p].op.req.kind.Adjust? && |events[p].op.req.lines| == 1
          && events[q].op.req.kind == events[p].op.req.kind && events[q].op.req.lines == events[p].op.req.lines ==>
            OutcomeOf(now, events[q].op.req).Duplicate?)
  {
    hide Run;
    hide OpsOf;
    hide DeltaOf;
    hide ReplayOf;
    hide OutcomeOf;
    var req, now := events[p].op.req, Run(db, OpsOf(events[..q]));
    var key := Key(req.tenant, req.key);
    assert Timed(Run(db, OpsOf(events[..p])), events[p], retention);
    RunOneMore(db, events, p);
    KeyStays(db, events, retention, key, events[p].now, p + 1, q);
    RunOneMore(db, events, q);
    ReplayTells(now, events[q].op.req);
    if req.kind.Adjust? && |req.lines| == 1 {
      AdjustedRowIsThere(Run(db, OpsOf(events[..p])), req, req.lines[0]);
      RowsStayOn(db, events, p + 1, q);
    }
  }
}
