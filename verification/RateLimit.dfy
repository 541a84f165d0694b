/**
 The gateway's per-tenant token bucket, its least-recently-used eviction, and the Retry-After header.
 Tokens are real numbers; times are nanoseconds on one monotone clock.
 */
module RateLimit {
  datatype Limits = Limits(rate: real, burst: real, max: int)

  datatype Bucket = Bucket(tokens: real, last: int)

  datatype Decision = Decision(allowed: bool, retryAfter: int)

  type Buckets = map<string, Bucket>

  const SECOND := 1_000_000_000

  predicate Limiting(l: Limits) {
    l.rate > 0.0 && l.burst > 0.0
  }

  // ----- one bucket -----

  /** Tokens earned over a span of nanoseconds. */
  function Earned(l: Limits, span: int): real {
    (span as real / 1000000000.0) * l.rate
  }

  function Refilled(l: Limits, b: Bucket, now: int): real {
    var t := b.tokens + Earned(l, now - b.last);
    if l.burst < t then l.burst else t
  }

  predicate Allows(l: Limits, b: Bucket, now: int) {
    Refilled(l, b, now) >= 1.0
  }

  function Drawn(l: Limits, b: Bucket, now: int): Bucket {
    Bucket(Refilled(l, b, now) - (if Allows(l, b, now) then 1.0 else 0.0), now)
  }

  /** How long until the next token, in whole nanoseconds. */
  function Wait(l: Limits, b: Bucket, now: int): int
    requires l.rate > 0.0
  {
    ((1.0 - Refilled(l, b, now)) / l.rate * 1000000000.0).Floor
  }

  // ----- eviction -----

  datatype Pick = Pick(key: string, last: int)

  /** The scan for the oldest bucket, the map being walked in the given order. The empty name doubles as
      "none yet". */
  function Scan(buckets: Buckets, order: seq<string>): Pick
    requires forall k :: k in order ==> k in buckets
  {
    if order == [] then Pick("", 0)
    else
      var k, before := order[|order| - 1], Scan(buckets, order[..|order| - 1]);
      if before.key == "" || buckets[k].last < before.last then Pick(k, buckets[k].last) else before
  }

  /** Every key, each once. */
  ghost predicate Walks(order: seq<string>, buckets: Buckets) {
    && (forall k :: k in buckets <==> k in order)
    && (forall i, j :: 0 <= i < j < |order| ==> order[i] != order[j])
  }

  predicate Full(l: Limits, buckets: Buckets) {
    l.max > 0 && |buckets| >= l.max
  }

  ghost function Evicted(l: Limits, buckets: Buckets, order: seq<string>): Buckets
    requires Walks(order, buckets)
  {
    var key := Scan(buckets, order).key;
    if Full(l, buckets) && key != "" then buckets - {key} else buckets
  }

  // ----- Take -----

  /** The buckets just before the tenant draws. */
  ghost function Opened(l: Limits, buckets: Buckets, tenant: string, now: int, order: seq<string>): Buckets
    requires Walks(order, buckets)
  {
    if tenant in buckets then buckets else Evicted(l, buckets, order)[tenant := Bucket(l.burst, now)]
  }

  ghost function AfterTake(l: Limits, buckets: Buckets, tenant: string, now: int, order: seq<string>): Buckets
    requires Walks(order, buckets)
  {
    if !Limiting(l) then buckets
    else
      var ready := Opened(l, buckets, tenant, now, order);
      ready[tenant := Drawn(l, ready[tenant], now)]
  }

  function Current(l: Limits, buckets: Buckets, tenant: string, now: int): Bucket {
    if tenant in buckets then buckets[tenant] else Bucket(l.burst, now)
  }

  predicate Admitted(l: Limits, buckets: Buckets, tenant: string, now: int) {
    !Limiting(l) || Allows(l, Current(l, buckets, tenant, now), now)
  }

  /** Refill for the time that has passed, then take a token if there is one. */
  method Draw(l: Limits, b: Bucket, now: int) returns (r: Bucket, d: Decision)
    requires l.rate > 0.0
    ensures r == Drawn(l, b, now)
    ensures d.allowed == Allows(l, b, now) && (!d.allowed ==> d.retryAfter == Wait(l, b, now))
  {
    var elapsed := (now - b.last) as real / 1000000000.0;
    var tokens := b.tokens + elapsed * l.rate;
    if l.burst < tokens { tokens := l.burst; }
    r := Bucket(tokens, now);
    if tokens < 1.0 {
      var needed := (1.0 - tokens) / l.rate;
      return r, Decision(false, (needed * 1000000000.0).Floor);
    }
    return r.(tokens := tokens - 1.0), Decision(true, 0);
  }

  class Limiter {
    const limits: Limits
    var buckets: Buckets

    constructor (limits: Limits)
      ensures this.limits == limits && buckets == map[]
    {
      this.limits := limits;
      buckets := map[];
    }

    method Take(tenant: string, now: int) returns (d: Decision, ghost order: seq<string>)
      modifies this
      ensures Walks(order, old(buckets))
      ensures buckets == AfterTake(limits, old(buckets), tenant, now, order)
      ensures d.allowed == Admitted(limits, old(buckets), tenant, now)
      ensures !d.allowed ==>
                Limiting(limits) && d.retryAfter == Wait(limits, Current(limits, old(buckets), tenant, now), now)
    {
      hide Refilled;
      hide Wait;
      if limits.rate <= 0.0 || limits.burst <= 0.0 {
        order := WalkOf(buckets);
        return Decision(true, 0), order;
      }
      if tenant !in buckets {
        order := Evict();
        buckets := buckets[tenant := Bucket(limits.burst, now)];
      } else {
        order := WalkOf(buckets);
      }
      var b;
      b, d := Draw(limits, buckets[tenant], now);
      buckets := buckets[tenant := b];
    }

    method Evict() returns (ghost order: seq<string>)
      modifies this
      ensures Walks(order, old(buckets))
      ensures buckets == Evicted(limits, old(buckets), order)
    {
      if limits.max <= 0 || |buckets| < limits.max {
        order := WalkOf(buckets);
        return;
      }
      var oldestKey, oldest := "", 0;
      var left := buckets.Keys;
      order := [];
      while left != {}
        invariant left <= buckets.Keys && buckets == old(buckets)
        invariant forall k :: k in buckets <==> k in left || k in order
        invariant forall k :: k in left ==> k !in order
        invariant forall i, j :: 0 <= i < j < |order| ==> order[i] != order[j]
        invariant Pick(oldestKey, oldest) == Scan(buckets, order)
        decreases left
      {
        var k :| k in left;
        if oldestKey == "" || buckets[k].last < oldest { oldestKey, oldest := k, buckets[k].last; }
        ghost var was := order;
        order := order + [k];
        assert order[..|order| - 1] == was;
        left := left - {k};
      }
      if oldestKey != "" { buckets := buckets - {oldestKey}; }
    }
  }

  /** Some order the map can be walked in. */
  ghost function WalkOf(buckets: Buckets): (order: seq<string>)
    ensures Walks(order, buckets)
  {
    WalkOfKeys(buckets.Keys)
  }

  ghost function WalkOfKeys(keys: set<string>): (order: seq<string>)
    ensures forall k :: k in keys <==> k in order
    ensures forall i, j :: 0 <= i < j < |order| ==> order[i] != order[j]
  {
    if keys == {} then []
    else
      var k :| k in keys;
      WalkOfKeys(keys - {k}) + [k]
  }

  // ----- what a bucket can hold -----

  lemma EarnedAdds(l: Limits, a: int, b: int)
    requires l.rate > 0.0
    ensures Earned(l, a) + Earned(l, b) == Earned(l, a + b)
    ensures a >= 0 ==> Earned(l, a) >= 0.0
  {
  }

  predicate Sane(l: Limits, b: Bucket, now: int) {
    0.0 <= b.tokens <= l.burst && b.last <= now
  }

  ghost predicate AllSane(l: Limits, buckets: Buckets, now: int) {
    forall k :: k in buckets ==> Sane(l, buckets[k], now)
  }

  /** Drawing keeps the bucket within its capacity, and what is drawn was there or was earned. */
  lemma DrawKeeps(l: Limits, b: Bucket, now: int)
    requires Limiting(l) && Sane(l, b, now)
    ensures Sane(l, Drawn(l, b, now), now)
    ensures Drawn(l, b, now).tokens + (if Allows(l, b, now) then 1.0 else 0.0) <= b.tokens + Earned(l, now - b.last)
  {
    hide Earned;
    EarnedAdds(l, now - b.last, 0);
  }

  // ----- runs of the limiter -----

  /** A Take, with the order its eviction scan walks the map in. */
  datatype Ask = Ask(tenant: string, now: int, order: seq<string>)

  ghost predicate IsRun(l: Limits, run: seq<Buckets>, asks: seq<Ask>) {
    && |run| == |asks| + 1
    && forall i: nat :: i < |asks| ==>
         Walks(asks[i].order, run[i]) && run[i + 1] == AfterTake(l, run[i], asks[i].tenant, asks[i].now, asks[i].order)
  }

  /** A monotone clock that starts no earlier than the buckets it finds. */
  ghost predicate Forward(l: Limits, run: seq<Buckets>, asks: seq<Ask>) {
    && (forall i, j :: 0 <= i < j < |asks| ==> asks[i].now <= asks[j].now)
    && (|run| > 0 && |asks| > 0 ==> AllSane(l, run[0], asks[0].now))
  }

  function Clock(asks: seq<Ask>, j: nat): int
    requires j <= |asks| && asks != []
  {
    if j == 0 then asks[0].now else asks[j - 1].now
  }

  lemma TakeKeepsSane(l: Limits, buckets: Buckets, a: Ask, now: int)
    requires Limiting(l) && AllSane(l, buckets, now) && now <= a.now && Walks(a.order, buckets)
    ensures AllSane(l, AfterTake(l, buckets, a.tenant, a.now, a.order), a.now)
  {
    hide Drawn;
    var ready := Opened(l, buckets, a.tenant, a.now, a.order);
    assert AllSane(l, ready, a.now);
    DrawKeeps(l, ready[a.tenant], a.now);
  }

  /** In every reachable state every bucket holds between nothing and the burst. */
  lemma {:induction false} TokensStayInRange(l: Limits, run: seq<Buckets>, asks: seq<Ask>, j: nat)
    requires Limiting(l) && IsRun(l, run, asks) && Forward(l, run, asks) && asks != [] && j < |run|
    ensures AllSane(l, run[j], Clock(asks, j))
  {
    if j > 0 {
      TokensStayInRange(l, run, asks, j - 1);
      TakeKeepsSane(l, run[j - 1], asks[j - 1], Clock(asks, j - 1));
    }
  }

  // ----- the rate bound -----

  /** Takes of the tenant that were let through among asks[i..j]. */
  ghost function LetThrough(l: Limits, run: seq<Buckets>, asks: seq<Ask>, tenant: string, i: nat, j: nat): nat
    requires i <= j <= |asks| < |run|
    decreases j
  {
    if j == i then 0
    else
      LetThrough(l, run, asks, tenant, i, j - 1)
      + (if asks[j - 1].tenant == tenant && Admitted(l, run[j - 1], tenant, asks[j - 1].now) then 1 else 0)
  }

  /** Times the tenant's bucket was dropped in that stretch, each worth a full bucket to it. */
  ghost function Windfall(l: Limits, run: seq<Buckets>, tenant: string, i: nat, j: nat): real
    requires i <= j < |run|
    decreases j
  {
    if j == i then 0.0
    else Windfall(l, run, tenant, i, j - 1) + (if tenant in run[j - 1] && tenant !in run[j] then l.burst else 0.0)
  }

  /** What the tenant could draw at once. */
  function Standing(l: Limits, buckets: Buckets, tenant: string, now: int): real {
    Refilled(l, Current(l, buckets, tenant, now), now)
  }

  lemma StandingGrows(l: Limits, buckets: Buckets, tenant: string, now: int, later: int)
    requires Limiting(l) && AllSane(l, buckets, now) && now <= later
    ensures 0.0 <= Standing(l, buckets, tenant, now) <= l.burst
    ensures Standing(l, buckets, tenant, now) <= Standing(l, buckets, tenant, later)
    ensures Standing(l, buckets, tenant, later) <= Standing(l, buckets, tenant, now) + Earned(l, later - now)
  {
    hide Earned;
    EarnedAdds(l, 0, 0);
    EarnedAdds(l, later - now, 0);
    if tenant in buckets {
      var last := buckets[tenant].last;
      EarnedAdds(l, now - last, later - now);
    }
  }

  /** One Take, seen by one tenant. */
  lemma TakeSpends(l: Limits, buckets: Buckets, a: Ask, tenant: string)
    requires Limiting(l) && AllSane(l, buckets, a.now) && Walks(a.order, buckets)
    ensures
      var buckets' := AfterTake(l, buckets, a.tenant, a.now, a.order);
      Standing(l, buckets', tenant, a.now)
      + (if a.tenant == tenant && Admitted(l, buckets, tenant, a.now) then 1.0 else 0.0)
      <= Standing(l, buckets, tenant, a.now) + (if tenant in buckets && tenant !in buckets' then l.burst else 0.0)
  {
    hide Earned;
    StandingGrows(l, buckets, tenant, a.now, a.now);
    EarnedAdds(l, 0, 0);
    if a.tenant == tenant {
      var b := Current(l, buckets, tenant, a.now);
      assert AfterTake(l, buckets, a.tenant, a.now, a.order)[tenant] == Drawn(l, b, a.now);
    }
  }

  lemma {:induction false} SpendingIsCovered(l: Limits, run: seq<Buckets>, asks: seq<Ask>, tenant: string, i: nat,
                                             j: nat)
    requires Limiting(l) && IsRun(l, run, asks) && Forward(l, run, asks) && i < |asks| && i <= j <= |asks|
    ensures
      var from, to := asks[i].now, if j == i then asks[i].now else asks[j - 1].now;
      LetThrough(l, run, asks, tenant, i, j) as real + Standing(l, run[j], tenant, to)
      <= l.burst + Earned(l, to - from) + Windfall(l, run, tenant, i, j)
    decreases j
  {
    hide Earned;
    hide Standing;
    hide AfterTake;
    hide Admitted;
    TokensStayInRange(l, run, asks, i);
    if j == i {
      StandingGrows(l, run[i], tenant, asks[i].now, asks[i].now);
      EarnedAdds(l, 0, 0);
    } else {
      var now, later := if j - 1 == i then asks[i].now else asks[j - 2].now, asks[j - 1].now;
      SpendingIsCovered(l, run, asks, tenant, i, j - 1);
      TokensStayInRange(l, run, asks, j - 1);
      assert AllSane(l, run[j - 1], now);
      StandingGrows(l, run[j - 1], tenant, now, later);
      TakeSpends(l, run[j - 1], asks[j - 1], tenant);
      EarnedAdds(l, now - asks[i].now, later - now);
    }
  }

  /** In any window of a run a tenant gets through at most the burst plus the rate times the length of the
      window, plus one burst for each time its own bucket was evicted inside it. */
  lemma RateBound(l: Limits, run: seq<Buckets>, asks: seq<Ask>, tenant: string, i: nat, j: nat)
    requires Limiting(l) && IsRun(l, run, asks) && Forward(l, run, asks) && i < j <= |asks|
    ensures LetThrough(l, run, asks, tenant, i, j) as real
         <= l.burst + Earned(l, asks[j - 1].now - asks[i].now) + Windfall(l, run, tenant, i, j)
    ensures (forall m: nat :: i <= m < j && tenant in run[m] ==> tenant in run[m + 1]) ==>
              Windfall(l, run, tenant, i, j) == 0.0
  {
    hide Earned;
    hide Standing;
    hide AfterTake;
    hide Admitted;
    hide Sane;
    SpendingIsCovered(l, run, asks, tenant, i, j);
    TokensStayInRange(l, run, asks, j);
    StandingGrows(l, run[j], tenant, asks[j - 1].now, asks[j - 1].now);
    if forall m: nat :: i <= m < j && tenant in run[m] ==> tenant in run[m + 1] { NoWindfall(l, run, tenant, i, j); }
  }

  lemma {:induction false} NoWindfall(l: Limits, run: seq<Buckets>, tenant: string, i: nat, j: nat)
    requires i <= j < |run| && forall m: nat :: i <= m < j && tenant in run[m] ==> tenant in run[m + 1]
    ensures Windfall(l, run, tenant, i, j) == 0.0
    decreases j
  {
    if j > i {
      NoWindfall(l, run, tenant, i, j - 1);
      assert tenant in run[j - 1] ==> tenant in run[(j - 1) + 1];
    }
  }

  // ----- what a tenant is entitled to -----

  function Lesser(a: real, b: real): real {
    if a < b then a else b
  }

  /** A request of a tenant without a bucket is let through exactly when the burst holds a token. */
  lemma FirstRequest(l: Limits, buckets: Buckets, tenant: string, now: int)
    requires tenant !in buckets
    ensures Admitted(l, buckets, tenant, now) <==> !Limiting(l) || l.burst >= 1.0
  {
  }

  lemma RefilledLater(l: Limits, b: Bucket, now: int, later: int)
    requires Limiting(l) && Sane(l, b, now) && now <= later
    ensures Refilled(l, b, later) == Lesser(l.burst, Refilled(l, b, now) + Earned(l, later - now))
    ensures
      var drawn := if Allows(l, b, now) then 1.0 else 0.0;
      Refilled(l, Drawn(l, b, now), later) == Lesser(l.burst, Refilled(l, b, now) - drawn + Earned(l, later - now))
  {
    hide Earned;
    EarnedAdds(l, later - now, 0);
    EarnedAdds(l, now - b.last, later - now);
  }

  /** What one Take makes of a tenant's bucket, if it is not dropped. */
  lemma TakeTouches(l: Limits, buckets: Buckets, a: Ask, tenant: string)
    requires Limiting(l) && Walks(a.order, buckets)
    requires tenant in buckets ==> tenant in AfterTake(l, buckets, a.tenant, a.now, a.order)
    ensures
      var buckets' := AfterTake(l, buckets, a.tenant, a.now, a.order);
      if a.tenant == tenant
      then tenant in buckets' && buckets'[tenant] == Drawn(l, Current(l, buckets, tenant, a.now), a.now)
      else if tenant in buckets then tenant in buckets' && buckets'[tenant] == buckets[tenant]
      else tenant !in buckets'
  {
    hide Drawn;
    hide Scan;
  }

  /** One Take and the time up to the next, seen by one tenant whose bucket is not dropped: what it could draw is what
      it could draw before, less what it drew, plus what it earned, and at most the burst. */
  lemma StandingGoesOn(l: Limits, buckets: Buckets, a: Ask, tenant: string, later: int)
    requires Limiting(l) && AllSane(l, buckets, a.now) && Walks(a.order, buckets) && a.now <= later
    requires tenant in buckets ==> tenant in AfterTake(l, buckets, a.tenant, a.now, a.order)
    ensures
      var drawn := if a.tenant == tenant && Admitted(l, buckets, tenant, a.now) then 1.0 else 0.0;
      Standing(l, AfterTake(l, buckets, a.tenant, a.now, a.order), tenant, later)
      == Lesser(l.burst, Standing(l, buckets, tenant, a.now) - drawn + Earned(l, later - a.now))
  {
    hide Earned;
    hide AfterTake;
    hide Refilled;
    hide Drawn;
    TakeTouches(l, buckets, a, tenant);
    RefilledLater(l, Current(l, buckets, tenant, a.now), a.now, later);
    if a.tenant != tenant && tenant !in buckets {
      FullAtFirst(l, buckets, tenant, a.now);
      FullAtFirst(l, AfterTake(l, buckets, a.tenant, a.now, a.order), tenant, later);
      EarnedAdds(l, later - a.now, 0);
    }
  }

  /** The window of asks from i up to j leaves room for one more: what was let through in it and one more stays within
      the burst and what the window earns. */
  ghost predicate HasRoom(l: Limits, run: seq<Buckets>, asks: seq<Ask>, tenant: string, i: nat, j: nat)
    requires i <= j < |asks| < |run|
  {
    LetThrough(l, run, asks, tenant, i, j) as real + 1.0 <= l.burst + Earned(l, asks[j].now - asks[i].now)
  }

  /** What the tenant can draw at ask j is the least that any window since its bucket was opened leaves it. */
  lemma {:induction false} StandingIsTheTightestWindow(l: Limits, run: seq<Buckets>, asks: seq<Ask>, tenant: string,
                                                       o: nat, j: nat) returns (w: nat)
    requires Limiting(l) && IsRun(l, run, asks) && Forward(l, run, asks) && o <= j < |asks| && tenant !in run[o]
    requires forall m: nat :: o <= m < j && tenant in run[m] ==> tenant in run[m + 1]
    ensures o <= w <= j
    ensures Standing(l, run[j], tenant, asks[j].now)
         == l.burst + Earned(l, asks[j].now - asks[w].now) - LetThrough(l, run, asks, tenant, w, j) as real
    ensures forall i :: o <= i <= j ==>
              Standing(l, run[j], tenant, asks[j].now)
              <= l.burst + Earned(l, asks[j].now - asks[i].now) - LetThrough(l, run, asks, tenant, i, j) as real
    decreases j
  {
    hide Earned;
    hide Standing;
    hide AfterTake;
    hide Admitted;
    hide Sane;
    EarnedAdds(l, 0, 0);
    if j == o {
      FullAtFirst(l, run[o], tenant, asks[o].now);
      w := o;
    } else {
      w := StandingIsTheTightestWindow(l, run, asks, tenant, o, j - 1);
      TokensStayInRange(l, run, asks, j - 1);
      SaneLater(l, run[j - 1], Clock(asks, j - 1), asks[j - 1].now);
      assert tenant in run[j - 1] ==> tenant in run[(j - 1) + 1];
      StandingGoesOn(l, run[j - 1], asks[j - 1], tenant, asks[j].now);
      forall i | o <= i < j
        ensures Earned(l, asks[j].now - asks[i].now)
             == Earned(l, asks[j - 1].now - asks[i].now) + Earned(l, asks[j].now - asks[j - 1].now)
      {
        EarnedAdds(l, asks[j - 1].now - asks[i].now, asks[j].now - asks[j - 1].now);
      }
      if Standing(l, run[j], tenant, asks[j].now) == l.burst { w := j; }
    }
  }

  lemma FullAtFirst(l: Limits, buckets: Buckets, tenant: string, now: int)
    requires Limiting(l) && tenant !in buckets
    ensures Standing(l, buckets, tenant, now) == l.burst
  {
  }

  lemma SaneLater(l: Limits, buckets: Buckets, now: int, later: int)
    requires AllSane(l, buckets, now) && now <= later
    ensures AllSane(l, buckets, later)
  {
  }

  /** The limiter is neither too generous nor too strict: as long as the tenant's bucket is kept, a request is let
      through exactly when every window since the bucket was opened has room for one more. */
  lemma AdmittedExactlyWhen(l: Limits, run: seq<Buckets>, asks: seq<Ask>, tenant: string, o: nat, j: nat)
    requires Limiting(l) && IsRun(l, run, asks) && Forward(l, run, asks) && o <= j < |asks| && tenant !in run[o]
    requires forall m: nat :: o <= m < j && tenant in run[m] ==> tenant in run[m + 1]
    ensures Admitted(l, run[j], tenant, asks[j].now)
            <==> forall i :: o <= i <= j ==> HasRoom(l, run, asks, tenant, i, j)
  {
    hide Earned;
    hide Refilled;
    hide AfterTake;
    var w := StandingIsTheTightestWindow(l, run, asks, tenant, o, j);
    assert Admitted(l, run[j], tenant, asks[j].now) <==> Standing(l, run[j], tenant, asks[j].now) >= 1.0;
    if forall i :: o <= i <= j ==> HasRoom(l, run, asks, tenant, i, j) {
      assert HasRoom(l, run, asks, tenant, w, j);
    }
  }

  lemma {:induction false} LetThroughShrinks(l: Limits, run: seq<Buckets>, asks: seq<Ask>, tenant: string, o: nat,
                                             i: nat, j: nat)
    requires o <= i <= j <= |asks| < |run|
    ensures LetThrough(l, run, asks, tenant, i, j) <= LetThrough(l, run, asks, tenant, o, j)
    decreases j
  {
    if i < j { LetThroughShrinks(l, run, asks, tenant, o, i, j - 1); }
  }

  lemma OwnBucketStays(l: Limits, buckets: Buckets, a: Ask)
    requires Limiting(l) && Walks(a.order, buckets)
    ensures a.tenant in AfterTake(l, buckets, a.tenant, a.now, a.order)
  {
  }

  /** A tenant that turns up and asks n times at one moment is let through as often as the burst has whole tokens, or
      every time if it asks less often. */
  lemma {:induction false} BurstAtOnce(l: Limits, run: seq<Buckets>, asks: seq<Ask>, tenant: string, o: nat, n: nat)
    requires Limiting(l) && IsRun(l, run, asks) && Forward(l, run, asks) && o + n <= |asks| && tenant !in run[o]
    requires forall i :: o <= i < o + n ==> asks[i].tenant == tenant && asks[i].now == asks[o].now
    ensures LetThrough(l, run, asks, tenant, o, o + n) == if n <= l.burst.Floor then n else l.burst.Floor
  {
    hide AfterTake;
    hide Admitted;
    if n > 0 {
      var j := o + n - 1;
      BurstAtOnce(l, run, asks, tenant, o, n - 1);
      forall m: nat | o <= m < j ensures tenant in run[m] ==> tenant in run[m + 1] {
        OwnBucketStays(l, run[m], asks[m]);
      }
      AdmittedExactlyWhen(l, run, asks, tenant, o, j);
      forall i | o <= i <= j
        ensures HasRoom(l, run, asks, tenant, i, j)
                <==> LetThrough(l, run, asks, tenant, i, j) as real + 1.0 <= l.burst
        ensures LetThrough(l, run, asks, tenant, i, j) <= LetThrough(l, run, asks, tenant, o, j)
      {
        LetThroughShrinks(l, run, asks, tenant, o, i, j);
        assert asks[i].now == asks[o].now && asks[j].now == asks[o].now;
        NothingEarned(l);
      }
      assert HasRoom(l, run, asks, tenant, o, j) <==> Admitted(l, run[j], tenant, asks[j].now);
    }
  }

  lemma NothingEarned(l: Limits)
    ensures Earned(l, 0) == 0.0
  {
  }

  // ----- eviction -----

  /** Whatever order the map is walked in, the scan stops at a least recently used bucket. */
  lemma {:induction false} ScanFindsOldest(buckets: Buckets, order: seq<string>)
    requires (forall k :: k in order ==> k in buckets) && "" !in order && order != []
    ensures
      var p := Scan(buckets, order);
      && p.key in order && p.last == buckets[p.key].last
      && forall k :: k in order ==> p.last <= buckets[k].last
  {
    if |order| > 1 { ScanFindsOldest(buckets, order[..|order| - 1]); }
  }

  /** A full limiter without an empty-named tenant drops exactly one bucket, and it is a least recently used one. */
  lemma EvictsLeastRecent(l: Limits, buckets: Buckets, order: seq<string>)
    requires Walks(order, buckets) && "" !in buckets && Full(l, buckets)
    ensures
      var key := Scan(buckets, order).key;
      && key in buckets && Evicted(l, buckets, order) == buckets - {key}
      && forall k :: k in buckets ==> buckets[key].last <= buckets[k].last
  {
    if order == [] { NoKeys(buckets); }
    ScanFindsOldest(buckets, order);
  }

  lemma NoKeys(buckets: Buckets)
    requires forall k :: k !in buckets
    ensures |buckets| == 0
  {
    assert buckets == map[];
  }

  lemma OneLess(buckets: Buckets, key: string)
    requires key in buckets
    ensures |buckets - {key}| == |buckets| - 1
  {
    assert (buckets - {key}).Keys == buckets.Keys - {key};
    assert |buckets.Keys| == |buckets| && |(buckets - {key}).Keys| == |buckets - {key}|;
  }

  lemma OneMore(buckets: Buckets, key: string, b: Bucket)
    ensures |buckets[key := b]| == |buckets| + if key in buckets then 0 else 1
  {
    assert buckets[key := b].Keys == buckets.Keys + {key};
    assert |buckets[key := b].Keys| == |buckets[key := b]| && |buckets.Keys| == |buckets|;
  }

  lemma TakeKeepsFloor(l: Limits, buckets: Buckets, a: Ask)
    requires l.max > 0 && |buckets| <= l.max && "" !in buckets && a.tenant != "" && Walks(a.order, buckets)
    ensures
      var buckets' := AfterTake(l, buckets, a.tenant, a.now, a.order);
      |buckets'| <= l.max && "" !in buckets'
  {
    hide Drawn;
    if Limiting(l) {
      var ready := Opened(l, buckets, a.tenant, a.now, a.order);
      if a.tenant !in buckets {
        if Full(l, buckets) {
          EvictsLeastRecent(l, buckets, a.order);
          OneLess(buckets, Scan(buckets, a.order).key);
        }
        OneMore(Evicted(l, buckets, a.order), a.tenant, Bucket(l.burst, a.now));
      }
      OneMore(ready, a.tenant, Drawn(l, ready[a.tenant], a.now));
    }
  }

  /** With the floor set and no empty-named tenant, the live buckets never outnumber it. */
  lemma {:induction false} BucketsStayBounded(l: Limits, run: seq<Buckets>, asks: seq<Ask>, j: nat)
    requires IsRun(l, run, asks) && j < |run| && l.max > 0 && run[0] == map[]
    requires forall i :: 0 <= i < |asks| ==> asks[i].tenant != ""
    ensures |run[j]| <= l.max && "" !in run[j]
  {
    if j > 0 {
      BucketsStayBounded(l, run, asks, j - 1);
      TakeKeepsFloor(l, run[j - 1], asks[j - 1]);
    }
  }

  // ----- the empty name -----

  /** The empty-named bucket is strictly older than every other bucket walked. */
  predicate EmptyIsOldest(buckets: Buckets, order: seq<string>)
    requires forall k :: k in order ==> k in buckets
  {
    "" in order && forall k :: k in order && k != "" ==> buckets[""].last < buckets[k].last
  }

  predicate NoRepeats(order: seq<string>) {
    forall i, j :: 0 <= i < j < |order| ==> order[i] != order[j]
  }

  /** The pick is a bucket among those walked, and none of them is older. */
  predicate OldestOf(buckets: Buckets, order: seq<string>, p: Pick)
    requires forall k :: k in order ==> k in buckets
  {
    && p.key != "" && p.key in order && p.last == buckets[p.key].last
    && forall k :: k in order ==> p.last <= buckets[k].last
  }

  /** A bucket that is the oldest so far and is left out of the pick stays out until something as old turns up. */
  lemma {:induction false} EmptyShadows(buckets: Buckets, order: seq<string>, i: nat)
    requires (forall k :: k in order ==> k in buckets) && NoRepeats(order) && i < |order| && order[i] == ""
    requires EmptyIsOldest(buckets, order)
    ensures
      if i == |order| - 1 then Scan(buckets, order).key == ""
      else OldestOf(buckets, order[i + 1..], Scan(buckets, order))
    decreases |order|
  {
    var n := |order| - 1;
    var front, k := order[..n], order[n];
    if i == n {
      if front != [] {
        assert "" !in front;
        ScanFindsOldest(buckets, front);
      }
    } else {
      assert front[i] == "" && k != "";
      EmptyShadows(buckets, front, i);
      var later := front[i + 1..];
      assert order[i + 1..] == later + [k];
    }
  }

  /** One more bucket, compared with the oldest so far. */
  lemma OldestSoFar(buckets: Buckets, front: seq<string>, k: string)
    requires (forall j :: j in front ==> j in buckets) && k in buckets && k != ""
    requires OldestOf(buckets, front, Scan(buckets, front))
    ensures OldestOf(buckets, front + [k], Scan(buckets, front + [k]))
  {
    assert (front + [k])[..|front|] == front;
  }

  /** A bucket at least as old as an empty-named one that is the oldest so far is the oldest. */
  lemma AsOldAsEmpty(buckets: Buckets, front: seq<string>, k: string, i: nat)
    requires (forall j :: j in front ==> j in buckets) && k in buckets && k != "" && NoRepeats(front)
    requires i < |front| && front[i] == "" && EmptyIsOldest(buckets, front) && buckets[k].last <= buckets[""].last
    ensures OldestOf(buckets, front + [k], Scan(buckets, front + [k]))
  {
    assert (front + [k])[..|front|] == front;
    EmptyShadows(buckets, front, i);
    assert forall j :: j in front[i + 1..] ==> j in front && j != "";
  }

  /** If some other bucket is at least as old as the empty-named one, the name makes no difference. */
  lemma {:induction false} EmptyIgnored(buckets: Buckets, order: seq<string>, i: nat)
    requires (forall k :: k in order ==> k in buckets) && NoRepeats(order) && i < |order| && order[i] == ""
    requires !EmptyIsOldest(buckets, order)
    ensures OldestOf(buckets, order, Scan(buckets, order))
    decreases |order|
  {
    var n := |order| - 1;
    var front, k := order[..n], order[n];
    assert order == front + [k];
    if i == n {
      assert "" !in front;
      ScanFindsOldest(buckets, front);
    } else {
      assert front[i] == "" && k != "";
      if EmptyIsOldest(buckets, front) {
        assert buckets[k].last <= buckets[""].last;
        AsOldAsEmpty(buckets, front, k, i);
      } else {
        EmptyIgnored(buckets, front, i);
        OldestSoFar(buckets, front, k);
      }
    }
  }

  /** A full limiter drops nothing if and only if the empty-named bucket is strictly the oldest and is walked last.
      Otherwise it drops exactly one bucket, and that is a least recently used one if and only if the empty-named
      bucket, if there is one, is not strictly the oldest. When it is, and others are walked after it, the oldest of
      those goes. */
  lemma EvictsExactlyWhen(l: Limits, buckets: Buckets, order: seq<string>)
    requires Walks(order, buckets) && Full(l, buckets)
    ensures order != []
    ensures
      var key := Scan(buckets, order).key;
      && (Evicted(l, buckets, order) == buckets <==> EmptyIsOldest(buckets, order) && order[|order| - 1] == "")
      && (Evicted(l, buckets, order) != buckets ==> key in buckets && Evicted(l, buckets, order) == buckets - {key})
      && (OldestOf(buckets, order, Scan(buckets, order)) <==> !EmptyIsOldest(buckets, order))
      && forall i :: 0 <= i < |order| - 1 && order[i] == "" && EmptyIsOldest(buckets, order) ==>
           OldestOf(buckets, order[i + 1..], Scan(buckets, order))
  {
    if order == [] { NoKeys(buckets); }
    var key := Scan(buckets, order).key;
    forall i | 0 <= i < |order| && order[i] == ""
      ensures
        if !EmptyIsOldest(buckets, order) then OldestOf(buckets, order, Scan(buckets, order))
        else if i == |order| - 1 then key == ""
        else OldestOf(buckets, order[i + 1..], Scan(buckets, order))
    {
      if EmptyIsOldest(buckets, order) { EmptyShadows(buckets, order, i); } else { EmptyIgnored(buckets, order, i); }
    }
    if "" !in order { ScanFindsOldest(buckets, order); }
    assert key != "" ==> key in buckets && key !in Evicted(l, buckets, order);
  }

  /** So the empty name breaks the bound: visited last and older than the rest, it shadows the scan's answer, nothing
      is dropped, and the new tenant makes one bucket too many. */
  lemma EmptyNameIsNeverDropped(l: Limits, buckets: Buckets, order: seq<string>, tenant: string, now: int)
    requires Limiting(l) && Full(l, buckets) && Walks(order, buckets) && tenant !in buckets
    ensures |AfterTake(l, buckets, tenant, now, order)| == |buckets| + 1
       <==> EmptyIsOldest(buckets, order) && order[|order| - 1] == ""
  {
    hide Drawn;
    EvictsExactlyWhen(l, buckets, order);
    var left := Evicted(l, buckets, order);
    if left != buckets { OneLess(buckets, Scan(buckets, order).key); }
    OneMore(left, tenant, Bucket(l.burst, now));
    var ready := left[tenant := Bucket(l.burst, now)];
    OneMore(ready, tenant, Drawn(l, ready[tenant], now));
  }

  // ----- Retry-After -----

  /** The whole seconds the gateway puts in the header: the wait in seconds, cut down to an integer, plus one. */
  function HeaderSeconds(retryAfter: int): int {
    retryAfter / SECOND + 1
  }

  /** The wait fits in the signed 64-bit nanosecond count it is converted to. */
  predicate Representable(l: Limits, b: Bucket, now: int)
    requires l.rate > 0.0
  {
    Wait(l, b, now) < 0x8000_0000_0000_0000
  }

  lemma Scaled(x: real, y: real, rate: real)
    requires rate > 0.0
    ensures x < y ==> x * rate < y * rate
    ensures x / rate * rate == x
    ensures x > 0.0 ==> x / rate > 0.0
  {
    var q := x / rate;
    assert q * rate == x;
    assert q <= 0.0 ==> q * rate <= 0.0;
  }

  /** A span earns a shortfall exactly when it is at least the shortfall over the rate. */
  lemma EarnsBack(l: Limits, short: real, span: int)
    requires l.rate > 0.0
    ensures Earned(l, span) >= short <==> span as real >= short / l.rate * 1000000000.0
    ensures Earned(l, span) == short <==> span as real == short / l.rate * 1000000000.0
  {
    var need, have := short / l.rate, span as real / 1000000000.0;
    Scaled(short, 0.0, l.rate);
    Scaled(need, have, l.rate);
    Scaled(have, need, l.rate);
  }

  /** Two truncations and one added second: never short of the exact wait, never more than a second over it. */
  lemma HeaderCovers(exact: real)
    requires exact >= 0.0
    ensures
      var secs := HeaderSeconds(exact.Floor);
      secs >= 1 && exact < (secs * SECOND) as real && ((secs - 1) * SECOND) as real <= exact
  {
    var w := exact.Floor;
    assert w >= 0 && w as real <= exact < w as real + 1.0;
    assert w / SECOND * SECOND <= w < w / SECOND * SECOND + SECOND;
  }

  /** A tenant that waits as long as it was told is let through, exactly when its bucket can hold a token at all.
      Asking a whole second earlier then succeeds only when the wait was a whole number of seconds. */
  lemma RetryAfterSuffices(l: Limits, b: Bucket, now: int, later: int)
    requires Limiting(l) && Sane(l, b, now) && !Allows(l, b, now) && Representable(l, b, now)
    ensures
      var denied, secs := Drawn(l, b, now), HeaderSeconds(Wait(l, b, now));
      && secs >= 1
      && (later >= now + secs * SECOND ==> (Allows(l, denied, later) <==> l.burst >= 1.0))
      && (l.burst >= 1.0 ==>
            (Allows(l, denied, now + (secs - 1) * SECOND) <==> (1.0 - denied.tokens) / l.rate == (secs - 1) as real))
  {
    hide Earned;
    var denied, secs := Drawn(l, b, now), HeaderSeconds(Wait(l, b, now));
    var short := 1.0 - denied.tokens;
    var exact := short / l.rate * 1000000000.0;
    Scaled(short, 0.0, l.rate);
    HeaderCovers(exact);
    EarnsBack(l, short, later - now);
    EarnsBack(l, short, (secs - 1) * SECOND);
    assert Wait(l, b, now) == exact.Floor;
    if later >= now + secs * SECOND {
      assert (later - now) as real >= (secs * SECOND) as real;
    }
  }

  /** The gateway's admission: a refused request gets 429 and the header. */
  method Admit(limiter: Limiter, tenant: string, now: int) returns (ok: bool, retryAfter: int, ghost order: seq<string>)
    modifies limiter
    ensures Walks(order, old(limiter.buckets))
    ensures limiter.buckets == AfterTake(limiter.limits, old(limiter.buckets), tenant, now, order)
    ensures ok == Admitted(limiter.limits, old(limiter.buckets), tenant, now)
    ensures !ok ==>
      && Limiting(limiter.limits)
      && retryAfter
         == HeaderSeconds(Wait(limiter.limits, Current(limiter.limits, old(limiter.buckets), tenant, now), now))
  {
    var d;
    d, order := limiter.Take(tenant, now);
    ok, retryAfter := d.allowed, 0;
    if !ok { retryAfter := d.retryAfter / SECOND + 1; }
  }
}
