/**
 The fail-fast circuit breaker, and what its state says about the calls it has seen.
 Times are nanoseconds on one monotone clock.
 */
module Breaker {
  datatype Mode = Closed | Open | HalfOpen

  datatype Config = Config(threshold: int, cooldown: int)

  const DEFAULT_THRESHOLD := 5
  const DEFAULT_COOLDOWN := 10_000_000_000

  function WithDefaults(c: Config): Config {
    Config(if c.threshold <= 0 then DEFAULT_THRESHOLD else c.threshold,
           if c.cooldown <= 0 then DEFAULT_COOLDOWN else c.cooldown)
  }

  datatype Fuse = Fuse(mode: Mode, failures: nat, openedAt: int)

  datatype Call = Ask(now: int) | Worked | Broke(now: int)

  predicate Admits(cfg: Config, f: Fuse, now: int) {
    f.mode != Open || now - f.openedAt >= cfg.cooldown
  }

  function AfterCall(cfg: Config, f: Fuse, call: Call): Fuse {
    match call
    case Ask(now) => if f.mode == Open && Admits(cfg, f, now) then f.(mode := HalfOpen) else f
    case Worked => f.(mode := Closed, failures := 0)
    case Broke(now) =>
      if f.mode == HalfOpen then f.(mode := Open, openedAt := now)
      else if f.mode == Closed then
        if f.failures + 1 >= cfg.threshold then Fuse(Open, f.failures + 1, now) else f.(failures := f.failures + 1)
      else f
  }

  function AfterCalls(cfg: Config, f: Fuse, calls: seq<Call>): Fuse {
    if calls == [] then f else AfterCall(cfg, AfterCalls(cfg, f, calls[..|calls| - 1]), calls[|calls| - 1])
  }

  const NEW_FUSE := Fuse(Closed, 0, 0)

  class CircuitBreaker {
    const cfg: Config
    var mode: Mode
    var failures: nat
    var openedAt: int

    constructor (cfg: Config)
      ensures this.cfg == WithDefaults(cfg) && State() == NEW_FUSE
    {
      this.cfg := WithDefaults(cfg);
      mode, failures, openedAt := Closed, 0, 0;
    }

    function State(): Fuse
      reads this
    {
      Fuse(mode, failures, openedAt)
    }

    method Allow(now: int) returns (ok: bool)
      modifies this
      ensures ok == Admits(cfg, old(State()), now)
      ensures State() == AfterCall(cfg, old(State()), Ask(now))
    {
      match mode
      case Closed => ok := true;
      case Open =>
        if now - openedAt >= cfg.cooldown {
          mode := HalfOpen;
          return true;
        }
        ok := false;
      case HalfOpen => ok := true;
    }

    method RecordSuccess()
      modifies this
      ensures State() == AfterCall(cfg, old(State()), Worked)
    {
      mode := Closed;
      failures := 0;
    }

    method RecordFailure(now: int)
      modifies this
      ensures State() == AfterCall(cfg, old(State()), Broke(now))
    {
      match mode
      case HalfOpen =>
        mode := Open;
        openedAt := now;
      case Closed =>
        failures := failures + 1;
        if failures >= cfg.threshold {
          mode := Open;
          openedAt := now;
        }
      case Open =>
    }
  }

  /** One guarded call: asked for, made if admitted, and recorded as what it was. */
  function Guarded(cfg: Config, f: Fuse, now: int, erred: bool): Fuse {
    var asked := AfterCall(cfg, f, Ask(now));
    if !Admits(cfg, f, now) then asked else AfterCall(cfg, asked, if erred then Broke(now) else Worked)
  }

  /** From f to f' at most one failure was counted, and none unless a call erred; so a closed breaker with that much
      to spare is still closed. */
  predicate Steadier(cfg: Config, f: Fuse, f': Fuse, erred: bool) {
    var most := f.failures + if erred then 1 else 0;
    f'.failures <= most && (f.mode == Closed && most < cfg.threshold ==> f'.mode == Closed)
  }

  lemma GuardedIsSteady(cfg: Config, f: Fuse, now: int, erred: bool, erred': bool)
    requires erred ==> erred'
    ensures Steadier(cfg, f, f, erred') && Steadier(cfg, f, Guarded(cfg, f, now, erred), erred')
    ensures Steadier(cfg, f, AfterCall(cfg, f, Worked), erred')
    ensures Steadier(cfg, f, AfterCall(cfg, Guarded(cfg, f, now, erred), Worked), erred')
  {
  }

  /** A guarded call that errors trips a closed breaker that has no failure to spare, and a half-open one; until the
      cooldown is over every later call is refused. */
  lemma ErrorTrips(cfg: Config, f: Fuse, now: int, later: int)
    requires (f.mode == Closed && f.failures + 1 >= cfg.threshold) || f.mode == HalfOpen
    ensures !Admits(cfg, Guarded(cfg, f, now, true), later) <==> later - now < cfg.cooldown
  {
  }

  // ----- by history -----

  /** Failures recorded since the last success. */
  function SinceSuccess(calls: seq<Call>): nat {
    if calls == [] || calls[|calls| - 1].Worked? then 0
    else SinceSuccess(calls[..|calls| - 1]) + (if calls[|calls| - 1].Broke? then 1 else 0)
  }

  /** The breaker is closed exactly while the failures since the last success are fewer than the threshold. */
  lemma {:induction false} ClosedByHistory(cfg: Config, calls: seq<Call>)
    requires cfg.threshold > 0
    ensures
      var f := AfterCalls(cfg, NEW_FUSE, calls);
      && (f.mode == Closed <==> SinceSuccess(calls) < cfg.threshold)
      && f.failures == if SinceSuccess(calls) < cfg.threshold then SinceSuccess(calls) else cfg.threshold
  {
    if calls != [] { ClosedByHistory(cfg, calls[..|calls| - 1]); }
  }

  /** When the breaker last opened: at the failure that reached the threshold, or at the latest failed probe,
      a probe being the first call asked for at least the cooldown after that. */
  datatype Trip = Never | Waiting(since: int) | Probing(since: int)

  function LastTrip(cfg: Config, calls: seq<Call>): Trip {
    if calls == [] then Never
    else
      var before, call := LastTrip(cfg, calls[..|calls| - 1]), calls[|calls| - 1];
      match call
      case Worked => Never
      case Ask(now) => if before.Waiting? && now >= before.since + cfg.cooldown then Probing(before.since) else before
      case Broke(now) =>
        if before.Probing? || (before.Never? && SinceSuccess(calls) >= cfg.threshold) then Waiting(now) else before
  }

  /** A call is refused exactly when the breaker tripped less than a cooldown ago and no probe has been let
      through since. */
  lemma {:induction false} RefusedByHistory(cfg: Config, calls: seq<Call>, now: int)
    requires cfg.threshold > 0
    ensures
      var f, trip := AfterCalls(cfg, NEW_FUSE, calls), LastTrip(cfg, calls);
      && (f.mode == Closed <==> trip.Never?)
      && (f.mode == Open <==> trip.Waiting?)
      && (!trip.Never? ==> f.openedAt == trip.since)
      && (!Admits(cfg, f, now) <==> trip.Waiting? && now < trip.since + cfg.cooldown)
  {
    ClosedByHistory(cfg, calls);
    if calls != [] {
      ClosedByHistory(cfg, calls[..|calls| - 1]);
      RefusedByHistory(cfg, calls[..|calls| - 1], now);
    }
  }

  /** Calls that cannot end an open spell early: failures, and requests inside the cooldown. */
  predicate WithinCooldown(cfg: Config, f: Fuse, calls: seq<Call>) {
    forall i :: 0 <= i < |calls| ==> calls[i].Broke? || (calls[i].Ask? && calls[i].now < f.openedAt + cfg.cooldown)
  }

  /** Once open, everything is refused for the whole cooldown, further failures do not extend it, and the first
      request after it is let through. */
  lemma {:induction false} OpenForTheCooldown(cfg: Config, f: Fuse, calls: seq<Call>, now: int)
    requires f.mode == Open && WithinCooldown(cfg, f, calls)
    ensures AfterCalls(cfg, f, calls) == f
    ensures Admits(cfg, AfterCalls(cfg, f, calls), now) <==> now >= f.openedAt + cfg.cooldown
    ensures now >= f.openedAt + cfg.cooldown ==> AfterCalls(cfg, f, calls + [Ask(now)]).mode == HalfOpen
  {
    if calls != [] { OpenForTheCooldown(cfg, f, calls[..|calls| - 1], now); }
    assert (calls + [Ask(now)])[..|calls|] == calls;
  }

  /** A half-open breaker does not stop at one probe: until a result is recorded it lets every request through. */
  lemma {:induction false} HalfOpenAdmitsAll(cfg: Config, f: Fuse, asks: seq<Call>, now: int)
    requires f.mode == HalfOpen && forall i :: 0 <= i < |asks| ==> asks[i].Ask?
    ensures AfterCalls(cfg, f, asks) == f && Admits(cfg, AfterCalls(cfg, f, asks), now)
  {
    if asks != [] { HalfOpenAdmitsAll(cfg, f, asks[..|asks| - 1], now); }
  }
}
