/**
 The Kafka consumer loop on one partition: bounded retry, dead-lettering, and an attempt to commit whatever happened.
 What the handler answers, whether the dead-letter write and the commit succeed and when the context is cancelled
 are inputs.
 */
module Consumer {
  import opened Base

  datatype Header = Header(key: string, value: string)

  datatype Message = Message(topic: string, key: string, payload: string, headers: seq<Header>)

  datatype Result = Fine | Failed(error: string)

  datatype Config = Config(maxRetries: int, group: string)

  const DEFAULT_RETRIES := 3

  function Retries(c: Config): nat {
    if c.maxRetries <= 0 then DEFAULT_RETRIES else c.maxRetries
  }

  /** A message with what will happen to it: the handler's answer to each attempt, the retry before which the
      context is cancelled, if any, and whether the dead-letter write and the offset commit succeed. */
  datatype Fetch = Fetch(msg: Message, answers: nat -> Result, cancelled: Option<nat>, dlqUp: bool, commitOk: bool)

  datatype Envelope = Envelope(
    topic: string, key: string, payload: string, headers: map<string, string>,
    group: string, error: string, attempts: nat)

  /** What became of a message, and after how many handler calls. */
  datatype Fate =
    | Handled(calls: nat)
    | DeadLettered(calls: nat, envelope: Envelope)
    | WriteFailed(calls: nat)
    | Cancelled(calls: nat)

  /** Headers filled into a map in order: a later one replaces an earlier one. */
  function HeaderMap(headers: seq<Header>): map<string, string> {
    if headers == [] then map[]
    else HeaderMap(headers[..|headers| - 1])[headers[|headers| - 1].key := headers[|headers| - 1].value]
  }

  function EnvelopeOf(c: Config, msg: Message, error: string): Envelope {
    Envelope(msg.topic, msg.key, msg.payload, HeaderMap(msg.headers), c.group, error, Retries(c) + 1)
  }

  class Consumer {
    const cfg: Config
    /** How many messages of the partition have been fetched, and how many the group's offset says are done with: a
        commit vouches for every message up to its own. */
    var fetched: nat
    var committed: nat
    var dlq: seq<Envelope>

    constructor (cfg: Config)
      ensures this.cfg == cfg && fetched == 0 && committed == 0 && dlq == []
    {
      this.cfg := cfg;
      fetched, committed, dlq := 0, 0, [];
    }

    /** Up to one call and `Retries` more, stopping at the first success. */
    method Process(f: Fetch) returns (fate: Fate)
      modifies this`dlq
      ensures IsFate(cfg, f, fate)
      ensures dlq == old(dlq) + Letters(fate)
    {
      var lastErr := "";
      var attempt := 0;
      while attempt <= Retries(cfg)
        invariant attempt <= Retries(cfg) + 1 && dlq == old(dlq)
        invariant forall k :: 0 <= k < attempt ==> f.answers(k).Failed? && Continues(f, k)
        invariant attempt > 0 ==> f.answers(attempt - 1) == Failed(lastErr)
      {
        if attempt > 0 && f.cancelled == Some(attempt) { return Cancelled(attempt); }
        match f.answers(attempt)
        case Fine => return Handled(attempt + 1);
        case Failed(e) => lastErr := e;
        attempt := attempt + 1;
      }
      fate := DeadLetter(f, lastErr);
    }

    method DeadLetter(f: Fetch, cause: string) returns (fate: Fate)
      modifies this`dlq
      ensures fate == if f.dlqUp then DeadLettered(Retries(cfg) + 1, EnvelopeOf(cfg, f.msg, cause))
                      else WriteFailed(Retries(cfg) + 1)
      ensures dlq == old(dlq) + Letters(fate)
    {
      var headers: map<string, string> := map[];
      for i := 0 to |f.msg.headers|
        invariant headers == HeaderMap(f.msg.headers[..i])
      {
        assert f.msg.headers[..i + 1][..i] == f.msg.headers[..i];
        headers := headers[f.msg.headers[i].key := f.msg.headers[i].value];
      }
      assert f.msg.headers[..|f.msg.headers|] == f.msg.headers;
      var env := Envelope(f.msg.topic, f.msg.key, f.msg.payload, headers, cfg.group, cause, Retries(cfg) + 1);
      if !f.dlqUp { return WriteFailed(Retries(cfg) + 1); }
      dlq := dlq + [env];
      fate := DeadLettered(Retries(cfg) + 1, env);
    }

    /** Every fetched message is processed, in order, and whatever became of it a commit is attempted; a commit that
        fails is only logged. */
    method Run(fetches: seq<Fetch>) returns (fates: seq<Fate>)
      modifies this
      ensures |fates| == |fetches| && forall i :: 0 <= i < |fates| ==> IsFate(cfg, fetches[i], fates[i])
      ensures fetched == old(fetched) + |fetches|
      ensures committed == if Covered(fetches) == 0 then old(committed) else old(fetched) + Covered(fetches)
      ensures dlq == old(dlq) + AllLetters(fates)
    {
      hide IsFate;
      fates := [];
      for i := 0 to |fetches|
        invariant |fates| == i && forall k :: 0 <= k < i ==> IsFate(cfg, fetches[k], fates[k])
        invariant fetched == old(fetched) + i
        invariant committed == if Covered(fetches[..i]) == 0 then old(committed)
                               else old(fetched) + Covered(fetches[..i])
        invariant dlq == old(dlq) + AllLetters(fates)
      {
        fetched := fetched + 1;
        var fate := Process(fetches[i]);
        OneMoreLetter(fates, fate);
        assert fetches[..i + 1][..i] == fetches[..i];
        fates := fates + [fate];
        if fetches[i].commitOk { committed := fetched; }
      }
      assert fetches[..|fetches|] == fetches;
    }
  }

  function Letters(fate: Fate): seq<Envelope> {
    if fate.DeadLettered? then [fate.envelope] else []
  }

  function AllLetters(fates: seq<Fate>): seq<Envelope> {
    if fates == [] then [] else AllLetters(fates[..|fates| - 1]) + Letters(fates[|fates| - 1])
  }

  /** How many of some fetched messages the last successful commit vouches for. */
  function Covered(fetches: seq<Fetch>): nat {
    if fetches == [] then 0
    else if fetches[|fetches| - 1].commitOk then |fetches|
    else Covered(fetches[..|fetches| - 1])
  }

  lemma OneMoreLetter(fates: seq<Fate>, fate: Fate)
    ensures AllLetters(fates + [fate]) == AllLetters(fates) + Letters(fate)
  {
    assert (fates + [fate])[..|fates|] == fates;
  }

  /** The context is not cancelled before this attempt; the first attempt is made regardless. */
  predicate Continues(f: Fetch, k: nat) {
    k == 0 || f.cancelled != Some(k)
  }

  /** Every call up to this one was made and failed. */
  ghost predicate FailedUpTo(f: Fetch, n: nat) {
    forall k :: 0 <= k < n ==> f.answers(k).Failed? && Continues(f, k)
  }

  /** What can have become of a message, in terms of its answers alone. */
  ghost predicate IsFate(c: Config, f: Fetch, fate: Fate) {
    match fate
    case Handled(calls) =>
      1 <= calls <= Retries(c) + 1 && FailedUpTo(f, calls - 1) && Continues(f, calls - 1) && f.answers(calls - 1).Fine?
    case DeadLettered(calls, env) =>
      && calls == Retries(c) + 1 && FailedUpTo(f, calls) && f.dlqUp
      && env == EnvelopeOf(c, f.msg, f.answers(calls - 1).error)
    case WriteFailed(calls) => calls == Retries(c) + 1 && FailedUpTo(f, calls) && !f.dlqUp
    case Cancelled(calls) => 1 <= calls <= Retries(c) && FailedUpTo(f, calls) && f.cancelled == Some(calls)
  }

  // ----- no silent loss -----

  /** The first `n` attempts all fail. */
  predicate AllFail(f: Fetch, n: nat) {
    forall k :: 0 <= k < n ==> f.answers(k).Failed?
  }

  /** The group's offset has passed the message, which was neither handled nor dead-lettered: nobody will see it
      again. */
  predicate Lost(fetches: seq<Fetch>, fates: seq<Fate>, i: nat)
    requires i < |fates| == |fetches|
  {
    i < Covered(fetches) && (fates[i].WriteFailed? || fates[i].Cancelled?)
  }

  /** What a message's answers make of it: it is let go, neither handled nor dead-lettered, exactly when its handler
      keeps failing and then either the context is cancelled between two attempts or the dead-letter write fails. */
  lemma LetGoExactlyWhen(c: Config, f: Fetch, fate: Fate)
    requires IsFate(c, f, fate)
    ensures fate.WriteFailed? || fate.Cancelled? <==> LetGo(c, f)
    ensures 1 <= fate.calls <= Retries(c) + 1
  {
    var stop: nat := if f.cancelled.Some? && 1 <= f.cancelled.value <= Retries(c) then f.cancelled.value else 0;
    assert stop > 0 ==> !Continues(f, stop);
  }

  predicate LetGo(c: Config, f: Fetch) {
    if f.cancelled.Some? && 1 <= f.cancelled.value <= Retries(c) then AllFail(f, f.cancelled.value)
    else AllFail(f, Retries(c) + 1) && !f.dlqUp
  }

  /** The offset passes a message exactly when its own commit or a later one succeeds. */
  lemma {:induction false} CoveredExactlyWhen(fetches: seq<Fetch>, i: nat)
    requires i < |fetches|
    ensures i < Covered(fetches) <==> exists j :: i <= j < |fetches| && fetches[j].commitOk
    ensures Covered(fetches) <= |fetches|
  {
    var n := |fetches| - 1;
    var front := fetches[..n];
    if fetches[n].commitOk {
    } else if i < n {
      CoveredExactlyWhen(front, i);
      if i < Covered(front) {
        var j :| i <= j < |front| && front[j].commitOk;
        assert fetches[j].commitOk;
      }
      if j :| i <= j < |fetches| && fetches[j].commitOk { assert front[j].commitOk; }
    } else {
      if n > 0 { CoveredExactlyWhen(front, n - 1); }
    }
  }

  /** A message is lost exactly when its handler keeps failing, then the context is cancelled between two attempts or
      the dead-letter write fails, and its commit, or that of a later message, succeeds all the same. */
  lemma LostExactlyWhen(c: Config, fetches: seq<Fetch>, fates: seq<Fate>, i: nat)
    requires |fates| == |fetches| && (forall k :: 0 <= k < |fates| ==> IsFate(c, fetches[k], fates[k])) && i < |fates|
    ensures Lost(fetches, fates, i)
       <==> LetGo(c, fetches[i]) && exists j :: i <= j < |fetches| && fetches[j].commitOk
  {
    LetGoExactlyWhen(c, fetches[i], fates[i]);
    CoveredExactlyWhen(fetches, i);
  }

  /** A header name maps to the value of its last occurrence, and only names that occur are mapped. */
  lemma {:induction false} LastHeaderWins(headers: seq<Header>, key: string)
    ensures key in HeaderMap(headers) <==> exists i :: 0 <= i < |headers| && headers[i].key == key
    ensures forall i ::
              0 <= i < |headers| && headers[i].key == key && (forall j :: i < j < |headers| ==> headers[j].key != key)
              ==> key in HeaderMap(headers) && HeaderMap(headers)[key] == headers[i].value
  {
    if headers != [] {
      var front := headers[..|headers| - 1];
      LastHeaderWins(front, key);
      assert forall i :: 0 <= i < |front| ==> front[i] == headers[i];
      if headers[|headers| - 1].key != key && key in HeaderMap(headers) {
        var i :| 0 <= i < |front| && front[i].key == key;
        assert headers[i].key == key;
      }
    }
  }

  lemma {:induction false} LettersAreFiled(fates: seq<Fate>, i: nat)
    requires i < |fates| && fates[i].DeadLettered?
    ensures fates[i].envelope in AllLetters(fates)
  {
    if i < |fates| - 1 { LettersAreFiled(fates[..|fates| - 1], i); }
  }

  /** Nothing is dead-lettered that was not fetched and failed every attempt. */
  lemma {:induction false} LettersHaveCauses(fates: seq<Fate>, env: Envelope)
    requires env in AllLetters(fates)
    ensures exists i :: 0 <= i < |fates| && fates[i].DeadLettered? && fates[i].envelope == env
  {
    var front, last := fates[..|fates| - 1], fates[|fates| - 1];
    if env in AllLetters(front) {
      LettersHaveCauses(front, env);
      var i :| 0 <= i < |front| && front[i].DeadLettered? && front[i].envelope == env;
      assert fates[i].envelope == env;
    } else {
      assert fates[|fates| - 1].envelope == env;
    }
  }

  /** For every handler behaviour, without cancellation and with the dead-letter topic up, each message, committed or
      not, was handled successfully or is in the dead-letter topic as it arrived, after at least one and at
      most one more than the configured number of handler calls. */
  lemma NoSilentLoss(c: Config, fetches: seq<Fetch>, fates: seq<Fate>, i: nat)
    requires |fates| == |fetches| && (forall k :: 0 <= k < |fates| ==> IsFate(c, fetches[k], fates[k])) && i < |fates|
    requires fetches[i].cancelled.None? && fetches[i].dlqUp
    ensures !Lost(fetches, fates, i) && 1 <= fates[i].calls <= Retries(c) + 1
    ensures fates[i].Handled? <==> !AllFail(fetches[i], Retries(c) + 1)
    ensures !fates[i].Handled? ==> fates[i].calls == if c.maxRetries <= 0 then 4 else c.maxRetries + 1
    ensures AllFail(fetches[i], Retries(c) + 1) ==>
      exists env :: env in AllLetters(fates)
        && env.topic == fetches[i].msg.topic && env.key == fetches[i].msg.key && env.payload == fetches[i].msg.payload
        && env.headers == HeaderMap(fetches[i].msg.headers) && env.attempts == fates[i].calls == Retries(c) + 1
        && env.group == c.group
        && fetches[i].answers(Retries(c)) == Failed(env.error)
  {
    LetGoExactlyWhen(c, fetches[i], fates[i]);
    if fates[i].DeadLettered? { LettersAreFiled(fates, i); }
  }
}
