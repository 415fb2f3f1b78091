/** What a retry limit buys: the bound on claims is reached when workers are lost, and only about half
    of it when every run fails transiently, because a transient failure is counted twice. */
module AttemptBudget {
  import opened Prelude
  import opened Jobs
  import opened PageWindow
  import opened Embedding
  import opened IngestionSystem
  import opened IngestionLaws
  import opened IngestionProgress

  // ---------------------------------------------------------------- lost workers

  lemma {:induction false} ClaimsJoin(env: Env, s: System, a: seq<Event>, b: seq<Event>)
    requires env.Valid() && Legal(env, s, a) && Legal(env, Run(env, s, a), b) && Legal(env, s, a + b)
    ensures ClaimsIn(env, s, a + b) == ClaimsIn(env, s, a) + ClaimsIn(env, Run(env, s, a), b)
    decreases |a|
  {
    if a == [] {
      assert a + b == b;
    } else {
      assert (a + b)[1..] == a[1..] + b;
      ClaimsJoin(env, Next(env, s, a[0]), a[1..], b);
    }
  }

  /** A delivery whose worker is lost. */
  function Lost(at: Time): seq<Event> {
    [Event(at, Deliver(0)), Event(at, Crash(0))]
  }

  lemma LostRun(env: Env, s: System)
    requires env.Valid() && s.job.status == Queued && s.workers == map[]
    ensures Legal(env, s, Lost(s.clock)) && ClaimsIn(env, s, Lost(s.clock)) == 1
    ensures var s' := Run(env, s, Lost(s.clock));
            && s'.clock == s.clock && s'.workers == map[]
            && s'.job == Claimed(s.job, s.clock)
  {
    hide DocumentChunks, Pointwise, EmbedFrom;
    var claim, crash := Lost(s.clock)[0], Lost(s.clock)[1];
    var s1 := Next(env, s, claim);
    OneEvent(env, s, claim);
    OneEvent(env, s1, crash);
    RunJoins(env, s, [claim], [crash]);
    assert Lost(s.clock) == [claim] + [crash];
    ClaimsJoin(env, s, [claim], [crash]);
    OneClaim(env, s, claim);
    OneClaim(env, s1, crash);
  }

  lemma OneClaim(env: Env, s: System, e: Event)
    requires env.Valid() && Enabled(env, s, e)
    ensures Legal(env, s, [e]) && ClaimsIn(env, s, [e]) == if e.action.Deliver? && s.job.status == Queued then 1 else 0
  {
    hide Enabled, Next, DocumentChunks;
    OneEvent(env, s, e);
    assert ClaimsIn(env, Next(env, s, e), []) == 0;
  }

  /** From a queued job with `left` attempts left, losing every worker uses each of them on a claim. */
  lemma {:induction false} LossesUseEveryAttempt(env: Env, s: System, left: nat) returns (events: seq<Event>)
    requires env.Valid() && s.job.status == Queued && s.workers == map[]
    requires left >= 1 && s.job.attemptCount + left == env.retry.maxAttempts
    ensures Legal(env, s, events) && ClaimsIn(env, s, events) == left
    decreases left
  {
    hide DocumentChunks, Next, Enabled, Legal, Run, ClaimsIn, Lost;
    LostRun(env, s);
    events := Lost(s.clock);
    if left > 1 {
      var s1 := Run(env, s, events);
      var recover := RecoverAfterLoss(env, s1);
      OneEvent(env, s1, recover);
      OneClaim(env, s1, recover);
      var rest := LossesUseEveryAttempt(env, Next(env, s1, recover), left - 1);
      RunJoins(env, s1, [recover], rest);
      ClaimsJoin(env, s1, [recover], rest);
      RunJoins(env, s, events, [recover] + rest);
      ClaimsJoin(env, s, events, [recover] + rest);
      events := events + ([recover] + rest);
    }
  }

  /** The bound on claims is exact: for every limit some run claims the job that many times. */
  lemma ClaimBoundIsReached(env: Env, versionId: Uuid, at: Time) returns (events: seq<Event>)
    requires env.Valid()
    ensures Legal(env, Initial(versionId, at), events)
    ensures ClaimsIn(env, Initial(versionId, at), events) == env.retry.maxAttempts
  {
    events := LossesUseEveryAttempt(env, Initial(versionId, at), env.retry.maxAttempts);
  }

  // ---------------------------------------------------------------- transient failures only

  /** The event does not lose a worker or fail it for good, and a reconciler pass does not find it stale. */
  ghost predicate IsTransient(env: Env, s: System, e: Event) {
    var a := e.action;
    || a.Publish? || a.Deliver? || a.Parse? || a.Recognize? || a.Chunk? || a.List? || a.Embed? || a.TransientFailure?
    || ((a.FailStale? || a.Recover?)
        && !(s.job.status == Processing && AtMost(s.job.startedAt, a.passTime - env.retry.staleAfter)))
  }

  ghost predicate OnlyTransient(env: Env, s: System, events: seq<Event>)
    requires env.chunking.Valid() && Legal(env, s, events)
    decreases |events|
  {
    events == [] || (IsTransient(env, s, events[0]) && OnlyTransient(env, Next(env, s, events[0]), events[1..]))
  }

  /** One worker at a time; each finished run has cost two attempts. */
  ghost predicate Alternating(config: RetryConfig, s: System) {
    && (s.job.status == Queued || s.job.status == Processing || s.job.status == Failed)
    && s.job.attemptCount == s.claims + s.retries
    && (s.job.status == Queued ==> s.workers == map[] && s.claims == s.retries)
    && (s.job.status == Processing ==> |s.workers.Keys| == 1 && s.claims == s.retries + 1)
    && (s.job.status == Failed ==>
        && s.workers == map[] && s.claims == s.retries + 1 && s.job.attemptCount >= config.maxAttempts
        && s.job.errorCategory == Some(Permanent))
    && 2 * s.retries <= config.maxAttempts
  }

  lemma AlternatingData(env: Env, s: System, e: Event)
    requires env.Valid() && Enabled(env, s, e) && Alternating(env.retry, s) && IsDataStep(e.action) && !e.action.Crash?
    ensures Alternating(env.retry, Next(env, s, e))
  {
    DataStepKeepsJob(env, s, e);
    assert Next(env, s, e).workers.Keys == s.workers.Keys;
    hide DocumentChunks, EmbedFrom, StoreText, StoreChunks, StoreVectors, ListForEmbedding, AfterRecognition, AfterChunking;
  }

  lemma AlternatingDelivery(env: Env, s: System, e: Event)
    requires env.Valid() && Enabled(env, s, e) && Alternating(env.retry, s) && e.action.Deliver?
    ensures Alternating(env.retry, Next(env, s, e))
  {
    hide DocumentChunks, Claiming;
    if s.job.status == Queued {
      assert Next(env, s, e).workers.Keys == {e.action.worker};
    }
  }

  lemma AlternatingFailure(env: Env, s: System, e: Event)
    requires env.Valid() && Enabled(env, s, e) && Alternating(env.retry, s) && e.action.TransientFailure?
    ensures Alternating(env.retry, Next(env, s, e))
  {
    hide DocumentChunks, Backoff;
    LastOneLeaves(s.workers.Keys, e.action.worker);
    assert Next(env, s, e).workers.Keys == s.workers.Keys - {e.action.worker};
  }

  lemma AlternatingPass(env: Env, s: System, e: Event)
    requires env.Valid() && Enabled(env, s, e) && Alternating(env.retry, s) && IsTransient(env, s, e)
    requires e.action.Publish? || e.action.FailStale? || e.action.Recover?
    ensures Alternating(env.retry, Next(env, s, e))
  {
    PassSparesFreshWorkers(env, s, e);
    hide Next, Enabled, DocumentChunks;
  }

  /** A pass that finds no stale worker at most prepares queued work again. */
  lemma PassSparesFreshWorkers(env: Env, s: System, e: Event)
    requires env.Valid() && Enabled(env, s, e) && IsTransient(env, s, e)
    requires e.action.Publish? || e.action.FailStale? || e.action.Recover?
    requires s.job.status == Failed ==> s.job.errorCategory == Some(Permanent)
    ensures var s' := Next(env, s, e);
            && s'.workers == s.workers && s'.claims == s.claims && s'.retries == s.retries
            && s'.job.status == s.job.status && s'.job.attemptCount == s.job.attemptCount
            && s'.job.errorCategory == s.job.errorCategory
  {
    hide DocumentChunks;
    match e.action {
      case Publish =>
      case FailStale(passTime) =>
      case Recover(passTime) =>
    }
  }

  lemma AlternatingIsKept(env: Env, s: System, e: Event)
    requires env.Valid() && Enabled(env, s, e) && Alternating(env.retry, s) && IsTransient(env, s, e)
    ensures Alternating(env.retry, Next(env, s, e))
  {
    hide Next, Enabled, Alternating;
    if IsDataStep(e.action) {
      AlternatingData(env, s, e);
    } else if e.action.Deliver? {
      AlternatingDelivery(env, s, e);
    } else if e.action.TransientFailure? {
      AlternatingFailure(env, s, e);
    } else {
      AlternatingPass(env, s, e);
    }
  }

  lemma LastOneLeaves(workers: set<nat>, w: nat)
    requires w in workers
    ensures |workers| == 1 ==> workers - {w} == {}
  {
    assert |workers - {w}| == |workers| - 1;
  }

  lemma {:induction false} RunAlternates(env: Env, s: System, events: seq<Event>)
    requires env.Valid() && Legal(env, s, events) && Alternating(env.retry, s) && OnlyTransient(env, s, events)
    ensures Alternating(env.retry, Run(env, s, events))
    decreases |events|
  {
    if events != [] {
      hide Next, Enabled, Alternating, DocumentChunks;
      AlternatingIsKept(env, s, events[0]);
      RunAlternates(env, Next(env, s, events[0]), events[1..]);
    }
  }

  /** A job whose every run fails transiently is given up after `maxAttempts / 2 + 1` runs, not after
      `maxAttempts`, however many deliveries and reconciler passes there are. */
  lemma TransientFailuresCountTwice(env: Env, versionId: Uuid, at: Time, events: seq<Event>)
    requires env.Valid() && Legal(env, Initial(versionId, at), events)
    requires OnlyTransient(env, Initial(versionId, at), events)
    requires Run(env, Initial(versionId, at), events).job.status == Failed
    ensures ClaimsIn(env, Initial(versionId, at), events) == env.retry.maxAttempts / 2 + 1
    ensures env.retry == DEFAULT_RETRY ==> ClaimsIn(env, Initial(versionId, at), events) == 3
  {
    hide Legal, Run, OnlyTransient, DocumentChunks;
    RunAlternates(env, Initial(versionId, at), events);
    ClaimsAreCounted(env, Initial(versionId, at), events);
  }

  // ---------------------------------------------------------------- such a run exists

  /** A delivery whose worker fails transiently at once. */
  function Unlucky(at: Time): seq<Event> {
    [Event(at, Deliver(0)), Event(at, TransientFailure(0, 0))]
  }

  lemma UnluckyRun(env: Env, s: System)
    requires env.Valid() && s.job.status == Queued && s.workers == map[]
    ensures Legal(env, s, Unlucky(s.clock)) && OnlyTransient(env, s, Unlucky(s.clock))
    ensures var s' := Run(env, s, Unlucky(s.clock));
            && s'.clock == s.clock && s'.workers == map[]
            && s'.job == AfterTransientFailure(Claimed(s.job, s.clock), env.retry, 0, s.clock)
  {
    hide DocumentChunks, EmbedFrom, AfterTransientFailure, Claiming;
    var claim, fail := Unlucky(s.clock)[0], Unlucky(s.clock)[1];
    var s1 := Next(env, s, claim);
    var s2 := Next(env, s1, fail);
    assert s1.workers.Keys == {0};
    assert Unlucky(s.clock)[1..] == [fail] && [fail][1..] == [];
    assert Legal(env, s2, []) && OnlyTransient(env, s2, []) && Run(env, s2, []) == s2;
    hide Next, Enabled;
    assert Legal(env, s1, [fail]) && OnlyTransient(env, s1, [fail]) && Run(env, s1, [fail]) == s2;
  }

  lemma {:induction false} TransientJoins(env: Env, s: System, a: seq<Event>, b: seq<Event>)
    requires env.chunking.Valid() && Legal(env, s, a) && Legal(env, Run(env, s, a), b) && Legal(env, s, a + b)
    requires OnlyTransient(env, s, a) && OnlyTransient(env, Run(env, s, a), b)
    ensures OnlyTransient(env, s, a + b)
    decreases |a|
  {
    hide Next, Enabled, DocumentChunks, IsTransient;
    if a == [] {
      assert a + b == b;
    } else {
      assert (a + b)[1..] == a[1..] + b;
      TransientJoins(env, Next(env, s, a[0]), a[1..], b);
    }
  }

  /** From every queued job without workers, failing transiently again and again ends in FAILED. */
  lemma {:induction false} UnluckyUntilFailed(env: Env, s: System) returns (events: seq<Event>)
    requires env.Valid() && s.job.status == Queued && s.workers == map[]
    ensures Legal(env, s, events) && OnlyTransient(env, s, events) && Run(env, s, events).job.status == Failed
    decreases if s.job.attemptCount < env.retry.maxAttempts then env.retry.maxAttempts - s.job.attemptCount else 0
  {
    UnluckyRun(env, s);
    events := Unlucky(s.clock);
    hide Legal, Run, OnlyTransient, Unlucky, DocumentChunks, Backoff;
    var s1 := Run(env, s, events);
    if s1.job.status == Queued {
      var rest := UnluckyUntilFailed(env, s1);
      RunJoins(env, s, events, rest);
      TransientJoins(env, s, events, rest);
      events := events + rest;
    }
  }

  /** The hypothesis can be met: some run of transient failures alone ends in FAILED. */
  lemma TransientFailuresExhaust(env: Env, versionId: Uuid, at: Time) returns (events: seq<Event>)
    requires env.Valid()
    ensures Legal(env, Initial(versionId, at), events) && OnlyTransient(env, Initial(versionId, at), events)
    ensures Run(env, Initial(versionId, at), events).job.status == Failed
    ensures ClaimsIn(env, Initial(versionId, at), events) == env.retry.maxAttempts / 2 + 1
  {
    hide Legal, Run, OnlyTransient, DocumentChunks;
    events := UnluckyUntilFailed(env, Initial(versionId, at));
    TransientFailuresCountTwice(env, versionId, at, events);
  }
}
