/** The durable processing job: one row, the updates the repository makes to it, the retry decision,
    and the repository object that applies them to the table. */
module Jobs {
  import opened Prelude

  datatype JobStatus = Queued | Processing | Ready | Failed | Cancelled

  datatype ErrorCategory = Transient | Permanent | Timeout | Configuration

  datatype Job = Job(
    versionId: Uuid,
    createdAt: Time,
    status: JobStatus,
    attemptCount: nat,
    enqueuedAt: Option<Time>,
    startedAt: Option<Time>,
    nextRetryAt: Option<Time>,
    finishedAt: Option<Time>,
    lastAttemptAt: Option<Time>,
    errorCode: Option<string>,
    errorCategory: Option<ErrorCategory>,
    failureReason: Option<string>)

  /** The status the job mirrors on its document version. */
  datatype VersionStatus = VersionStored | VersionProcessing | VersionReady | VersionFailed

  const MINUTE: nat := 60_000_000

  /** Retry limits: backoffs in whole seconds, and `staleAfter`, the age at which a worker counts as lost. */
  datatype RetryConfig = RetryConfig(
    maxAttempts: nat, baseBackoff: nat, maxBackoff: nat, multiplier: real, jitterFactor: real, staleAfter: nat)

  const DEFAULT_RETRY := RetryConfig(5, 2, 60, 2.0, 0.25, 10 * MINUTE)

  // ---------------------------------------------------------------- updates of one row

  function Created(versionId: Uuid, createdAt: Time): Job {
    Job(versionId, createdAt, Queued, 0, None, None, None, None, None, None, None, None)
  }

  function Enqueued(job: Job, at: Time): Job {
    job.(enqueuedAt := Some(at))
  }

  function Claimed(job: Job, at: Time): Job {
    job.(status := Processing, startedAt := Some(at), nextRetryAt := None, attemptCount := job.attemptCount + 1)
  }

  function FailedWith(job: Job, code: string, at: Time, category: ErrorCategory, reason: Option<string>): Job {
    job.(status := Failed, errorCode := Some(code), finishedAt := Some(at), errorCategory := Some(category),
         failureReason := reason)
  }

  function Completed(job: Job, at: Time): Job {
    job.(status := Ready, errorCode := None, finishedAt := Some(at))
  }

  function Retried(job: Job, attemptCount: nat, nextRetryAt: Time, at: Time): Job {
    job.(status := Queued, attemptCount := attemptCount, errorCategory := Some(Transient),
         nextRetryAt := Some(nextRetryAt), lastAttemptAt := Some(at))
  }

  /** The `WHERE` clause shared by the candidate list and the recovery update. */
  predicate Recoverable(job: Job, now: Time, staleBefore: Time, maxAttempts: nat) {
    || (job.status == Queued
        && (job.enqueuedAt.None? || AtMost(job.nextRetryAt, now) || AtMost(job.enqueuedAt, staleBefore)))
    || (job.status == Processing && AtMost(job.startedAt, staleBefore) && job.attemptCount < maxAttempts)
    || (job.status == Failed && job.errorCategory == Some(Transient) && job.attemptCount < maxAttempts)
  }

  function Requeued(job: Job): Job {
    job.(status := Queued, enqueuedAt := None, nextRetryAt := None, finishedAt := None)
  }

  predicate StaleExhausted(job: Job, staleBefore: Time, maxAttempts: nat) {
    job.status == Processing && AtMost(job.startedAt, staleBefore) && job.attemptCount >= maxAttempts
  }

  function Exhausted(job: Job, now: Time): Job {
    FailedWith(job, "max_attempts_reached", now, Permanent, Some("stale_processing_exhausted"))
  }

  // ---------------------------------------------------------------- the retry decision

  function Times(a: real, b: real): real {
    a * b
  }

  /** `multiplier ** exponent`. */
  function Growth(multiplier: real, exponent: nat): real {
    if exponent == 0 then 1.0 else Times(multiplier, Growth(multiplier, exponent - 1))
  }

  /** `int(x)` rounds toward zero. */
  function Truncated(x: real): (n: int)
    ensures x >= 0.0 ==> n as real <= x < n as real + 1.0
  {
    if x >= 0.0 then x.Floor else -(-x).Floor
  }

  /** `int(base * growth)`. */
  function Grown(base: nat, growth: real): int {
    Truncated(Times(base as real, growth))
  }

  /** The backoff before jitter, in seconds: multiplied for every attempt up to the cap. */
  function BaseBackoff(config: RetryConfig, attempt: nat): (seconds: int)
    ensures seconds <= config.maxBackoff
  {
    var grown := Grown(config.baseBackoff, Growth(config.multiplier, attempt));
    if grown < config.maxBackoff then grown else config.maxBackoff
  }

  const SECOND := 1_000_000

  /** A jitter draw, in microseconds, within the configured fraction of the base backoff either way. */
  predicate JitterInRange(config: RetryConfig, attempt: nat, jitter: int) {
    var range := Times((BaseBackoff(config, attempt) * SECOND) as real, config.jitterFactor);
    -range <= jitter as real <= range
  }

  function Backoff(config: RetryConfig, attempt: nat, jitter: int): nat {
    var delay := BaseBackoff(config, attempt) * SECOND + jitter;
    if delay < 0 then 0 else delay
  }

  lemma TimesGrows(factor: real, x: real, y: real)
    requires factor >= 0.0 && x <= y
    ensures Times(factor, x) <= Times(factor, y)
    ensures Times(factor, 1.0) == factor && Times(1.0, x) == x
  {
    assert factor * (y - x) >= 0.0;
  }

  lemma {:induction false} GrowthGrows(multiplier: real, m: nat, n: nat)
    requires multiplier >= 1.0 && m <= n
    ensures 1.0 <= Growth(multiplier, m) <= Growth(multiplier, n)
    decreases n
  {
    hide Times;
    if m < n {
      GrowthGrows(multiplier, m, n - 1);
      AtLeastAsLarge(multiplier, Growth(multiplier, n - 1));
    } else if n > 0 {
      GrowthGrows(multiplier, n - 1, n - 1);
      AtLeastAsLarge(multiplier, Growth(multiplier, n - 1));
    }
  }

  lemma AtLeastAsLarge(multiplier: real, x: real)
    requires multiplier >= 1.0 && x >= 0.0
    ensures Times(multiplier, x) >= x
  {
    assert (multiplier - 1.0) * x >= 0.0;
  }

  lemma TruncatedGrows(x: real, y: real)
    requires 0.0 <= x <= y
    ensures 0 <= Truncated(x) <= Truncated(y)
  {
  }

  lemma TruncatedWhole(n: nat)
    ensures Truncated(n as real) == n
  {
  }

  lemma GrownGrows(base: nat, growth: real, later: real)
    requires 1.0 <= growth <= later
    ensures base <= Grown(base, growth) <= Grown(base, later)
  {
    hide Truncated, Times;
    var b := base as real;
    TimesGrows(b, 1.0, growth);
    TimesGrows(b, growth, later);
    TruncatedWhole(base);
    TruncatedGrows(b, Times(b, growth));
    TruncatedGrows(Times(b, growth), Times(b, later));
  }

  lemma BaseBackoffGrows(config: RetryConfig, attempt: nat, later: nat)
    requires config.multiplier >= 1.0 && attempt <= later
    ensures 0 <= BaseBackoff(config, attempt) <= BaseBackoff(config, later)
    ensures config.baseBackoff <= BaseBackoff(config, attempt) || BaseBackoff(config, attempt) == config.maxBackoff
  {
    hide Growth, Grown;
    GrowthGrows(config.multiplier, attempt, later);
    GrowthGrows(config.multiplier, 0, attempt);
    GrownGrows(config.baseBackoff, Growth(config.multiplier, attempt), Growth(config.multiplier, later));
  }

  /** Whatever the draw, a retry waits within the jitter's fraction of its base backoff; the base never
      shrinks with later attempts and never exceeds the cap. */
  lemma BackoffIsBounded(config: RetryConfig, attempt: nat, later: nat, jitter: int)
    requires config.multiplier >= 1.0 && 0.0 <= config.jitterFactor <= 1.0
    requires attempt <= later && JitterInRange(config, attempt, jitter)
    ensures var base := (BaseBackoff(config, attempt) * SECOND) as real;
            base * (1.0 - config.jitterFactor) <= Backoff(config, attempt, jitter) as real <= base * (1.0 + config.jitterFactor)
    ensures 0 <= BaseBackoff(config, attempt) <= BaseBackoff(config, later) <= config.maxBackoff
    ensures config.baseBackoff <= BaseBackoff(config, attempt) || BaseBackoff(config, attempt) == config.maxBackoff
  {
    BaseBackoffGrows(config, attempt, later);
    hide BaseBackoff;
    JitterBounds(BaseBackoff(config, attempt) * SECOND, config.jitterFactor, jitter);
  }

  lemma JitterBounds(base: nat, factor: real, jitter: int)
    requires 0.0 <= factor <= 1.0 && -Times(base as real, factor) <= jitter as real <= Times(base as real, factor)
    ensures base + jitter >= 0
    ensures base as real * (1.0 - factor) <= (base + jitter) as real <= base as real * (1.0 + factor)
  {
    TimesGrows(base as real, factor, 1.0);
    assert base as real * (1.0 - factor) == base as real - Times(base as real, factor);
    assert base as real * (1.0 + factor) == base as real + Times(base as real, factor);
  }

  /** Under the default limits a retry waits at least 1.5 and at most 75 seconds. */
  lemma DefaultBackoffIsBounded(attempt: nat, jitter: int)
    requires JitterInRange(DEFAULT_RETRY, attempt, jitter)
    ensures 3 * SECOND <= 2 * Backoff(DEFAULT_RETRY, attempt, jitter)
    ensures Backoff(DEFAULT_RETRY, attempt, jitter) <= 75 * SECOND
  {
    BaseBackoffGrows(DEFAULT_RETRY, attempt, attempt);
    var base := BaseBackoff(DEFAULT_RETRY, attempt);
    assert 2 <= base <= 60;
    hide BaseBackoff;
    QuarterOf(base * SECOND, jitter);
  }

  lemma QuarterOf(base: int, jitter: int)
    requires -Times(base as real, 0.25) <= jitter as real <= Times(base as real, 0.25)
    ensures -base <= 4 * jitter <= base
  {
    assert 4.0 * jitter as real == (4 * jitter) as real;
  }

  /** `get` then `record_transient_failure`: schedule the next attempt while attempts remain. */
  function AfterTransientFailure(job: Job, config: RetryConfig, jitter: int, at: Time): (after: Job)
    ensures after.status == if job.attemptCount < config.maxAttempts then Queued else Failed
    ensures after.startedAt == job.startedAt
  {
    if job.attemptCount < config.maxAttempts then
      Retried(job, job.attemptCount + 1, at + Backoff(config, job.attemptCount, jitter), at)
    else
      FailedWith(job, "max_attempts_reached", at, Permanent, Some("max_attempts_reached"))
  }

  // ---------------------------------------------------------------- how long a retry waits

  /** Growth is exponential. */
  lemma {:induction false} GrowthIsExponential(multiplier: real, m: nat, n: nat)
    ensures Growth(multiplier, 0) == 1.0 && Growth(multiplier, 1) == multiplier
    ensures Growth(multiplier, m + n) == Growth(multiplier, m) * Growth(multiplier, n)
    decreases m
  {
    if m > 0 {
      GrowthIsExponential(multiplier, m - 1, n);
      assert multiplier * (Growth(multiplier, m - 1) * Growth(multiplier, n))
          == (multiplier * Growth(multiplier, m - 1)) * Growth(multiplier, n);
    }
  }

  /** The default backoffs, in seconds: 2, 4, 8, 16, 32 and from then on 60. */
  lemma DefaultBackoffs(attempt: nat)
    ensures BaseBackoff(DEFAULT_RETRY, attempt) == if attempt < 5 then [2, 4, 8, 16, 32][attempt] else 60
  {
    assert Growth(2.0, 0) == 1.0;
    assert Growth(2.0, 1) == 2.0;
    assert Growth(2.0, 2) == 4.0;
    assert Growth(2.0, 3) == 8.0;
    assert Growth(2.0, 4) == 16.0;
    assert Growth(2.0, 5) == 32.0;
    if attempt >= 5 {
      BaseBackoffGrows(DEFAULT_RETRY, 5, attempt);
    }
  }

  /** The failure leaves the job queued for one attempt more, due once its backoff, give or take the
      jitter's fraction, has passed; or failed for good when no attempt is left. */
  ghost predicate RetryWaits(before: Job, after: Job, config: RetryConfig, at: Time) {
    && after.versionId == before.versionId && after.enqueuedAt == before.enqueuedAt && after.startedAt == before.startedAt
    && if before.attemptCount < config.maxAttempts then
         var base := (BaseBackoff(config, before.attemptCount) * SECOND) as real;
         && after.status == Queued && after.attemptCount == before.attemptCount + 1
         && after.errorCategory == Some(Transient) && after.lastAttemptAt == Some(at) && after.nextRetryAt.Some?
         && base * (1.0 - config.jitterFactor) <= (after.nextRetryAt.value - at) as real <= base * (1.0 + config.jitterFactor)
       else
         && after.status == Failed && after.attemptCount == before.attemptCount && after.finishedAt == Some(at)
         && after.errorCode == Some("max_attempts_reached") && after.errorCategory == Some(Permanent)
         && after.failureReason == Some("max_attempts_reached")
  }

  lemma TransientFailureWaits(job: Job, config: RetryConfig, jitter: int, at: Time)
    requires config.multiplier >= 1.0 && 0.0 <= config.jitterFactor <= 1.0
    requires JitterInRange(config, job.attemptCount, jitter)
    ensures RetryWaits(job, AfterTransientFailure(job, config, jitter, at), config, at)
  {
    BackoffIsBounded(config, job.attemptCount, job.attemptCount, jitter);
    hide Backoff, BaseBackoff, JitterInRange;
  }

  /** A failed first attempt under the defaults and without jitter is due four seconds later. */
  lemma FirstRetryIsDueAfterFourSeconds(job: Job, at: Time)
    requires job.attemptCount == 1
    ensures AfterTransientFailure(job, DEFAULT_RETRY, 0, at).nextRetryAt == Some(at + 4 * SECOND)
  {
    DefaultBackoffs(1);
    hide BaseBackoff;
  }

  /** While its publication is recent, the scheduled retry is recovered from its due time on and not before. */
  lemma RetryIsRecoveredWhenDue(before: Job, after: Job, config: RetryConfig, at: Time, now: Time)
    requires RetryWaits(before, after, config, at) && before.attemptCount < config.maxAttempts
    requires after.enqueuedAt.Some? && after.enqueuedAt.value > now - config.staleAfter
    ensures Recoverable(after, now, now - config.staleAfter, config.maxAttempts) <==> after.nextRetryAt.value <= now
    ensures (now - at) as real < (BaseBackoff(config, before.attemptCount) * SECOND) as real * (1.0 - config.jitterFactor)
            ==> !Recoverable(after, now, now - config.staleAfter, config.maxAttempts)
  {
    hide BaseBackoff;
  }

  // ---------------------------------------------------------------- the repository object

  type Table = map<Uuid, Job>

  /** `UPDATE … WHERE id = :id`: an unknown id updates nothing. */
  function Update(rows: Table, id: Uuid, row: Job -> Job): (updated: Table)
    ensures updated.Keys == rows.Keys
    ensures forall other :: other in rows && other != id ==> updated[other] == rows[other]
  {
    if id in rows then rows[id := row(rows[id])] else rows
  }

  function ExhaustStale(rows: Table, now: Time, staleBefore: Time, maxAttempts: nat): (updated: Table)
    ensures updated.Keys == rows.Keys
  {
    map id | id in rows :: if StaleExhausted(rows[id], staleBefore, maxAttempts) then Exhausted(rows[id], now) else rows[id]
  }

  /** Exactly the stale processing rows without attempts left have failed, permanently. */
  ghost predicate StaleAreFailed(rows: Table, after: Table, now: Time, staleBefore: Time, maxAttempts: nat) {
    && after.Keys == rows.Keys
    && forall id :: id in rows ==>
         var job := rows[id];
         after[id] == if job.status == Processing && AtMost(job.startedAt, staleBefore) && job.attemptCount >= maxAttempts
                      then job.(status := Failed, errorCode := Some("max_attempts_reached"), finishedAt := Some(now),
                                errorCategory := Some(Permanent), failureReason := Some("stale_processing_exhausted"))
                      else job
  }

  function ExhaustedIds(rows: Table, staleBefore: Time, maxAttempts: nat): set<Uuid> {
    set id | id in rows && StaleExhausted(rows[id], staleBefore, maxAttempts)
  }

  /** `versions` is what `RETURNING document_version_id` may give: one entry for each exhausted row, in
      some order, whether or not two rows share their version. */
  ghost predicate ReturnsVersions(rows: Table, staleBefore: Time, maxAttempts: nat, ids: seq<Uuid>, versions: seq<Uuid>) {
    && Distinct(ids) && Elements(ids) == ExhaustedIds(rows, staleBefore, maxAttempts) && |versions| == |ids|
    && forall i :: 0 <= i < |ids| ==> ids[i] in rows && versions[i] == rows[ids[i]].versionId
  }

  function Candidates(rows: Table, now: Time, staleBefore: Time, maxAttempts: nat): set<Uuid> {
    set id | id in rows && Recoverable(rows[id], now, staleBefore, maxAttempts)
  }

  /** `ids` is what `ORDER BY created_at LIMIT limit` may return for the rows in `chosen`. */
  ghost predicate OldestFirst(rows: Table, chosen: set<Uuid>, limit: nat, ids: seq<Uuid>) {
    && chosen <= rows.Keys
    && Distinct(ids)
    && (forall id :: id in ids ==> id in chosen)
    && |ids| == (if |chosen| < limit then |chosen| else limit)
    && (forall i, j :: 0 <= i < j < |ids| ==> rows[ids[i]].createdAt <= rows[ids[j]].createdAt)
    && (forall id, other :: id in ids && other in chosen && other !in ids ==> rows[id].createdAt <= rows[other].createdAt)
  }

  class JobRepository {
    var rows: Table

    constructor ()
      ensures rows == map[]
    {
      rows := map[];
    }

    method Create(id: Uuid, versionId: Uuid, createdAt: Time)
      modifies this
      ensures rows == old(rows)[id := Created(versionId, createdAt)]
      ensures rows[id] == Job(versionId, createdAt, Queued, 0, None, None, None, None, None, None, None, None)
    {
      rows := rows[id := Created(versionId, createdAt)];
    }

    method MarkEnqueued(id: Uuid, at: Time)
      modifies this
      ensures rows == Update(old(rows), id, job => Enqueued(job, at))
      ensures id in rows ==> rows[id] == old(rows)[id].(enqueuedAt := Some(at))
    {
      if id in rows {
        rows := rows[id := rows[id].(enqueuedAt := Some(at))];
      }
    }

    /** Claims queued work; a delivery for anything else finds nothing. */
    method Claim(id: Uuid, at: Time) returns (claimed: Option<Job>)
      modifies this
      ensures claimed.Some? <==> id in old(rows) && old(rows)[id].status == Queued
      ensures claimed.Some? ==> claimed.value == Claimed(old(rows)[id], at) && rows == old(rows)[id := claimed.value]
      ensures claimed.None? ==> rows == old(rows)
      ensures claimed.Some? ==>
                var job := old(rows)[id];
                claimed.value == job.(status := Processing, startedAt := Some(at), nextRetryAt := None,
                                      attemptCount := job.attemptCount + 1)
    {
      claimed := None;
      if id in rows && rows[id].status == Queued {
        var job := rows[id];
        job := job.(status := Processing, startedAt := Some(at), nextRetryAt := None, attemptCount := job.attemptCount + 1);
        rows := rows[id := job];
        claimed := Some(job);
      }
    }

    method Fail(id: Uuid, code: string, at: Time, category: ErrorCategory := Permanent, reason: Option<string> := None)
      modifies this
      ensures rows == Update(old(rows), id, job => FailedWith(job, code, at, category, reason))
      ensures id in rows ==>
                rows[id] == old(rows)[id].(status := Failed, errorCode := Some(code), finishedAt := Some(at),
                                           errorCategory := Some(category), failureReason := reason)
    {
      if id in rows {
        rows := rows[id := rows[id].(status := Failed, errorCode := Some(code), finishedAt := Some(at),
                                     errorCategory := Some(category), failureReason := reason)];
      }
    }

    method MarkReady(id: Uuid, at: Time)
      modifies this
      ensures rows == Update(old(rows), id, job => Completed(job, at))
      ensures id in rows ==> rows[id] == old(rows)[id].(status := Ready, errorCode := None, finishedAt := Some(at))
    {
      if id in rows {
        rows := rows[id := rows[id].(status := Ready, errorCode := None, finishedAt := Some(at))];
      }
    }

    method Retry(id: Uuid, attemptCount: nat, nextRetryAt: Time, at: Time)
      modifies this
      ensures rows == Update(old(rows), id, job => Retried(job, attemptCount, nextRetryAt, at))
      ensures id in rows ==>
                rows[id] == old(rows)[id].(status := Queued, attemptCount := attemptCount, errorCategory := Some(Transient),
                                           nextRetryAt := Some(nextRetryAt), lastAttemptAt := Some(at))
    {
      if id in rows {
        rows := rows[id := rows[id].(status := Queued, attemptCount := attemptCount, errorCategory := Some(Transient),
                                     nextRetryAt := Some(nextRetryAt), lastAttemptAt := Some(at))];
      }
    }

    method ListRequeueCandidates(now: Time, staleBefore: Time, maxAttempts: nat, limit: nat) returns (ids: seq<Uuid>)
      ensures OldestFirst(rows, Candidates(rows, now, staleBefore, maxAttempts), limit, ids)
    {
      var chosen := set id | id in rows && Recoverable(rows[id], now, staleBefore, maxAttempts);
      var left := chosen;
      ids := [];
      while left != {} && |ids| < limit
        invariant left <= chosen && |left| + |ids| == |chosen| && |ids| <= limit
        invariant Distinct(ids) && forall id :: id in chosen <==> id in left || id in ids
        invariant forall id :: id in ids ==> id !in left
        invariant forall i :: 0 <= i < |ids| ==> ids[i] in rows
        invariant forall i, j :: 0 <= i < j < |ids| ==> rows[ids[i]].createdAt <= rows[ids[j]].createdAt
        invariant forall id, other :: id in ids && other in left ==> rows[id].createdAt <= rows[other].createdAt
        decreases |left|
      {
        var oldest := Oldest(left);
        ids := ids + [oldest];
        left := left - {oldest};
      }
    }

    method Oldest(ids: set<Uuid>) returns (oldest: Uuid)
      requires ids != {} && ids <= rows.Keys
      ensures oldest in ids && forall id :: id in ids ==> rows[oldest].createdAt <= rows[id].createdAt
    {
      oldest :| oldest in ids;
      var left := ids - {oldest};
      while left != {}
        invariant left <= ids && oldest in ids
        invariant forall id :: id in ids && id !in left ==> rows[oldest].createdAt <= rows[id].createdAt
        decreases |left|
      {
        var id :| id in left;
        if rows[id].createdAt < rows[oldest].createdAt {
          oldest := id;
        }
        left := left - {id};
      }
    }

    /** Takes responsibility for a recoverable job before it is published again. */
    method PrepareForRequeue(id: Uuid, now: Time, staleBefore: Time, maxAttempts: nat) returns (recovered: bool)
      modifies this
      ensures recovered <==> id in Candidates(old(rows), now, staleBefore, maxAttempts)
      ensures rows == if recovered then Update(old(rows), id, Requeued) else old(rows)
      ensures recovered ==>
                rows[id] == old(rows)[id].(status := Queued, enqueuedAt := None, nextRetryAt := None, finishedAt := None)
    {
      recovered := id in rows && Recoverable(rows[id], now, staleBefore, maxAttempts);
      if recovered {
        rows := rows[id := rows[id].(status := Queued, enqueuedAt := None, nextRetryAt := None, finishedAt := None)];
      }
    }

    /** One UPDATE over the rows; returns the version of every row it failed. */
    method FailStaleExhausted(now: Time, staleBefore: Time, maxAttempts: nat) returns (versions: seq<Uuid>, ghost ids: seq<Uuid>)
      modifies this
      ensures rows == ExhaustStale(old(rows), now, staleBefore, maxAttempts)
      ensures StaleAreFailed(old(rows), rows, now, staleBefore, maxAttempts)
      ensures ReturnsVersions(old(rows), staleBefore, maxAttempts, ids, versions)
    {
      StaleRows(rows, now, staleBefore, maxAttempts);
      hide StaleExhausted, Exhausted, ExhaustStale, StaleAreFailed;
      versions, ids := VersionsOf(ExhaustedIds(rows, staleBefore, maxAttempts));
      rows := ExhaustStale(rows, now, staleBefore, maxAttempts);
    }

    /** `RETURNING document_version_id`. */
    method VersionsOf(exhausted: set<Uuid>) returns (versions: seq<Uuid>, ghost ids: seq<Uuid>)
      requires exhausted <= rows.Keys
      ensures Distinct(ids) && Elements(ids) == exhausted && |versions| == |ids|
      ensures forall i :: 0 <= i < |ids| ==> ids[i] in rows && versions[i] == rows[ids[i]].versionId
    {
      var left := exhausted;
      versions, ids := [], [];
      while left != {}
        invariant left <= exhausted && Returned(rows, exhausted - left, ids, versions)
        decreases |left|
      {
        var id :| id in left;
        ReturnOne(rows, exhausted - left, ids, versions, id);
        versions, ids := versions + [rows[id].versionId], ids + [id];
        assert exhausted - (left - {id}) == exhausted - left + {id};
        hide Returned;
        left := left - {id};
      }
      assert exhausted - left == exhausted;
    }
  }

  /** One version for each row in `done`. */
  ghost predicate Returned(rows: Table, done: set<Uuid>, ids: seq<Uuid>, versions: seq<Uuid>) {
    && Distinct(ids) && Elements(ids) == done && |versions| == |ids|
    && forall i :: 0 <= i < |ids| ==> ids[i] in rows && versions[i] == rows[ids[i]].versionId
  }

  lemma ReturnOne(rows: Table, done: set<Uuid>, ids: seq<Uuid>, versions: seq<Uuid>, id: Uuid)
    requires Returned(rows, done, ids, versions) && id in rows && id !in done
    ensures Returned(rows, done + {id}, ids + [id], versions + [rows[id].versionId])
  {
    assert id !in Elements(ids);
    assert Elements(ids + [id]) == Elements(ids) + {id};
  }

  lemma StaleRows(rows: Table, now: Time, staleBefore: Time, maxAttempts: nat)
    ensures StaleAreFailed(rows, ExhaustStale(rows, now, staleBefore, maxAttempts), now, staleBefore, maxAttempts)
  {
  }
}
