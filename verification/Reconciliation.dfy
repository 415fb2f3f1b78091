/** One recovery pass over the durable jobs, and why no job can be left behind by it. */
module Reconciliation {
  import opened Prelude
  import opened Jobs

  /** What recovering one candidate leaves behind: publication was accepted or refused. */
  function Recovered(job: Job, now: Time, accepted: bool): Job {
    if accepted then Enqueued(Requeued(job), now) else Requeued(job)
  }

  /** A table in which the jobs in `ids` have been recovered. */
  function RecoverAll(rows: Table, ids: seq<Uuid>, now: Time, accepts: Uuid -> bool): Table {
    map id | id in rows :: if id in ids then Recovered(rows[id], now, accepts(id)) else rows[id]
  }

  /** The table after a pass in which `ids` were the listed candidates. */
  function AfterPass(rows: Table, now: Time, config: RetryConfig, ids: seq<Uuid>, accepts: Uuid -> bool): Table {
    RecoverAll(ExhaustStale(rows, now, now - config.staleAfter, config.maxAttempts), ids, now, accepts)
  }

  /** `ids` may be what a pass lists: the oldest candidates left once exhausted jobs are failed. */
  ghost predicate Listed(rows: Table, now: Time, config: RetryConfig, batchSize: nat, ids: seq<Uuid>) {
    var failed := ExhaustStale(rows, now, now - config.staleAfter, config.maxAttempts);
    OldestFirst(failed, Candidates(failed, now, now - config.staleAfter, config.maxAttempts), batchSize, ids)
  }

  function MarkFailed(versions: map<Uuid, VersionStatus>, failed: set<Uuid>): map<Uuid, VersionStatus> {
    map v | v in versions :: if v in failed then VersionFailed else versions[v]
  }

  function ExhaustedVersions(rows: Table, staleBefore: Time, maxAttempts: nat): set<Uuid> {
    set id | id in ExhaustedIds(rows, staleBefore, maxAttempts) :: rows[id].versionId
  }

  /** What other transactions do to the table between two transactions of a pass, step by step. */
  type Others = (nat, Table) -> Table

  /** How far a pass has come: the table, and the publications the queue took, in order. */
  datatype Recovery = Recovery(rows: Table, published: seq<Uuid>)

  /** One candidate in a table that others may have changed since it was listed, and may change again
      between its preparation and the record of its publication. */
  function RecoverNext(before: Recovery, id: Uuid, n: nat, now: Time, config: RetryConfig, accepts: Uuid -> bool,
                       others: Others): Recovery {
    var seen := others(2 * n, before.rows);
    if id !in Candidates(seen, now, now - config.staleAfter, config.maxAttempts) then before.(rows := seen)
    else
      var prepared := Update(seen, id, Requeued);
      if accepts(id) then
        Recovery(Update(others(2 * n + 1, prepared), id, job => Enqueued(job, now)), before.published + [id])
      else before.(rows := prepared)
  }

  function RecoverEach(rows: Table, ids: seq<Uuid>, now: Time, config: RetryConfig, accepts: Uuid -> bool,
                       others: Others): Recovery {
    if ids == [] then Recovery(rows, [])
    else
      var n := |ids| - 1;
      RecoverNext(RecoverEach(rows, ids[..n], now, config, accepts, others), ids[n], n, now, config, accepts, others)
  }

  class ProcessingJobReconciler {
    const jobs: JobRepository
    const config: RetryConfig
    const batchSize: nat
    var versions: map<Uuid, VersionStatus>
    /** The job identifiers the queue accepted, oldest publication first. */
    var published: seq<Uuid>

    constructor (jobs: JobRepository, config: RetryConfig, batchSize: nat, versions: map<Uuid, VersionStatus>)
      ensures this.jobs == jobs && this.config == config && this.batchSize == batchSize
      ensures this.versions == versions && published == []
    {
      this.jobs := jobs;
      this.config := config;
      this.batchSize := batchSize;
      this.versions := versions;
      published := [];
    }

    /** Runs one bounded pass; `accepts` says which publications the queue takes, and `others` what happens
        to the table between the transactions of the pass. */
    method Reconcile(now: Time, accepts: Uuid -> bool, others: Others)
      returns (requeuedCount: nat, exhaustedCount: nat, ghost ids: seq<Uuid>)
      modifies this, jobs
      ensures Listed(old(jobs.rows), now, config, batchSize, ids)
      ensures var failed := ExhaustStale(old(jobs.rows), now, now - config.staleAfter, config.maxAttempts);
              var pass := RecoverEach(failed, ids, now, config, accepts, others);
              && jobs.rows == pass.rows && published == old(published) + pass.published
              && requeuedCount == |pass.published|
      ensures versions == MarkFailed(old(versions),
                                     ExhaustedVersions(old(jobs.rows), now - config.staleAfter, config.maxAttempts))
      ensures exhaustedCount == |ExhaustedIds(old(jobs.rows), now - config.staleAfter, config.maxAttempts)|
    {
      hide *;
      ids := [];
      ghost var before := jobs.rows;
      exhaustedCount := FailExhausted(now);
      ghost var failed := jobs.rows;
      var candidates := jobs.ListRequeueCandidates(now, now - config.staleAfter, config.maxAttempts, batchSize);
      ids := candidates;
      ListedAfterFailing(before, now, config, batchSize, ids);
      requeuedCount := 0;
      EachNone(failed, now, config, accepts, others);
      assert candidates[..0] == [];
      for i := 0 to |candidates|
        invariant var pass := RecoverEach(failed, candidates[..i], now, config, accepts, others);
                  && jobs.rows == pass.rows && published == old(published) + pass.published
                  && requeuedCount == |pass.published|
        invariant versions == MarkFailed(old(versions), ExhaustedVersions(before, now - config.staleAfter, config.maxAttempts))
      {
        EachStep(failed, candidates, i, now, config, accepts, others);
        var requeued := RecoverOne(candidates[i], i, now, accepts, others,
                                   RecoverEach(failed, candidates[..i], now, config, accepts, others));
        if requeued {
          requeuedCount := requeuedCount + 1;
        }
      }
      assert candidates[..|candidates|] == candidates;
    }

    /** The first transaction's failures: the exhausted jobs and their versions. */
    method FailExhausted(now: Time) returns (count: nat)
      modifies this`versions, jobs
      ensures jobs.rows == ExhaustStale(old(jobs.rows), now, now - config.staleAfter, config.maxAttempts)
      ensures versions == MarkFailed(old(versions),
                                     ExhaustedVersions(old(jobs.rows), now - config.staleAfter, config.maxAttempts))
      ensures count == |ExhaustedIds(old(jobs.rows), now - config.staleAfter, config.maxAttempts)|
    {
      hide ExhaustStale, StaleExhausted;
      ghost var before := jobs.rows;
      var returned, exhausted := jobs.FailStaleExhausted(now, now - config.staleAfter, config.maxAttempts);
      ReturnedVersions(before, now - config.staleAfter, config.maxAttempts, exhausted, returned);
      FailVersions(returned);
      count := |returned|;
    }

    /** The body of the candidate loop: prepare, publish, and record an accepted publication. */
    method RecoverOne(id: Uuid, n: nat, now: Time, accepts: Uuid -> bool, others: Others, ghost before: Recovery)
      returns (requeued: bool)
      requires jobs.rows == before.rows
      modifies this`published, jobs
      ensures var after := RecoverNext(before, id, n, now, config, accepts, others);
              && jobs.rows == after.rows && |after.published| == |before.published| + (if requeued then 1 else 0)
              && published == old(published) + after.published[|before.published|..]
              && after.published[..|before.published|] == before.published
    {
      hide Candidates, Requeued, Enqueued;
      requeued := false;
      Meanwhile(2 * n, others);
      var recovered := jobs.PrepareForRequeue(id, now, now - config.staleAfter, config.maxAttempts);
      if recovered && accepts(id) {
        published := published + [id];
        Meanwhile(2 * n + 1, others);
        jobs.MarkEnqueued(id, now);
        requeued := true;
      }
    }

    /** Other transactions run. */
    method Meanwhile(step: nat, others: Others)
      modifies jobs
      ensures jobs.rows == others(step, old(jobs.rows))
    {
      jobs.rows := others(step, jobs.rows);
    }

    method FailVersions(failed: seq<Uuid>)
      modifies this`versions
      ensures versions == MarkFailed(old(versions), Elements(failed))
    {
      for i := 0 to |failed|
        invariant versions == MarkFailed(old(versions), Elements(failed[..i]))
      {
        assert failed[..i + 1] == failed[..i] + [failed[i]];
        assert Elements(failed[..i + 1]) == Elements(failed[..i]) + {failed[i]};
        if failed[i] in versions {
          versions := versions[failed[i] := VersionFailed];
        }
      }
      assert failed[..|failed|] == failed;
    }
  }

  lemma ReturnedVersions(rows: Table, staleBefore: Time, maxAttempts: nat, ids: seq<Uuid>, versions: seq<Uuid>)
    requires ReturnsVersions(rows, staleBefore, maxAttempts, ids, versions)
    ensures Elements(versions) == ExhaustedVersions(rows, staleBefore, maxAttempts)
    ensures |versions| == |ExhaustedIds(rows, staleBefore, maxAttempts)|
  {
    hide ExhaustedIds;
    DistinctCount(ids);
    forall v ensures v in versions <==> v in ExhaustedVersions(rows, staleBefore, maxAttempts) {
      if v in versions {
        var i :| 0 <= i < |versions| && versions[i] == v;
        assert ids[i] in Elements(ids);
      }
      if v in ExhaustedVersions(rows, staleBefore, maxAttempts) {
        var id :| id in ExhaustedIds(rows, staleBefore, maxAttempts) && rows[id].versionId == v;
        assert id in Elements(ids);
        var i :| 0 <= i < |ids| && ids[i] == id;
        assert versions[i] == v;
      }
    }
  }

  lemma ListedAfterFailing(rows: Table, now: Time, config: RetryConfig, batchSize: nat, ids: seq<Uuid>)
    requires var failed := ExhaustStale(rows, now, now - config.staleAfter, config.maxAttempts);
             OldestFirst(failed, Candidates(failed, now, now - config.staleAfter, config.maxAttempts), batchSize, ids)
    ensures Listed(rows, now, config, batchSize, ids)
  {
  }

  lemma EachNone(rows: Table, now: Time, config: RetryConfig, accepts: Uuid -> bool, others: Others)
    ensures RecoverEach(rows, [], now, config, accepts, others) == Recovery(rows, [])
  {
  }

  lemma EachStep(rows: Table, ids: seq<Uuid>, i: nat, now: Time, config: RetryConfig, accepts: Uuid -> bool, others: Others)
    requires i < |ids|
    ensures RecoverEach(rows, ids[..i + 1], now, config, accepts, others)
         == RecoverNext(RecoverEach(rows, ids[..i], now, config, accepts, others), ids[i], i, now, config, accepts, others)
  {
    hide RecoverNext;
    assert ids[..i + 1][..i] == ids[..i];
  }

  // ---------------------------------------------------------------- an undisturbed pass

  /** Nothing happens between the transactions of the pass. */
  ghost predicate Undisturbed(others: Others) {
    forall n: nat, rows: Table :: others(n, rows) == rows
  }

  lemma {:induction false} UndisturbedPrefix(rows: Table, now: Time, config: RetryConfig, batchSize: nat, ids: seq<Uuid>,
                                             i: nat, accepts: Uuid -> bool, others: Others)
    requires OldestFirst(rows, Candidates(rows, now, now - config.staleAfter, config.maxAttempts), batchSize, ids)
    requires Undisturbed(others) && i <= |ids|
    ensures RecoverEach(rows, ids[..i], now, config, accepts, others)
         == Recovery(RecoverAll(rows, ids[..i], now, accepts), Accepted(ids[..i], accepts))
    decreases i
  {
    hide *;
    if i == 0 {
      assert ids[..0] == [];
      EachNone(rows, now, config, accepts, others);
      RecoverNone(rows, now, accepts);
      AcceptedNone(accepts);
    } else {
      var front, id := ids[..i - 1], ids[i - 1];
      assert ids[..i] == front + [id];
      UndisturbedPrefix(rows, now, config, batchSize, ids, i - 1, accepts, others);
      EachStep(rows, ids, i - 1, now, config, accepts, others);
      UndisturbedOne(rows, now, config, batchSize, ids, i - 1, accepts, others);
    }
  }

  lemma UndisturbedNext(before: Recovery, id: Uuid, n: nat, now: Time, config: RetryConfig, accepts: Uuid -> bool,
                        others: Others)
    requires Undisturbed(others) && id in before.rows
    requires id in Candidates(before.rows, now, now - config.staleAfter, config.maxAttempts)
    ensures RecoverNext(before, id, n, now, config, accepts, others)
         == Recovery(before.rows[id := Recovered(before.rows[id], now, accepts(id))],
                     if accepts(id) then before.published + [id] else before.published)
  {
    hide Candidates, Requeued, Enqueued;
    assert others(2 * n, before.rows) == before.rows;
    var prepared := before.rows[id := Requeued(before.rows[id])];
    assert others(2 * n + 1, prepared) == prepared;
  }

  lemma UndisturbedOne(rows: Table, now: Time, config: RetryConfig, batchSize: nat, ids: seq<Uuid>, i: nat,
                       accepts: Uuid -> bool, others: Others)
    requires OldestFirst(rows, Candidates(rows, now, now - config.staleAfter, config.maxAttempts), batchSize, ids)
    requires Undisturbed(others) && i < |ids|
    ensures RecoverNext(Recovery(RecoverAll(rows, ids[..i], now, accepts), Accepted(ids[..i], accepts)), ids[i], i,
                        now, config, accepts, others)
         == Recovery(RecoverAll(rows, ids[..i] + [ids[i]], now, accepts), Accepted(ids[..i] + [ids[i]], accepts))
  {
    hide *;
    var front, id := ids[..i], ids[i];
    var staleBefore := now - config.staleAfter;
    ListedIds(rows, Candidates(rows, now, staleBefore, config.maxAttempts), batchSize, ids, i);
    RecoverStep(rows, front, id, now, accepts);
    AcceptedStep(front, id, accepts);
    StillCandidate(rows, RecoverAll(rows, front, now, accepts), id, now, staleBefore, config.maxAttempts);
    UndisturbedNext(Recovery(RecoverAll(rows, front, now, accepts), Accepted(front, accepts)), id, i, now, config, accepts,
                    others);
  }

  /** Without interference a pass recovers exactly the listed candidates and publishes exactly those the
      queue takes. */
  lemma UndisturbedPass(rows: Table, now: Time, config: RetryConfig, batchSize: nat, ids: seq<Uuid>, accepts: Uuid -> bool,
                        others: Others)
    requires Listed(rows, now, config, batchSize, ids) && Undisturbed(others)
    ensures var failed := ExhaustStale(rows, now, now - config.staleAfter, config.maxAttempts);
            RecoverEach(failed, ids, now, config, accepts, others)
            == Recovery(AfterPass(rows, now, config, ids, accepts), Accepted(ids, accepts))
  {
    hide OldestFirst, Candidates, ExhaustStale, RecoverAll, RecoverEach, Accepted, Undisturbed;
    var failed := ExhaustStale(rows, now, now - config.staleAfter, config.maxAttempts);
    assert ids[..|ids|] == ids;
    UndisturbedPrefix(failed, now, config, batchSize, ids, |ids|, accepts, others);
  }

  /** Whatever others do meanwhile, no job is published twice in a pass, and only listed ones are. */
  lemma {:induction false} PublishedOnce(rows: Table, ids: seq<Uuid>, now: Time, config: RetryConfig, accepts: Uuid -> bool,
                                         others: Others)
    requires Distinct(ids)
    ensures var published := RecoverEach(rows, ids, now, config, accepts, others).published;
            Distinct(published) && forall id :: id in published ==> id in ids && accepts(id)
  {
    if ids != [] {
      var n := |ids| - 1;
      hide Candidates, Update;
      PublishedOnce(rows, ids[..n], now, config, accepts, others);
      assert ids == ids[..n] + [ids[n]] && ids[n] !in ids[..n];
    }
  }

  lemma RecoverNone(rows: Table, now: Time, accepts: Uuid -> bool)
    ensures RecoverAll(rows, [], now, accepts) == rows
  {
  }

  lemma RecoverStep(rows: Table, done: seq<Uuid>, id: Uuid, now: Time, accepts: Uuid -> bool)
    requires id in rows && id !in done
    ensures id in RecoverAll(rows, done, now, accepts) && RecoverAll(rows, done, now, accepts)[id] == rows[id]
    ensures RecoverAll(rows, done + [id], now, accepts)
         == RecoverAll(rows, done, now, accepts)[id := Recovered(rows[id], now, accepts(id))]
  {
    hide Recovered;
  }

  lemma StillCandidate(rows: Table, later: Table, id: Uuid, now: Time, staleBefore: Time, maxAttempts: nat)
    requires id in Candidates(rows, now, staleBefore, maxAttempts)
    requires id in rows && id in later && later[id] == rows[id]
    ensures id in Candidates(later, now, staleBefore, maxAttempts)
  {
    hide Recoverable;
  }

  lemma ListedIds(rows: Table, chosen: set<Uuid>, limit: nat, ids: seq<Uuid>, i: nat)
    requires OldestFirst(rows, chosen, limit, ids) && i < |ids|
    ensures ids[i] in chosen && ids[i] in rows && ids[i] !in ids[..i]
  {
  }

  /** The publications that were accepted, in order. */
  function Accepted(ids: seq<Uuid>, accepts: Uuid -> bool): seq<Uuid> {
    if ids == [] then []
    else Accepted(ids[..|ids| - 1], accepts) + (if accepts(ids[|ids| - 1]) then [ids[|ids| - 1]] else [])
  }

  lemma AcceptedNone(accepts: Uuid -> bool)
    ensures Accepted([], accepts) == []
  {
  }

  lemma AcceptedStep(ids: seq<Uuid>, id: Uuid, accepts: Uuid -> bool)
    ensures Accepted(ids + [id], accepts) == Accepted(ids, accepts) + if accepts(id) then [id] else []
  {
    assert (ids + [id])[..|ids|] == ids;
  }

  // ---------------------------------------------------------------- no job is stuck

  /** What every reachable row satisfies (`IngestionSystem.JobInvariant` proves it is kept). */
  ghost predicate RowInvariant(job: Job) {
    && (job.status == Processing ==> job.startedAt.Some?)
    && (job.status == Failed ==> job.errorCategory == Some(Permanent))
  }

  /** Unfinished, and the stale threshold has passed since the job was last published or started. */
  ghost predicate Overdue(job: Job, staleBefore: Time) {
    || (job.status == Queued && (job.enqueuedAt.None? || job.enqueuedAt.value <= staleBefore))
    || (job.status == Processing && AtMost(job.startedAt, staleBefore))
  }

  /** Every overdue job is either exhausted or a candidate, and never both. */
  lemma OverdueIsSeen(job: Job, now: Time, config: RetryConfig)
    requires RowInvariant(job) && Overdue(job, now - config.staleAfter)
    ensures StaleExhausted(job, now - config.staleAfter, config.maxAttempts)
       <==> !Recoverable(job, now, now - config.staleAfter, config.maxAttempts)
  {
  }

  /** The job waits for a retry that is due. */
  ghost predicate RetryDue(job: Job, now: Time) {
    job.status == Queued && job.nextRetryAt.Some? && job.nextRetryAt.value <= now
  }

  /** A pass touches exactly the overdue jobs and the due retries: freshly published work, a retry that is
      not due and a worker still in time are left alone. It gives up only jobs without attempts left. */
  lemma PassTouchesIff(job: Job, now: Time, config: RetryConfig)
    requires RowInvariant(job)
    ensures var staleBefore := now - config.staleAfter;
            && ((Recoverable(job, now, staleBefore, config.maxAttempts) || StaleExhausted(job, staleBefore, config.maxAttempts))
                <==> (Overdue(job, staleBefore) || RetryDue(job, now)))
            && (StaleExhausted(job, staleBefore, config.maxAttempts)
                <==> Overdue(job, staleBefore) && job.status == Processing && job.attemptCount >= config.maxAttempts)
  {
  }

  /** A failed or finished job is never touched by a pass. */
  lemma TerminalIsLeftAlone(job: Job, now: Time, config: RetryConfig)
    requires RowInvariant(job) && job.status in {Ready, Failed, Cancelled}
    ensures !Recoverable(job, now, now - config.staleAfter, config.maxAttempts)
    ensures !StaleExhausted(job, now - config.staleAfter, config.maxAttempts)
  {
  }

  lemma WithinBatch(rows: Table, chosen: set<Uuid>, limit: nat, ids: seq<Uuid>)
    requires OldestFirst(rows, chosen, limit, ids) && |chosen| <= limit
    ensures forall id :: id in chosen <==> id in ids
  {
    DistinctCount(ids);
    SameSizeSubset(Elements(ids), chosen);
  }

  /** One pass resolves every overdue job and every due retry when the candidates fit the batch: an
      exhausted one is failed for good; any other is queued again, published now or left unpublished, which
      makes it a candidate of every later pass. In particular no stale job is still processing. */
  lemma PassResolvesOverdueJobs(rows: Table, now: Time, config: RetryConfig, batchSize: nat, ids: seq<Uuid>,
                                accepts: Uuid -> bool, id: Uuid)
    requires forall other :: other in rows ==> RowInvariant(rows[other])
    requires Listed(rows, now, config, batchSize, ids)
    requires var failed := ExhaustStale(rows, now, now - config.staleAfter, config.maxAttempts);
             |Candidates(failed, now, now - config.staleAfter, config.maxAttempts)| <= batchSize || id in ids
    requires id in rows && (Overdue(rows[id], now - config.staleAfter) || RetryDue(rows[id], now))
    ensures var job, after := rows[id], AfterPass(rows, now, config, ids, accepts)[id];
            if job.status == Processing && job.attemptCount >= config.maxAttempts then
              && after.status == Failed && after.errorCategory == Some(Permanent) && after.finishedAt == Some(now)
              && after.errorCode == Some("max_attempts_reached")
            else
              && after.status == Queued && after.attemptCount == job.attemptCount && after.nextRetryAt.None?
              && after.enqueuedAt == (if accepts(id) then Some(now) else None)
              && (!accepts(id) ==> forall later: Time, stale: Time, limit: nat :: Recoverable(after, later, stale, limit))
  {
    var failed := ExhaustStale(rows, now, now - config.staleAfter, config.maxAttempts);
    var chosen := Candidates(failed, now, now - config.staleAfter, config.maxAttempts);
    PassTouchesIff(rows[id], now, config);
    if |chosen| <= batchSize {
      WithinBatch(failed, chosen, batchSize, ids);
    }
  }

  /** Everything else is left exactly as it was. */
  lemma PassLeavesTheRest(rows: Table, now: Time, config: RetryConfig, batchSize: nat, ids: seq<Uuid>, accepts: Uuid -> bool,
                          id: Uuid)
    requires forall other :: other in rows ==> RowInvariant(rows[other])
    requires Listed(rows, now, config, batchSize, ids)
    requires id in rows && !Overdue(rows[id], now - config.staleAfter) && !RetryDue(rows[id], now)
    ensures AfterPass(rows, now, config, ids, accepts)[id] == rows[id]
  {
    PassTouchesIff(rows[id], now, config);
    hide Recoverable, StaleExhausted, Overdue, RetryDue;
    var failed := ExhaustStale(rows, now, now - config.staleAfter, config.maxAttempts);
    assert failed[id] == rows[id];
    assert id !in Candidates(failed, now, now - config.staleAfter, config.maxAttempts);
  }

  /** A version fails in a pass exactly when one of its jobs is given up. */
  lemma ExactlyExhaustedVersionsFail(rows: Table, versions: map<Uuid, VersionStatus>, now: Time, config: RetryConfig, v: Uuid)
    requires v in versions
    ensures MarkFailed(versions, ExhaustedVersions(rows, now - config.staleAfter, config.maxAttempts))[v]
         == if exists id :: id in rows && rows[id].versionId == v && rows[id].status == Processing
                            && AtMost(rows[id].startedAt, now - config.staleAfter) && rows[id].attemptCount >= config.maxAttempts
            then VersionFailed else versions[v]
  {
    hide AtMost;
  }

  /** A bounded pass never passes over an older candidate for a younger one. */
  lemma PassTakesTheOldest(rows: Table, now: Time, config: RetryConfig, batchSize: nat, ids: seq<Uuid>, taken: Uuid,
                           skipped: Uuid)
    requires Listed(rows, now, config, batchSize, ids) && taken in ids && skipped !in ids
    requires var failed := ExhaustStale(rows, now, now - config.staleAfter, config.maxAttempts);
             skipped in Candidates(failed, now, now - config.staleAfter, config.maxAttempts)
    ensures taken in rows && skipped in rows && rows[taken].createdAt <= rows[skipped].createdAt
    ensures |ids| == batchSize
  {
    var failed := ExhaustStale(rows, now, now - config.staleAfter, config.maxAttempts);
    var chosen := Candidates(failed, now, now - config.staleAfter, config.maxAttempts);
    if |chosen| <= batchSize {
      WithinBatch(failed, chosen, batchSize, ids);
    }
  }
}
