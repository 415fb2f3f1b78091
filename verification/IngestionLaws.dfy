/** What holds in every reachable state of the ingestion protocol. */
module IngestionLaws {
  import opened Prelude
  import opened Jobs
  import Reconciliation
  import opened PageWindow
  import opened Embedding
  import opened IngestionSystem

  // ---------------------------------------------------------------- the job row

  /** Attempts are claims plus retries; queued work never exceeds the limit, and reaches it only
      through a retry; so there are never more claims than the limit. */
  ghost predicate JobInvariant(config: RetryConfig, s: System) {
    && s.job.attemptCount == s.claims + s.retries
    && s.claims <= config.maxAttempts
    && s.job.attemptCount <= config.maxAttempts + 1
    && (s.job.status == Queued ==> s.job.attemptCount <= config.maxAttempts)
    && (s.job.attemptCount >= config.maxAttempts && (s.job.status == Queued || s.job.attemptCount > config.maxAttempts)
        ==> s.retries >= 1)
    && Reconciliation.RowInvariant(s.job)
  }

  lemma JobInvariantHolds(env: Env, s: System, e: Event)
    requires env.Valid() && Enabled(env, s, e) && JobInvariant(env.retry, s)
    ensures JobInvariant(env.retry, Next(env, s, e))
  {
    hide Claiming, AfterRecognition, AfterChunking, StoreText, StoreChunks, StoreVectors, ListForEmbedding,
         Finish, Backoff, EmbedFrom, DocumentChunks, Pointwise;
  }

  // ---------------------------------------------------------------- derived data

  /** The stored chunks are exactly what the chunker makes of the stored text. */
  ghost predicate HasChunks(env: Env, store: Store)
    requires env.chunking.Valid()
  {
    && store.text == Some(env.text)
    && |store.chunks| == |DocumentChunks(env.chunking, env.text)|
    && (forall i :: 0 <= i < |store.chunks| ==> store.chunks[i].chunk == DocumentChunks(env.chunking, env.text)[i])
    && (forall i, j :: 0 <= i < j < |store.chunks| ==> store.chunks[i].id != store.chunks[j].id)
  }

  /** Every stored chunk has the vector of its own text, and there are no other vectors. */
  ghost predicate HasVectors(env: Env, store: Store) {
    && (forall i :: 0 <= i < |store.chunks| ==>
          store.chunks[i].id in store.vectors && store.vectors[store.chunks[i].id] == env.embed(store.chunks[i].chunk.text))
    && (forall id :: id in store.vectors ==> exists i :: 0 <= i < |store.chunks| && store.chunks[i].id == id)
  }

  ghost predicate StoreInvariant(env: Env, store: Store)
    requires env.chunking.Valid()
  {
    && (store.text.Some? ==> store.text.value == env.text)
    && (if store.chunksComplete then store.text.Some? && HasChunks(env, store) else store.chunks == [])
    && (if store.vectorsComplete then store.chunksComplete && HasVectors(env, store) else store.vectors == map[])
    && (store.generationReady ==> store.vectorsComplete)
  }

  /** What a worker relies on at each stage is still true in the store, whoever wrote it. */
  ghost predicate WorkerInvariant(env: Env, store: Store, w: Worker) {
    && (w.text.Some? ==> w.text.value == env.text && store.text.Some?)
    && (!w.stage.Parsing? ==> w.text.Some?)
    && (w.chunksComplete ==> store.chunksComplete)
    && (w.vectorsComplete ==> store.vectorsComplete)
    && (w.stage.Listing? || w.stage.EmbeddingStage? || w.stage.Finishing? ==> store.chunksComplete)
    && (w.stage.EmbeddingStage? ==> w.stage.list == ListForEmbedding(store))
    && (w.stage.Finishing? ==> store.vectorsComplete)
  }

  ghost predicate DataInvariant(env: Env, s: System)
    requires env.chunking.Valid()
  {
    && StoreInvariant(env, s.store)
    && (forall w :: w in s.workers ==> WorkerInvariant(env, s.store, s.workers[w]))
    && (s.job.status == Ready ==> s.store.generationReady)
  }

  /** The store only ever grows by checkpoints: what a checkpoint covers stays as it was. */
  ghost predicate Extends(before: Store, after: Store) {
    && (before.text.Some? ==> after.text == before.text)
    && (before.chunksComplete ==> after.chunksComplete && after.chunks == before.chunks)
    && (before.vectorsComplete ==> after.vectorsComplete && after.vectors == before.vectors)
    && (before.generationReady ==> after.generationReady)
  }

  lemma WorkerSurvives(env: Env, before: Store, after: Store, w: Worker)
    requires Extends(before, after) && WorkerInvariant(env, before, w)
    ensures WorkerInvariant(env, after, w)
  {
    assert before.chunks == after.chunks ==> ListForEmbedding(before) == ListForEmbedding(after);
  }

  lemma WritesExtend(s: Store, text: string, ids: seq<Uuid>, chunks: seq<DocumentChunk>, embeddings: seq<ChunkEmbedding>)
    requires |ids| == |chunks|
    ensures Extends(s, s) && Extends(s, StoreText(s, text)) && Extends(s, Finish(s))
    ensures Extends(s, StoreChunks(s, ids, chunks)) && Extends(s, StoreVectors(s, embeddings))
  {
    hide Rows, InsertVectors;
  }

  lemma StepExtends(env: Env, s: System, e: Event)
    requires env.Valid() && Enabled(env, s, e)
    ensures Extends(s.store, Next(env, s, e).store)
  {
    hide Claiming, AfterRecognition, AfterChunking, ListForEmbedding, Backoff, EmbedFrom, DocumentChunks, Pointwise,
         StoreText, StoreChunks, StoreVectors, Finish, Recoverable, StaleExhausted, AfterTransientFailure;
    WritesExtend(s.store, env.text, [], [], []);
    match e.action {
      case Chunk(w, ids) =>
        WritesExtend(s.store, env.text, ids, DocumentChunks(env.chunking, s.workers[w].text.value), []);
      case Embed(w) =>
        WritesExtend(s.store, env.text, [], [], EmbedFrom(s.workers[w].stage.list, 0, env.batchSize, env.provider).value);
      case _ =>
    }
  }

  lemma RowsAreChunks(ids: seq<Uuid>, chunks: seq<DocumentChunk>)
    requires Distinct(ids) && |ids| == |chunks|
    ensures forall i :: 0 <= i < |chunks| ==> Rows(ids, chunks)[i].chunk == chunks[i]
    ensures forall i, j :: 0 <= i < j < |chunks| ==> Rows(ids, chunks)[i].id != Rows(ids, chunks)[j].id
  {
  }

  lemma ChunksAreStored(env: Env, store: Store, ids: seq<Uuid>, chunks: seq<DocumentChunk>)
    requires env.Valid() && StoreInvariant(env, store) && store.text == Some(env.text) && !store.chunksComplete
    requires chunks == DocumentChunks(env.chunking, env.text) && Distinct(ids) && |ids| == |chunks|
    ensures StoreInvariant(env, StoreChunks(store, ids, chunks))
  {
    hide DocumentChunks, Rows, HasVectors, Distinct, Pointwise;
    RowsAreChunks(ids, chunks);
    assert StoreChunks(store, ids, chunks).chunks == Rows(ids, chunks);
  }

  /** Inserting each chunk's own vector into a map that conflicts with none of them. */
  lemma {:induction false} InsertGives(vectors: map<Uuid, Vector>, embeddings: seq<ChunkEmbedding>)
    requires forall i, j :: 0 <= i < j < |embeddings| ==> embeddings[i].chunkId != embeddings[j].chunkId
    requires forall i :: 0 <= i < |embeddings| ==> embeddings[i].chunkId !in vectors
    ensures var after := InsertVectors(vectors, embeddings);
            && (forall id :: id in vectors ==> id in after && after[id] == vectors[id])
            && (forall i :: 0 <= i < |embeddings| ==>
                embeddings[i].chunkId in after && after[embeddings[i].chunkId] == embeddings[i].values)
            && (forall id :: id in after ==>
                id in vectors || exists i :: 0 <= i < |embeddings| && embeddings[i].chunkId == id)
    decreases |embeddings|
  {
    if embeddings != [] {
      var e := embeddings[0];
      var inserted := vectors[e.chunkId := e.values];
      InsertGives(inserted, embeddings[1..]);
      var after := InsertVectors(vectors, embeddings);
      forall id | id in after ensures id in vectors || exists i :: 0 <= i < |embeddings| && embeddings[i].chunkId == id {
        if id !in inserted {
          var i :| 0 <= i < |embeddings[1..]| && embeddings[1..][i].chunkId == id;
          assert embeddings[i + 1].chunkId == id;
        } else if id == e.chunkId {
          assert embeddings[0].chunkId == id;
        }
      }
    }
  }

  lemma VectorsAreStored(env: Env, store: Store)
    requires env.Valid() && StoreInvariant(env, store) && store.chunksComplete && !store.vectorsComplete
    ensures EmbedFrom(ListForEmbedding(store), 0, env.batchSize, env.provider).Ok?
    ensures StoreInvariant(env,
                           StoreVectors(store, EmbedFrom(ListForEmbedding(store), 0, env.batchSize, env.provider).value))
  {
    hide DocumentChunks, EmbedFrom, Pointwise, InsertVectors;
    var list := ListForEmbedding(store);
    BatchingIsInvisible(list, 0, env.batchSize, env.provider, env.embed);
    var embeddings := EmbedFrom(list, 0, env.batchSize, env.provider).value;
    assert list[0..] == list;
    assert forall i :: 0 <= i < |embeddings| ==>
      embeddings[i] == ChunkEmbedding(store.chunks[i].id, env.embed(store.chunks[i].chunk.text));
    InsertGives(store.vectors, embeddings);
    var after := StoreVectors(store, embeddings);
    assert HasVectors(env, after) by {
      forall i | 0 <= i < |after.chunks|
        ensures after.chunks[i].id in after.vectors
            && after.vectors[after.chunks[i].id] == env.embed(after.chunks[i].chunk.text) {
        assert embeddings[i].chunkId == after.chunks[i].id;
      }
      forall id | id in after.vectors ensures exists i :: 0 <= i < |after.chunks| && after.chunks[i].id == id {
        var i :| 0 <= i < |embeddings| && embeddings[i].chunkId == id;
        assert after.chunks[i].id == id;
      }
    }
  }

  lemma StoreInvariantHolds(env: Env, s: System, e: Event)
    requires env.Valid() && Enabled(env, s, e) && DataInvariant(env, s)
    ensures StoreInvariant(env, Next(env, s, e).store)
  {
    hide Claiming, AfterRecognition, AfterChunking, Backoff, EmbedFrom, DocumentChunks, Pointwise, InsertVectors,
         Recoverable, StaleExhausted, Rows, AfterTransientFailure, HasChunks, HasVectors;
    match e.action {
      case Chunk(w, ids) =>
        if !s.store.chunksComplete {
          ChunksAreStored(env, s.store, ids, DocumentChunks(env.chunking, env.text));
        }
      case Embed(w) =>
        if !s.store.vectorsComplete {
          VectorsAreStored(env, s.store);
        }
      case _ =>
        StepExtends(env, s, e);
        SameData(env, s.store, Next(env, s, e).store);
    }
  }

  /** Chunks and vectors depend on nothing but their own columns and the text. */
  lemma SameData(env: Env, a: Store, b: Store)
    requires env.chunking.Valid() && a.chunks == b.chunks && a.vectors == b.vectors && StoreInvariant(env, a)
    ensures a.text == b.text && a.chunksComplete ==> HasChunks(env, b)
    ensures a.vectorsComplete ==> HasVectors(env, b)
  {
    hide DocumentChunks;
  }

  lemma DataInvariantHolds(env: Env, s: System, e: Event)
    requires env.Valid() && Enabled(env, s, e) && DataInvariant(env, s)
    ensures DataInvariant(env, Next(env, s, e))
  {
    StoreInvariantHolds(env, s, e);
    StepExtends(env, s, e);
    var s' := Next(env, s, e);
    forall w | w in s'.workers ensures WorkerInvariant(env, s'.store, s'.workers[w]) {
      if w in s.workers && s'.workers[w] == s.workers[w] {
        WorkerSurvives(env, s.store, s'.store, s.workers[w]);
      } else {
        MovedWorker(env, s, e, w);
      }
    }
    ReadyMeansReady(env, s, e);
  }

  lemma ReadyMeansReady(env: Env, s: System, e: Event)
    requires env.Valid() && Enabled(env, s, e) && (s.job.status == Ready ==> s.store.generationReady)
    ensures Next(env, s, e).job.status == Ready ==> Next(env, s, e).store.generationReady
  {
    hide Claiming, AfterRecognition, AfterChunking, ListForEmbedding, Backoff, EmbedFrom, DocumentChunks, Pointwise,
         Recoverable, StaleExhausted, StoreText, StoreChunks, StoreVectors, Extends;
    if s.store.generationReady {
      StepKeepsReady(env, s, e);
    }
  }

  lemma StepKeepsReady(env: Env, s: System, e: Event)
    requires env.Valid() && Enabled(env, s, e) && s.store.generationReady
    ensures Next(env, s, e).store.generationReady
  {
    hide DocumentChunks, EmbedFrom, Next, Enabled;
    StepExtends(env, s, e);
  }

  ghost predicate MovesWorker(a: Action) {
    a.Deliver? || a.Parse? || a.Recognize? || a.Chunk? || a.List? || a.Embed?
  }

  lemma MovedIsActing(env: Env, s: System, e: Event, w: nat)
    requires env.chunking.Valid() && Enabled(env, s, e)
    requires w in Next(env, s, e).workers && (w in s.workers ==> Next(env, s, e).workers[w] != s.workers[w])
    ensures MovesWorker(e.action) && e.action.worker == w
  {
    hide EmbedFrom, DocumentChunks, StoreText, StoreChunks, StoreVectors, ListForEmbedding, AfterTransientFailure,
         Recoverable, StaleExhausted, Claiming, AfterRecognition, AfterChunking;
  }

  lemma ClaimingWorker(env: Env, store: Store, at: Time, version: VersionStatus)
    requires env.chunking.Valid() && StoreInvariant(env, store)
    ensures WorkerInvariant(env, store.(version := version), Claiming(store, at))
  {
    hide HasChunks, HasVectors, DocumentChunks, ListForEmbedding;
  }

  lemma DeliveredWorker(env: Env, s: System, e: Event)
    requires env.chunking.Valid() && Enabled(env, s, e) && DataInvariant(env, s) && e.action.Deliver?
    requires e.action.worker in Next(env, s, e).workers
    ensures WorkerInvariant(env, Next(env, s, e).store, Next(env, s, e).workers[e.action.worker])
  {
    hide StoreInvariant, WorkerInvariant, Claiming, DocumentChunks;
    ClaimingWorker(env, s.store, e.at, VersionProcessing);
  }

  lemma ParsedWorker(env: Env, s: System, e: Event)
    requires env.chunking.Valid() && Enabled(env, s, e) && DataInvariant(env, s) && (e.action.Parse? || e.action.Recognize?)
    ensures WorkerInvariant(env, Next(env, s, e).store, Next(env, s, e).workers[e.action.worker])
  {
    assert WorkerInvariant(env, s.store, s.workers[e.action.worker]);
    hide DataInvariant, DocumentChunks, ListForEmbedding;
  }

  lemma ChunkedWorker(env: Env, s: System, e: Event)
    requires env.chunking.Valid() && Enabled(env, s, e) && DataInvariant(env, s) && e.action.Chunk?
    ensures WorkerInvariant(env, Next(env, s, e).store, Next(env, s, e).workers[e.action.worker])
  {
    assert WorkerInvariant(env, s.store, s.workers[e.action.worker]);
    hide DataInvariant, DocumentChunks, ListForEmbedding, Rows;
  }

  lemma EmbeddedWorker(env: Env, s: System, e: Event)
    requires env.chunking.Valid() && Enabled(env, s, e) && DataInvariant(env, s) && (e.action.List? || e.action.Embed?)
    ensures WorkerInvariant(env, Next(env, s, e).store, Next(env, s, e).workers[e.action.worker])
  {
    assert WorkerInvariant(env, s.store, s.workers[e.action.worker]);
    hide DataInvariant, DocumentChunks, ListForEmbedding, InsertVectors, EmbedFrom;
  }

  /** A worker that took a step stands on what the store now holds. */
  lemma MovedWorker(env: Env, s: System, e: Event, w: nat)
    requires env.Valid() && Enabled(env, s, e) && DataInvariant(env, s)
    requires w in Next(env, s, e).workers && (w in s.workers ==> Next(env, s, e).workers[w] != s.workers[w])
    ensures WorkerInvariant(env, Next(env, s, e).store, Next(env, s, e).workers[w])
  {
    hide Next, Enabled, DataInvariant, WorkerInvariant;
    MovedIsActing(env, s, e, w);
    if e.action.Deliver? {
      DeliveredWorker(env, s, e);
    } else if e.action.Parse? || e.action.Recognize? {
      ParsedWorker(env, s, e);
    } else if e.action.Chunk? {
      ChunkedWorker(env, s, e);
    } else {
      EmbeddedWorker(env, s, e);
    }
  }

  // ---------------------------------------------------------------- every run

  ghost predicate Invariant(env: Env, s: System)
    requires env.chunking.Valid()
  {
    JobInvariant(env.retry, s) && DataInvariant(env, s)
  }

  lemma {:induction false} RunKeepsInvariant(env: Env, s: System, events: seq<Event>)
    requires env.Valid() && Invariant(env, s) && Legal(env, s, events)
    ensures Invariant(env, Run(env, s, events))
    decreases |events|
  {
    if events != [] {
      JobInvariantHolds(env, s, events[0]);
      DataInvariantHolds(env, s, events[0]);
      RunKeepsInvariant(env, Next(env, s, events[0]), events[1..]);
    }
  }

  lemma {:induction false} InitialInvariant(env: Env, versionId: Uuid, at: Time)
    requires env.Valid()
    ensures Invariant(env, Initial(versionId, at))
  {
    hide DocumentChunks, Pointwise;
  }

  /** How many deliveries of a run found the job queued and so ran it. */
  function ClaimsIn(env: Env, s: System, events: seq<Event>): nat
    requires env.chunking.Valid() && Legal(env, s, events)
    decreases |events|
  {
    if events == [] then 0
    else (if events[0].action.Deliver? && s.job.status == Queued then 1 else 0)
         + ClaimsIn(env, Next(env, s, events[0]), events[1..])
  }

  lemma {:induction false} ClaimsAreCounted(env: Env, s: System, events: seq<Event>)
    requires env.Valid() && Legal(env, s, events)
    ensures Run(env, s, events).claims == s.claims + ClaimsIn(env, s, events)
    decreases |events|
  {
    if events != [] {
      ClaimsAreCounted(env, Next(env, s, events[0]), events[1..]);
      OneStepCounts(env, s, events[0]);
    }
  }

  lemma OneStepCounts(env: Env, s: System, e: Event)
    requires env.Valid() && Enabled(env, s, e)
    ensures Next(env, s, e).claims == s.claims + if e.action.Deliver? && s.job.status == Queued then 1 else 0
  {
    hide DocumentChunks, EmbedFrom, Pointwise;
  }

  /** In every interleaving, a job runs at most `maxAttempts` times, and its attempt counter is the
      number of runs plus the number of scheduled retries. */
  lemma ClaimsAreBounded(env: Env, versionId: Uuid, at: Time, events: seq<Event>)
    requires env.Valid() && Legal(env, Initial(versionId, at), events)
    ensures ClaimsIn(env, Initial(versionId, at), events) <= env.retry.maxAttempts
    ensures var s := Run(env, Initial(versionId, at), events);
            s.job.attemptCount == ClaimsIn(env, Initial(versionId, at), events) + s.retries
  {
    InitialInvariant(env, versionId, at);
    RunKeepsInvariant(env, Initial(versionId, at), events);
    ClaimsAreCounted(env, Initial(versionId, at), events);
  }

  /** In every interleaving, a generation marked ready has both checkpoints, holds exactly the
      chunker's output on the stored text, and a vector for each chunk: that of its own text. So it is
      for every job reported ready. */
  lemma ReadyGenerationIsComplete(env: Env, versionId: Uuid, at: Time, events: seq<Event>)
    requires env.Valid() && Legal(env, Initial(versionId, at), events)
    ensures var s := Run(env, Initial(versionId, at), events);
            && (s.job.status == Ready ==> s.store.generationReady)
            && (s.store.generationReady ==>
                  && s.store.chunksComplete && s.store.vectorsComplete
                  && HasChunks(env, s.store) && HasVectors(env, s.store))
  {
    InitialInvariant(env, versionId, at);
    RunKeepsInvariant(env, Initial(versionId, at), events);
    hide HasChunks, HasVectors, Run, Legal;
  }

  /** Once a checkpoint is durable, no later step of any worker changes what it covers. */
  lemma {:induction false} CheckpointsAreFinal(env: Env, s: System, events: seq<Event>)
    requires env.Valid() && Legal(env, s, events)
    ensures Extends(s.store, Run(env, s, events).store)
    decreases |events|
  {
    if events != [] {
      StepExtends(env, s, events[0]);
      CheckpointsAreFinal(env, Next(env, s, events[0]), events[1..]);
    }
  }

  // ---------------------------------------------------------------- scheduled retries

  /** A transient failure schedules the job's next attempt after its backoff, in every state. */
  lemma FailureSchedulesRetry(env: Env, s: System, e: Event)
    requires env.chunking.Valid() && Enabled(env, s, e) && e.action.TransientFailure?
    requires env.retry.multiplier >= 1.0 && 0.0 <= env.retry.jitterFactor <= 1.0
    requires JitterInRange(env.retry, s.job.attemptCount, e.action.jitter)
    ensures RetryWaits(s.job, Next(env, s, e).job, env.retry, e.at)
  {
    hide DocumentChunks, AfterTransientFailure, RetryWaits, JitterInRange;
    TransientFailureWaits(s.job, env.retry, e.action.jitter, e.at);
  }

  /** A pass within the shortest wait leaves that retry alone, unless its publication is stale. */
  lemma EarlyPassLeavesTheRetry(env: Env, s: System, failure: Event, pass: Event)
    requires env.chunking.Valid() && Enabled(env, s, failure) && failure.action.TransientFailure?
    requires env.retry.multiplier >= 1.0 && 0.0 <= env.retry.jitterFactor <= 1.0
    requires JitterInRange(env.retry, s.job.attemptCount, failure.action.jitter) && s.job.attemptCount < env.retry.maxAttempts
    requires pass.action.Recover? && Enabled(env, Next(env, s, failure), pass)
    requires s.job.enqueuedAt.Some? && s.job.enqueuedAt.value > pass.action.passTime - env.retry.staleAfter
    requires (pass.action.passTime - failure.at) as real
             < (BaseBackoff(env.retry, s.job.attemptCount) * SECOND) as real * (1.0 - env.retry.jitterFactor)
    ensures Next(env, Next(env, s, failure), pass).job == Next(env, s, failure).job
  {
    var after := Next(env, s, failure);
    FailureSchedulesRetry(env, s, failure);
    assert after.job.enqueuedAt == s.job.enqueuedAt;
    RetryIsRecoveredWhenDue(s.job, after.job, env.retry, failure.at, pass.action.passTime);
    hide DocumentChunks, RetryWaits, BaseBackoff, JitterInRange, Recoverable;
    UnrecoveredStays(env, after, pass);
  }

  lemma UnrecoveredStays(env: Env, s: System, e: Event)
    requires env.chunking.Valid() && e.action.Recover? && Enabled(env, s, e)
    requires !Recoverable(s.job, e.action.passTime, e.action.passTime - env.retry.staleAfter, env.retry.maxAttempts)
    ensures Next(env, s, e).job == s.job
  {
    hide DocumentChunks, Recoverable;
  }
}
