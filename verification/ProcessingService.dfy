/** One worker's pass over a job, stage by stage, as a run of the ingestion protocol. */
module ProcessingService {
  import opened Prelude
  import opened Jobs
  import opened PageWindow
  import opened Embedding
  import opened IngestionSystem
  import opened IngestionLaws

  /** Whether the profile resolves, what the providers do during this pass, and the chunk ids and jitter drawn. */
  datatype Outcome = Outcome(fault: Option<ProfileFault>, parses: bool, recognizes: bool,
                             embeds: bool, ids: nat -> seq<Uuid>, jitter: int) {
    ghost predicate Valid() {
      forall n: nat :: |ids(n)| == n && Distinct(ids(n))
    }
  }

  /** The jitter is a draw for the attempt count the coordinator reads, under a sensible configuration. */
  predicate Draws(config: RetryConfig, job: Job, jitter: int) {
    && config.multiplier >= 1.0 && 0.0 <= config.jitterFactor <= 1.0
    && JitterInRange(config, job.attemptCount, jitter)
  }

  lemma FailureWaits(config: RetryConfig, job: Job, jitter: int, at: Time)
    ensures Draws(config, job, jitter) ==> RetryWaits(job, AfterTransientFailure(job, config, jitter, at), config, at)
  {
    hide RetryWaits, AfterTransientFailure;
    if Draws(config, job, jitter) {
      TransientFailureWaits(job, config, jitter, at);
    }
  }

  /** A stage failed for good: so does the job, with that code. */
  ghost predicate FailedAt(before: Job, after: Job, code: string, at: Time) {
    after == before.(status := Failed, errorCode := Some(code), finishedAt := Some(at), errorCategory := Some(Permanent),
                     failureReason := None)
  }

  /** What one pass makes of a claimed job: the first failing stage decides, and without one it is ready.
      A worker that has nothing left to do but the last step cannot do that step. */
  ghost predicate Concludes(claimed: Job, after: Job, store: Store, outcome: Outcome, config: RetryConfig, at: Time) {
    if store.text.None? && !outcome.parses then FailedAt(claimed, after, "document_parsing_failed", at)
    else if !store.nerComplete && !outcome.recognizes then FailedAt(claimed, after, "ner_failed", at)
    else if (!store.vectorsComplete && !outcome.embeds) || (store.chunksComplete && store.vectorsComplete) then
      Draws(config, claimed, outcome.jitter) ==> RetryWaits(claimed, after, config, at)
    else after == claimed.(status := Ready, errorCode := None, finishedAt := Some(at))
  }

  /** The version fails with a stage and is ready with the job; while a retry is pending it is processing. */
  ghost predicate VersionFollows(before: Store, after: Store, outcome: Outcome) {
    after.version ==
      if (before.text.None? && !outcome.parses) || (!before.nerComplete && !outcome.recognizes) then VersionFailed
      else if (!before.vectorsComplete && !outcome.embeds) || (before.chunksComplete && before.vectorsComplete) then
        VersionProcessing
      else VersionReady
  }

  /** The service and the rows it works on, at one reading of the clock. `trace` is the protocol run
      so far, from `origin` to `system`. */
  class ProcessingService {
    const env: Env
    const at: Time
    var job: Job
    var store: Store
    ghost var origin: System
    ghost var system: System
    ghost var trace: seq<Event>

    ghost predicate Valid()
      reads this
    {
      && env.Valid()
      && system.job == job && system.store == store && system.clock == at
      && Legal(env, origin, trace) && Run(env, origin, trace) == system && DataInvariant(env, system)
    }

    /** The pass is at the point where its only worker is `w`. */
    ghost predicate At(w: Worker)
      reads this
    {
      Valid() && system.workers == map[0 := w]
    }

    constructor (env: Env, job: Job, store: Store, at: Time)
      requires env.Valid() && StoreInvariant(env, store) && (job.status == Ready ==> store.generationReady)
      ensures Valid() && this.job == job && this.store == store && this.env == env && this.at == at
      ensures trace == [] && origin == system == System(at, job, store, map[], 0, 0)
    {
      this.env := env;
      this.at := at;
      this.job := job;
      this.store := store;
      this.origin := System(at, job, store, map[], 0, 0);
      this.system := System(at, job, store, map[], 0, 0);
      this.trace := [];
    }

    ghost method Record(action: Action)
      requires env.Valid() && Legal(env, origin, trace) && Run(env, origin, trace) == system
      requires DataInvariant(env, system) && Enabled(env, system, Event(at, action))
      modifies this`system, this`trace
      ensures system == Next(env, old(system), Event(at, action)) && trace == old(trace) + [Event(at, action)]
      ensures Legal(env, origin, trace) && Run(env, origin, trace) == system && DataInvariant(env, system)
    {
      hide Enabled, Next, DataInvariant;
      DataInvariantHolds(env, system, Event(at, action));
      var e := Event(at, action);
      assert Legal(env, Next(env, system, e), []);
      assert Legal(env, system, [e]) && Run(env, system, [e]) == Next(env, system, e);
      RunJoins(env, origin, trace, [e]);
      trace := trace + [e];
      system := Next(env, system, e);
    }

    method ParseStage(w: Worker, parses: bool) returns (ok: bool, next: Worker)
      requires At(w) && w.stage.Parsing?
      modifies this
      ensures Valid() && origin == old(origin) && ok == parses
      ensures ok ==> At(next) && next == w.(text := Some(env.text), stage := Recognizing)
      ensures ok ==> job == old(job) && store == StoreText(old(store), env.text)
      ensures !ok ==> job == FailedWith(old(job), "document_parsing_failed", at, Permanent, None)
      ensures !ok ==> store == old(store).(version := VersionFailed)
    {
      hide Legal, Run, DocumentChunks, Pointwise, DataInvariant;
      ok, next := parses, w;
      if !parses {
        job := FailedWith(job, "document_parsing_failed", at, Permanent, None);
        store := store.(version := VersionFailed);
        Record(ParseFails(0));
        return;
      }
      if store.text.None? {
        store := store.(text := Some(env.text));
      }
      next := w.(text := Some(env.text), stage := Recognizing);
      Record(Parse(0));
      assert system.workers == map[0 := next];
    }

    method RecognizeStage(w: Worker, recognizes: bool) returns (ok: bool, next: Worker)
      requires At(w) && w.stage.Recognizing?
      modifies this
      ensures Valid() && origin == old(origin) && ok == (w.nerComplete || recognizes)
      ensures ok ==> At(next) && next == AfterRecognition(w)
      ensures ok ==> job == old(job) && store == old(store).(nerComplete := true)
      ensures !ok ==> job == FailedWith(old(job), "ner_failed", at, Permanent, None)
      ensures !ok ==> store == old(store).(version := VersionFailed)
    {
      hide Legal, Run, DocumentChunks, Pointwise, DataInvariant;
      ok, next := w.nerComplete || recognizes, w;
      if !ok {
        job := FailedWith(job, "ner_failed", at, Permanent, None);
        store := store.(version := VersionFailed);
        Record(RecognizeFails(0));
        return;
      }
      store := store.(nerComplete := true);
      next := AfterRecognition(w);
      Record(Recognize(0));
      assert system.workers == map[0 := next];
    }

    method ChunkStage(w: Worker, ids: nat -> seq<Uuid>) returns (next: Worker)
      requires At(w) && w.stage.Chunking? && w.text.Some?
      requires forall n: nat :: |ids(n)| == n && Distinct(ids(n))
      modifies this
      ensures At(next) && origin == old(origin) && next == AfterChunking(w) && job == old(job)
      ensures var chunks := DocumentChunks(env.chunking, w.text.value);
              store == StoreChunks(old(store), ids(|chunks|), chunks)
    {
      hide Legal, Run, DocumentChunks, Pointwise, DataInvariant;
      var chunker := new PageWindowDocumentChunker(env.chunking);
      var chunks := chunker.Chunk(w.text.value);
      var rowIds := ids(|chunks|);
      store := StoreChunks(store, rowIds, chunks);
      next := AfterChunking(w);
      Record(Chunk(0, rowIds));
      assert system.workers == map[0 := next];
    }

    method ListStage(w: Worker) returns (next: Worker)
      requires At(w) && w.stage.Listing?
      modifies this
      ensures At(next) && origin == old(origin) && job == old(job) && store == old(store)
      ensures next == w.(bound := true, stage := EmbeddingStage(ListForEmbedding(store)))
    {
      hide Legal, Run, DocumentChunks, Pointwise, DataInvariant, ListForEmbedding;
      next := w.(bound := true, stage := EmbeddingStage(ListForEmbedding(store)));
      Record(List(0));
      assert system.workers == map[0 := next];
    }

    method EmbedStage(w: Worker, embeds: bool, jitter: int) returns (ok: bool, next: Worker)
      requires At(w) && w.stage.EmbeddingStage?
      modifies this
      ensures Valid() && origin == old(origin) && ok == embeds
      ensures ok ==> At(next) && next == w.(stage := Finishing) && job == old(job)
      ensures ok ==> EmbedFrom(w.stage.list, 0, env.batchSize, env.provider).Ok?
                     && store == StoreVectors(old(store), EmbedFrom(w.stage.list, 0, env.batchSize, env.provider).value)
      ensures !ok ==> job == AfterTransientFailure(old(job), env.retry, jitter, at) && store == old(store)
      ensures !ok && Draws(env.retry, old(job), jitter) ==> RetryWaits(old(job), job, env.retry, at)
    {
      hide Legal, Run, DocumentChunks, DataInvariant, AfterTransientFailure, StoreVectors, EmbedFrom, Pointwise,
          RetryWaits, Draws;
      ok, next := embeds, w.(stage := Finishing);
      if !embeds {
        FailureWaits(env.retry, job, jitter, at);
        job := AfterTransientFailure(job, env.retry, jitter, at);
        Record(TransientFailure(0, jitter));
        return;
      }
      BatchingIsInvisible(w.stage.list, 0, env.batchSize, env.provider, env.embed);
      var embeddings := EmbedChunks(w.stage.list, env.batchSize, env.provider);
      store := StoreVectors(store, embeddings.value);
      Record(Embed(0));
      assert system.workers == map[0 := next];
    }

    method LastStage(w: Worker, jitter: int)
      requires At(w) && w.stage.Finishing?
      modifies this
      ensures Valid() && origin == old(origin)
      ensures w.bound ==> job == Completed(old(job), at) && store == old(store).(version := VersionReady, generationReady := true)
      ensures !w.bound ==> job == AfterTransientFailure(old(job), env.retry, jitter, at) && store == old(store)
      ensures !w.bound && Draws(env.retry, old(job), jitter) ==> RetryWaits(old(job), job, env.retry, at)
    {
      hide Legal, Run, DocumentChunks, Pointwise, DataInvariant, AfterTransientFailure, RetryWaits, Draws;
      if w.bound {
        job := Completed(job, at);
        store := store.(version := VersionReady, generationReady := true);
        Record(Complete(0));
      } else {
        FailureWaits(env.retry, job, jitter, at);
        job := AfterTransientFailure(job, env.retry, jitter, at);
        Record(TransientFailure(0, jitter));
      }
    }

    /** The claimed job cannot be processed at all: the job fails, its version keeps its status. */
    method RejectProfile(w: Worker, fault: ProfileFault)
      requires At(w) && BeforeStages(w)
      modifies this
      ensures Valid() && origin == old(origin) && job == ProfileFailed(old(job), fault, at) && store == old(store)
      ensures job == old(job).(status := Failed, finishedAt := Some(at), errorCategory := Some(Permanent),
                               errorCode := job.errorCode, failureReason := job.failureReason)
      ensures job.errorCode == Some(if fault.ProfileMissing? then "processing_profile_missing"
                                    else if fault.GenerationMissing? then "index_generation_missing"
                                    else "processing_profile_invalid")
      ensures job.failureReason == Some(if fault.ProfileMissing? then "profile_or_generation_missing"
                                        else "profile_resolution_failed")
    {
      hide Legal, Run, DocumentChunks, Pointwise, DataInvariant;
      job := ProfileFailed(job, fault, at);
      Record(ProfileFailure(0, fault));
    }

    /** Processes one delivery without interference. What it does is one legal run of the protocol. It
        leaves a queued job READY exactly when its profile resolves, every provider it still needs succeeds
        and at least one checkpoint was missing; then the generation is ready, with the chunker's output on
        the stored text and each chunk's own vector. Resuming with both checkpoints set goes to the retry path. */
    method Process(outcome: Outcome)
      requires Valid() && outcome.Valid() && system.workers == map[]
      modifies this
      ensures Valid() && origin == old(origin)
      ensures old(job).status != Queued ==> job == old(job) && store == old(store)
      ensures old(job).status == Queued ==>
        (job.status == Ready <==>
          && outcome.fault.None?
          && (old(store).text.Some? || outcome.parses)
          && (old(store).nerComplete || outcome.recognizes)
          && (old(store).vectorsComplete || outcome.embeds)
          && !(old(store).chunksComplete && old(store).vectorsComplete))
      ensures old(job).status == Queued && old(store).text.Some? && old(store).nerComplete
              && old(store).chunksComplete && old(store).vectorsComplete && outcome.fault.None? ==>
        job == AfterTransientFailure(Claimed(old(job), at), env.retry, outcome.jitter, at)
      ensures old(job).status == Queued && outcome.fault.Some? ==>
        && job == ProfileFailed(Claimed(old(job), at), outcome.fault.value, at)
        && store == old(store).(version := VersionProcessing)
      ensures job.status == Ready ==> store.generationReady && HasChunks(env, store) && HasVectors(env, store)
      ensures old(job).status == Queued && outcome.fault.None? ==>
                var claimed := old(job).(status := Processing, startedAt := Some(at), nextRetryAt := None,
                                         attemptCount := old(job).attemptCount + 1);
                && Concludes(claimed, job, old(store), outcome, env.retry, at)
                && VersionFollows(old(store), store, outcome)
    {
      hide FailedAt, Legal, Run, DocumentChunks, Pointwise, HasChunks, HasVectors, WorkerInvariant, RetryWaits, Draws;
      if job.status != Queued {
        return;
      }
      var w := Claiming(store, at);
      job := Claimed(job, at);
      store := store.(version := VersionProcessing);
      Record(Deliver(0));
      assert system.workers == map[0 := w];
      if outcome.fault.Some? {
        RejectProfile(w, outcome.fault.value);
      } else {
        RunStages(w, outcome);
      }
    }

    /** From the claim on: the stages the worker still owes, then completion. */
    method RunStages(claimed: Worker, outcome: Outcome)
      requires At(claimed) && outcome.Valid() && !claimed.bound && job.status == Processing
      requires claimed.stage == if claimed.text.None? then Parsing else Recognizing
      requires store.version == VersionProcessing && claimed.text == store.text && claimed.nerComplete == store.nerComplete
      requires claimed.chunksComplete == store.chunksComplete && claimed.vectorsComplete == store.vectorsComplete
      modifies this
      ensures Valid() && origin == old(origin)
      ensures job.status == Ready <==>
          && (claimed.text.Some? || outcome.parses)
          && (claimed.nerComplete || outcome.recognizes)
          && (claimed.vectorsComplete || outcome.embeds)
          && !(claimed.chunksComplete && claimed.vectorsComplete)
      ensures claimed.text.Some? && claimed.nerComplete && claimed.chunksComplete && claimed.vectorsComplete ==>
                job == AfterTransientFailure(old(job), env.retry, outcome.jitter, at)
      ensures job.status == Ready ==> store.generationReady && HasChunks(env, store) && HasVectors(env, store)
      ensures Concludes(old(job), job, old(store), outcome, env.retry, at) && VersionFollows(old(store), store, outcome)
    {
      hide Legal, Run, DocumentChunks, Pointwise, HasChunks, HasVectors, WorkerInvariant, StoreText, StoreChunks, StoreVectors,
          RetryWaits, Draws;
      var ok, w := true, claimed;
      if w.stage.Parsing? {
        ok, w := ParseStage(w, outcome.parses);
        if !ok {
          return;
        }
      }
      ok, w := RecognizeStage(w, outcome.recognizes);
      if !ok {
        return;
      }
      if w.stage.Chunking? {
        w := ChunkStage(w, outcome.ids);
      }
      if w.stage.Listing? {
        w := ListStage(w);
        ok, w := EmbedStage(w, outcome.embeds, outcome.jitter);
        if !ok {
          return;
        }
      }
      LastStage(w, outcome.jitter);
    }
  }
}
