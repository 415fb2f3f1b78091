/** The ingestion protocol for one document version: its durable job, its derived data, and any
    number of workers, with every transaction as one atomic step and every interleaving of steps. */
module IngestionSystem {
  import opened Prelude
  import opened Jobs
  import opened PageWindow
  import opened Embedding

  /** What is fixed for the version: the text the parser yields on the stored original, the chunking
      and embedding profile, and the retry limits. The parser is deterministic, the embedder pointwise. */
  datatype Env = Env(text: string, chunking: Config, embed: string -> Vector, provider: Provider, batchSize: nat,
                     retry: RetryConfig) {
    ghost predicate Valid() {
      chunking.Valid() && batchSize > 0 && Pointwise(provider, embed) && retry.maxAttempts >= 1
    }
  }

  // ---------------------------------------------------------------- derived data of the version

  datatype ChunkRow = ChunkRow(id: Uuid, chunk: DocumentChunk)

  /** The rows a version owns. The `…Complete` flags are the durable checkpoints. */
  datatype Store = Store(
    text: Option<string>, nerComplete: bool,
    chunksComplete: bool, chunks: seq<ChunkRow>,
    vectorsComplete: bool, vectors: map<Uuid, Vector>,
    generationReady: bool, version: VersionStatus)

  const EMPTY_STORE := Store(None, false, false, [], false, map[], false, VersionStored)

  function StoreText(s: Store, text: string): (after: Store)
    ensures after.version == s.version
  {
    if s.text.None? then s.(text := Some(text)) else s
  }

  function Rows(ids: seq<Uuid>, chunks: seq<DocumentChunk>): (rows: seq<ChunkRow>)
    requires |ids| == |chunks|
    ensures |rows| == |chunks|
  {
    seq(|chunks|, i requires 0 <= i < |chunks| => ChunkRow(ids[i], chunks[i]))
  }

  function StoreChunks(s: Store, ids: seq<Uuid>, chunks: seq<DocumentChunk>): (after: Store)
    requires |ids| == |chunks|
    ensures after.version == s.version
  {
    if s.chunksComplete then s else s.(chunks := s.chunks + Rows(ids, chunks), chunksComplete := true)
  }

  /** `list_for_embedding`: the generation's chunks in stable order. */
  function ListForEmbedding(s: Store): (list: seq<ChunkForEmbedding>)
    ensures |list| == |s.chunks|
  {
    seq(|s.chunks|, i requires 0 <= i < |s.chunks| => ChunkForEmbedding(s.chunks[i].id, s.chunks[i].chunk.text))
  }

  /** `INSERT … ON CONFLICT DO NOTHING`. */
  function InsertVectors(vectors: map<Uuid, Vector>, embeddings: seq<ChunkEmbedding>): map<Uuid, Vector>
    decreases |embeddings|
  {
    if embeddings == [] then vectors
    else
      var e := embeddings[0];
      InsertVectors(if e.chunkId in vectors then vectors else vectors[e.chunkId := e.values], embeddings[1..])
  }

  function StoreVectors(s: Store, embeddings: seq<ChunkEmbedding>): Store {
    if s.vectorsComplete then s else s.(vectors := InsertVectors(s.vectors, embeddings), vectorsComplete := true)
  }

  function Finish(s: Store): Store {
    s.(version := VersionReady, generationReady := true)
  }

  // ---------------------------------------------------------------- one worker

  /** Where a worker is in `process`. */
  datatype Stage = Parsing | Recognizing | Chunking | Listing | EmbeddingStage(list: seq<ChunkForEmbedding>) | Finishing

  /** A worker between two transactions: what it read when it claimed, the text it works on, and
      whether it has bound its generation id (which the last step asserts). */
  datatype Worker = Worker(
    claimedAt: Time, text: Option<string>, nerComplete: bool, chunksComplete: bool, vectorsComplete: bool,
    bound: bool, stage: Stage)

  function Claiming(s: Store, at: Time): Worker {
    Worker(at, s.text, s.nerComplete, s.chunksComplete, s.vectorsComplete, false,
           if s.text.None? then Parsing else Recognizing)
  }

  /** Why a claimed job cannot be processed at all: its profile or generation id is missing, the generation
      is missing or of another profile, or the profile cannot be resolved. */
  datatype ProfileFault = ProfileMissing | GenerationMissing | ProfileInvalid

  /** The coordinator records the fault on the job; the version keeps its status. */
  function ProfileFailed(job: Job, fault: ProfileFault, at: Time): (failed: Job)
    ensures failed.status == Failed && failed.errorCategory == Some(Permanent)
    ensures failed.attemptCount == job.attemptCount && failed.startedAt == job.startedAt
  {
    match fault
    case ProfileMissing => FailedWith(job, "processing_profile_missing", at, Permanent, Some("profile_or_generation_missing"))
    case GenerationMissing => FailedWith(job, "index_generation_missing", at, Permanent, Some("profile_resolution_failed"))
    case ProfileInvalid => FailedWith(job, "processing_profile_invalid", at, Permanent, Some("profile_resolution_failed"))
  }

  /** Such a fault shows before the first stage; a worker that has only parsed is let through here too. */
  predicate BeforeStages(w: Worker) {
    !w.bound && (w.stage.Parsing? || w.stage.Recognizing?)
  }

  function AfterRecognition(w: Worker): Worker {
    w.(stage := if !w.chunksComplete then Chunking else if !w.vectorsComplete then Listing else Finishing)
  }

  function AfterChunking(w: Worker): Worker {
    w.(bound := true, stage := if !w.vectorsComplete then Listing else Finishing)
  }

  // ---------------------------------------------------------------- the system

  /** `claims` and `retries` count what has happened so far. */
  datatype System = System(
    clock: Time, job: Job, store: Store, workers: map<nat, Worker>, claims: nat, retries: nat)

  datatype Action =
    | Publish
    | Deliver(worker: nat)
    | Parse(worker: nat)
    | ParseFails(worker: nat)
    | Recognize(worker: nat)
    | RecognizeFails(worker: nat)
    | Chunk(worker: nat, ids: seq<Uuid>)
    | List(worker: nat)
    | Embed(worker: nat)
    | Complete(worker: nat)
    | TransientFailure(worker: nat, jitter: int)
    | ProfileFailure(worker: nat, fault: ProfileFault)
    | Crash(worker: nat)
    | FailStale(passTime: Time)
    | Recover(passTime: Time)

  datatype Event = Event(at: Time, action: Action)

  /** The events a state allows. A worker at its last step without a bound generation id cannot
      complete: its assertion fails, which is a transient failure. */
  predicate Enabled(env: Env, s: System, e: Event)
    requires env.chunking.Valid()
  {
    && s.clock <= e.at
    && match e.action
       case Publish => true
       case Deliver(w) => w !in s.workers
       case Parse(w) => w in s.workers && s.workers[w].stage.Parsing?
       case ParseFails(w) => w in s.workers && s.workers[w].stage.Parsing?
       case Recognize(w) => w in s.workers && s.workers[w].stage.Recognizing?
       case RecognizeFails(w) => w in s.workers && s.workers[w].stage.Recognizing?
       case Chunk(w, ids) =>
         && w in s.workers && s.workers[w].stage.Chunking? && s.workers[w].text.Some?
         && Distinct(ids) && |ids| == |DocumentChunks(env.chunking, s.workers[w].text.value)|
       case List(w) => w in s.workers && s.workers[w].stage.Listing?
       case Embed(w) =>
         && w in s.workers && s.workers[w].stage.EmbeddingStage? && env.batchSize > 0
         && EmbedFrom(s.workers[w].stage.list, 0, env.batchSize, env.provider).Ok?
       case Complete(w) => w in s.workers && s.workers[w].stage.Finishing? && s.workers[w].bound
       case TransientFailure(w, jitter) => w in s.workers
       case ProfileFailure(w, fault) => w in s.workers && BeforeStages(s.workers[w])
       case Crash(w) => w in s.workers
       case FailStale(passTime) => passTime <= e.at
       case Recover(passTime) => passTime <= e.at
  }

  function Next(env: Env, s: System, e: Event): System
    requires env.chunking.Valid() && Enabled(env, s, e)
  {
    var now := s.(clock := e.at);
    match e.action
    case Publish => now.(job := Enqueued(s.job, e.at))
    case Deliver(w) =>
      if s.job.status != Queued then now
      else
        now.(job := Claimed(s.job, e.at), store := s.store.(version := VersionProcessing),
             workers := s.workers[w := Claiming(s.store, e.at)], claims := s.claims + 1)
    case Parse(w) =>
      now.(store := StoreText(s.store, env.text),
           workers := s.workers[w := s.workers[w].(text := Some(env.text), stage := Recognizing)])
    case ParseFails(w) => FailStage(now, w, "document_parsing_failed")
    case Recognize(w) =>
      now.(store := s.store.(nerComplete := true), workers := s.workers[w := AfterRecognition(s.workers[w])])
    case RecognizeFails(w) => FailStage(now, w, if s.workers[w].nerComplete then "ner_metadata_missing" else "ner_failed")
    case Chunk(w, ids) =>
      now.(store := StoreChunks(s.store, ids, DocumentChunks(env.chunking, s.workers[w].text.value)),
           workers := s.workers[w := AfterChunking(s.workers[w])])
    case List(w) =>
      now.(workers := s.workers[w := s.workers[w].(bound := true, stage := EmbeddingStage(ListForEmbedding(s.store)))])
    case Embed(w) =>
      now.(store := StoreVectors(s.store, EmbedFrom(s.workers[w].stage.list, 0, env.batchSize, env.provider).value),
           workers := s.workers[w := s.workers[w].(stage := Finishing)])
    case Complete(w) =>
      now.(job := Completed(s.job, e.at), store := Finish(s.store), workers := s.workers - {w})
    case TransientFailure(w, jitter) =>
      now.(job := AfterTransientFailure(s.job, env.retry, jitter, e.at), workers := s.workers - {w},
           retries := if s.job.attemptCount < env.retry.maxAttempts then s.retries + 1 else s.retries)
    case ProfileFailure(w, fault) => now.(job := ProfileFailed(s.job, fault, e.at), workers := s.workers - {w})
    case Crash(w) => now.(workers := s.workers - {w})
    case FailStale(passTime) =>
      if StaleExhausted(s.job, passTime - env.retry.staleAfter, env.retry.maxAttempts) then
        now.(job := Exhausted(s.job, passTime), store := s.store.(version := VersionFailed))
      else now
    case Recover(passTime) =>
      if Recoverable(s.job, passTime, passTime - env.retry.staleAfter, env.retry.maxAttempts) then
        now.(job := Requeued(s.job))
      else now
  }

  /** `_fail`: the job and its version fail together. */
  function FailStage(s: System, w: nat, code: string): System {
    s.(job := FailedWith(s.job, code, s.clock, Permanent, None), store := s.store.(version := VersionFailed),
       workers := s.workers - {w})
  }

  function Initial(versionId: Uuid, at: Time): System {
    System(at, Created(versionId, at), EMPTY_STORE, map[], 0, 0)
  }

  // ---------------------------------------------------------------- runs

  /** `events` can happen one after another from `s`. */
  predicate Legal(env: Env, s: System, events: seq<Event>)
    requires env.chunking.Valid()
    decreases |events|
  {
    events == [] || (Enabled(env, s, events[0]) && Legal(env, Next(env, s, events[0]), events[1..]))
  }

  function Run(env: Env, s: System, events: seq<Event>): System
    requires env.chunking.Valid() && Legal(env, s, events)
    decreases |events|
  {
    if events == [] then s else Run(env, Next(env, s, events[0]), events[1..])
  }

  lemma {:induction false} RunJoins(env: Env, s: System, a: seq<Event>, b: seq<Event>)
    requires env.chunking.Valid() && Legal(env, s, a) && Legal(env, Run(env, s, a), b)
    ensures Legal(env, s, a + b) && Run(env, s, a + b) == Run(env, Run(env, s, a), b)
    decreases |a|
  {
    if a == [] {
      assert a + b == b;
    } else {
      assert (a + b)[1..] == a[1..] + b;
      RunJoins(env, Next(env, s, a[0]), a[1..], b);
    }
  }
}
