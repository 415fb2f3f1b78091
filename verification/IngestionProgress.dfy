/** Which jobs can still become READY: what one faultless delivery does, and exactly which states of the
    ingestion protocol leave no way to finish. */
module IngestionProgress {
  import opened Prelude
  import opened Jobs
  import opened PageWindow
  import opened Embedding
  import opened IngestionSystem
  import opened IngestionLaws

  // ---------------------------------------------------------------- one clean delivery

  /** Whether a worker has bound its generation id depends only on its stage and on the checkpoints
      it read when it claimed. */
  ghost predicate Binding(w: Worker) {
    match w.stage
    case Parsing => !w.bound
    case Recognizing => !w.bound
    case Chunking => !w.bound && !w.chunksComplete
    case Listing => w.bound == !w.chunksComplete && !w.vectorsComplete
    case EmbeddingStage(_) => w.bound && !w.vectorsComplete
    case Finishing => w.bound == !(w.chunksComplete && w.vectorsComplete)
  }

  ghost predicate AllBinding(s: System) {
    forall w :: w in s.workers ==> Binding(s.workers[w])
  }

  lemma BindingIsKept(env: Env, s: System, e: Event)
    requires env.Valid() && Enabled(env, s, e) && AllBinding(s)
    ensures AllBinding(Next(env, s, e))
  {
    hide DocumentChunks, EmbedFrom, Pointwise, StoreText, StoreChunks, StoreVectors, ListForEmbedding,
         AfterTransientFailure;
  }

  lemma {:induction false} RunKeepsBinding(env: Env, s: System, events: seq<Event>)
    requires env.Valid() && Legal(env, s, events) && AllBinding(s)
    ensures AllBinding(Run(env, s, events))
    decreases |events|
  {
    if events != [] {
      BindingIsKept(env, s, events[0]);
      RunKeepsBinding(env, Next(env, s, events[0]), events[1..]);
    }
  }

  /** A successful step of worker `w`. */
  ghost predicate CleanStep(a: Action, w: nat) {
    (a.Parse? || a.Recognize? || a.Chunk? || a.List? || a.Embed? || a.Complete?) && a.worker == w
  }

  ghost predicate CleanSteps(events: seq<Event>, w: nat) {
    forall i :: 0 <= i < |events| ==> CleanStep(events[i].action, w)
  }

  ghost predicate AllAt(events: seq<Event>, at: Time) {
    forall i :: 0 <= i < |events| ==> events[i].at == at
  }

  function StageRank(stage: Stage): nat {
    match stage
    case Parsing => 5
    case Recognizing => 4
    case Chunking => 3
    case Listing => 2
    case EmbeddingStage(_) => 1
    case Finishing => 0
  }

  function FreshIds(n: nat): (ids: seq<Uuid>)
    ensures |ids| == n && Distinct(ids)
  {
    seq(n, i => i)
  }

  /** What a successful step short of the last does: only worker `w` moves, one stage or more on. */
  ghost predicate Moved(s: System, s': System, w: nat)
    requires w in s.workers
  {
    && s'.job == s.job && s'.clock == s.clock && s'.workers.Keys == s.workers.Keys
    && s'.workers[w].chunksComplete == s.workers[w].chunksComplete
    && s'.workers[w].vectorsComplete == s.workers[w].vectorsComplete
    && StageRank(s'.workers[w].stage) < StageRank(s.workers[w].stage)
  }

  lemma CleanStepMoves(env: Env, s: System, e: Event, w: nat)
    requires env.Valid() && Enabled(env, s, e) && CleanStep(e.action, w) && !e.action.Complete? && e.at == s.clock
    ensures w in s.workers && Moved(s, Next(env, s, e), w)
  {
    hide DocumentChunks, Pointwise, EmbedFrom, ListForEmbedding, StoreText, StoreChunks, StoreVectors;
  }

  /** A worker before its last step always has a successful step to take. */
  lemma NextCleanStep(env: Env, s: System, w: nat) returns (e: Event)
    requires env.Valid() && DataInvariant(env, s) && w in s.workers && !s.workers[w].stage.Finishing?
    ensures e.at == s.clock && CleanStep(e.action, w) && !e.action.Complete? && Enabled(env, s, e)
  {
    hide DocumentChunks, Pointwise, EmbedFrom, ListForEmbedding, StoreInvariant;
    assert WorkerInvariant(env, s.store, s.workers[w]);
    match s.workers[w].stage {
      case Parsing => e := Event(s.clock, Parse(w));
      case Recognizing => e := Event(s.clock, Recognize(w));
      case Chunking => e := Event(s.clock, Chunk(w, FreshIds(|DocumentChunks(env.chunking, env.text)|)));
      case Listing => e := Event(s.clock, List(w));
      case EmbeddingStage(list) =>
        BatchingIsInvisible(list, 0, env.batchSize, env.provider, env.embed);
        e := Event(s.clock, Embed(w));
    }
  }

  /** From any reachable state, a worker reaches its last step by successful steps alone. */
  lemma {:induction false} WorkerReachesLastStep(env: Env, s: System, w: nat) returns (events: seq<Event>)
    requires env.Valid() && Invariant(env, s) && AllBinding(s) && w in s.workers
    ensures CleanSteps(events, w) && AllAt(events, s.clock) && Legal(env, s, events)
    ensures var s' := Run(env, s, events);
            && Invariant(env, s') && AllBinding(s') && s'.clock == s.clock && s'.job == s.job && w in s'.workers
            && s'.workers[w].stage.Finishing?
            && s'.workers[w].chunksComplete == s.workers[w].chunksComplete
            && s'.workers[w].vectorsComplete == s.workers[w].vectorsComplete
    decreases StageRank(s.workers[w].stage)
  {
    events := [];
    if !s.workers[w].stage.Finishing? {
      var e := NextCleanStep(env, s, w);
      CleanStepMoves(env, s, e, w);
      JobInvariantHolds(env, s, e);
      DataInvariantHolds(env, s, e);
      BindingIsKept(env, s, e);
      hide DocumentChunks, Enabled, Next, JobInvariant, DataInvariant, AllBinding, CleanSteps, AllAt, Legal, Run;
      var rest := WorkerReachesLastStep(env, Next(env, s, e), w);
      Prepend(env, s, e, rest, w);
      events := [e] + rest;
    }
  }

  lemma Prepend(env: Env, s: System, e: Event, rest: seq<Event>, w: nat)
    requires env.Valid() && Enabled(env, s, e) && e.at == s.clock && CleanStep(e.action, w)
    requires CleanSteps(rest, w) && AllAt(rest, s.clock) && Legal(env, Next(env, s, e), rest)
    ensures CleanSteps([e] + rest, w) && AllAt([e] + rest, s.clock) && Legal(env, s, [e] + rest)
    ensures Run(env, s, [e] + rest) == Run(env, Next(env, s, e), rest)
  {
    hide DocumentChunks, Pointwise, Enabled, Next, CleanStep;
    assert ([e] + rest)[1..] == rest;
  }

  /** A queued job delivered to a new worker whose every step succeeds becomes READY, in the same
      instant, unless both of its checkpoints were already set when the worker claimed it. */
  lemma CleanDeliveryFinishes(env: Env, s: System, w: nat) returns (events: seq<Event>)
    requires env.Valid() && Invariant(env, s) && AllBinding(s)
    requires s.job.status == Queued && w !in s.workers && !(s.store.chunksComplete && s.store.vectorsComplete)
    ensures events != [] && events[0].action == Deliver(w) && CleanSteps(events[1..], w) && AllAt(events, s.clock)
    ensures Legal(env, s, events) && Run(env, s, events).job.status == Ready
  {
    hide DocumentChunks, JobInvariant, DataInvariant, Legal, Run;
    var claim := Event(s.clock, Deliver(w));
    var s1 := Next(env, s, claim);
    assert s1.workers[w] == Claiming(s.store, s.clock);
    JobInvariantHolds(env, s, claim);
    DataInvariantHolds(env, s, claim);
    BindingIsKept(env, s, claim);
    var middle := WorkerReachesLastStep(env, s1, w);
    var s2 := Run(env, s1, middle);
    assert Binding(s2.workers[w]);
    var last := Event(s.clock, Complete(w));
    events := [claim] + (middle + [last]);
    OneEvent(env, s, claim);
    OneEvent(env, s2, last);
    RunJoins(env, s1, middle, [last]);
    RunJoins(env, s, [claim], middle + [last]);
  }

  lemma OneEvent(env: Env, s: System, e: Event)
    requires env.chunking.Valid() && Enabled(env, s, e)
    ensures Legal(env, s, [e]) && Run(env, s, [e]) == Next(env, s, e)
  {
    hide Enabled, Next;
    assert Legal(env, Next(env, s, e), []);
  }

  /** By its own successful steps a worker that read both checkpoints when it claimed changes no status. */
  lemma {:induction false} FullResumeChangesNothing(env: Env, s: System, events: seq<Event>, w: nat)
    requires env.Valid() && AllBinding(s) && Legal(env, s, events) && CleanSteps(events, w)
    requires w in s.workers && s.workers[w].chunksComplete && s.workers[w].vectorsComplete
    ensures Run(env, s, events).job.status == s.job.status
    decreases |events|
  {
    if events != [] {
      var e := events[0];
      BindingIsKept(env, s, e);
      assert CleanStep(e.action, w);
      assert !e.action.Complete?;
      ClockedCleanStep(env, s, e, w);
      FullResumeChangesNothing(env, Next(env, s, e), events[1..], w);
    }
  }

  /** A worker that read both checkpoints when it claimed can never complete the job: in no reachable state
      is that step enabled. */
  lemma FullResumeNeverCompletes(env: Env, versionId: Uuid, at: Time, events: seq<Event>, w: nat, e: Event)
    requires env.Valid() && Legal(env, Initial(versionId, at), events)
    requires var s := Run(env, Initial(versionId, at), events);
             w in s.workers && s.workers[w].chunksComplete && s.workers[w].vectorsComplete
    requires e.action == Complete(w)
    ensures !Enabled(env, Run(env, Initial(versionId, at), events), e)
  {
    hide Legal, Run, DocumentChunks;
    RunKeepsBinding(env, Initial(versionId, at), events);
    assert Binding(Run(env, Initial(versionId, at), events).workers[w]);
  }

  lemma ClockedCleanStep(env: Env, s: System, e: Event, w: nat)
    requires env.Valid() && Enabled(env, s, e) && CleanStep(e.action, w) && !e.action.Complete?
    ensures w in s.workers && Next(env, s, e).job == s.job && w in Next(env, s, e).workers
    ensures Next(env, s, e).workers[w].chunksComplete == s.workers[w].chunksComplete
    ensures Next(env, s, e).workers[w].vectorsComplete == s.workers[w].vectorsComplete
  {
    hide DocumentChunks, Pointwise, EmbedFrom, ListForEmbedding, StoreText, StoreChunks, StoreVectors;
  }

  /** `events` is one delivery to `w` in which nothing fails, and the job ends READY. */
  ghost predicate Finishes(env: Env, s: System, w: nat, events: seq<Event>)
    requires env.Valid()
  {
    && events != [] && events[0].action == Deliver(w) && CleanSteps(events[1..], w)
    && Legal(env, s, events) && Run(env, s, events).job.status == Ready
  }

  /** In every reachable state, a queued job can be finished by one delivery in which nothing fails
      if and only if at least one of its two checkpoints is still missing. */
  lemma DeliveryFinishesIffACheckpointIsMissing(env: Env, versionId: Uuid, at: Time, before: seq<Event>, w: nat)
    requires env.Valid() && Legal(env, Initial(versionId, at), before)
    requires var s := Run(env, Initial(versionId, at), before); s.job.status == Queued && w !in s.workers
    ensures var s := Run(env, Initial(versionId, at), before);
            (exists events :: Finishes(env, s, w, events)) <==> !(s.store.chunksComplete && s.store.vectorsComplete)
  {
    var s := Run(env, Initial(versionId, at), before);
    InitialInvariant(env, versionId, at);
    RunKeepsInvariant(env, Initial(versionId, at), before);
    RunKeepsBinding(env, Initial(versionId, at), before);
    hide DocumentChunks, JobInvariant, DataInvariant, AllBinding;
    if s.store.chunksComplete && s.store.vectorsComplete {
      forall events | Finishes(env, s, w, events) ensures false {
        var e := events[0];
        var s1 := Next(env, s, e);
        assert s1.workers[w] == Claiming(s.store, e.at);
        BindingIsKept(env, s, e);
        FullResumeChangesNothing(env, s1, events[1..], w);
        assert false;
      }
    } else {
      var events := CleanDeliveryFinishes(env, s, w);
      assert Finishes(env, s, w, events);
    }
  }

  // ---------------------------------------------------------------- what a lost worker costs

  /** A pass at the end of the stale threshold requeues a job whose only worker is lost. */
  lemma RecoverAfterLoss(env: Env, s: System) returns (e: Event)
    requires env.Valid() && s.job.status == Processing && s.job.attemptCount < env.retry.maxAttempts
    requires AtMost(s.job.startedAt, s.clock)
    ensures Enabled(env, s, e) && e.action.Recover?
    ensures Next(env, s, e) == s.(clock := s.clock + env.retry.staleAfter, job := Requeued(s.job))
  {
    hide DocumentChunks, Pointwise, EmbedFrom;
    e := Event(s.clock + env.retry.staleAfter, Recover(s.clock + env.retry.staleAfter));
  }

  /** The first claim of a new job. */
  lemma FirstClaim(env: Env, versionId: Uuid, at: Time) returns (claim: Event, s: System)
    requires env.Valid()
    ensures claim.action == Deliver(0)
    ensures Legal(env, Initial(versionId, at), [claim]) && Run(env, Initial(versionId, at), [claim]) == s
    ensures Invariant(env, s) && AllBinding(s) && s.clock == at
    ensures s.job.status == Processing && s.job.startedAt == Some(at) && s.job.attemptCount == 1
    ensures s.workers == map[0 := Claiming(EMPTY_STORE, at)] && s.store == EMPTY_STORE.(version := VersionProcessing)
  {
    var s0 := Initial(versionId, at);
    InitialInvariant(env, versionId, at);
    hide DocumentChunks, Pointwise, EmbedFrom, JobInvariant, DataInvariant, Legal, Run;
    claim := Event(at, Deliver(0));
    s := Next(env, s0, claim);
    JobInvariantHolds(env, s0, claim);
    DataInvariantHolds(env, s0, claim);
    BindingIsKept(env, s0, claim);
    OneEvent(env, s0, claim);
  }

  /** A worker lost between the embedding checkpoint and completion leaves a queued job with both
      checkpoints set and no worker, and nothing that can happen from there makes it READY. */
  lemma LostLastStepStrandsTheJob(env: Env, versionId: Uuid, at: Time) returns (events: seq<Event>)
    requires env.Valid() && env.retry.maxAttempts >= 2
    ensures Legal(env, Initial(versionId, at), events)
    ensures var s := Run(env, Initial(versionId, at), events);
            && s.job.status == Queued && s.store.chunksComplete && s.store.vectorsComplete && s.workers == map[]
            && forall more :: Legal(env, s, more) ==> Run(env, s, more).job.status != Ready
  {
    hide DocumentChunks, JobInvariant, DataInvariant, Legal, Run, Next, Enabled;
    var s0 := Initial(versionId, at);
    var claim, s1 := FirstClaim(env, versionId, at);
    var middle := WorkerReachesLastStep(env, s1, 0);
    var s2 := Run(env, s1, middle);
    LastStepHasBoth(env, s2, 0);
    OnlyOneWorker(env, s1, middle, 0);
    RunJoins(env, s0, [claim], middle);
    var crash := Event(s2.clock, Crash(0));
    CrashLoses(env, s2, 0);
    OneEvent(env, s2, crash);
    RunJoins(env, s0, [claim] + middle, [crash]);
    var s3 := Next(env, s2, crash);
    var recover := RecoverAfterLoss(env, s3);
    OneEvent(env, s3, recover);
    RunJoins(env, s0, [claim] + middle + [crash], [recover]);
    events := [claim] + middle + [crash] + [recover];
    var s := Run(env, s0, events);
    InitialInvariant(env, versionId, at);
    RunKeepsInvariant(env, s0, events);
    RunKeepsBinding(env, s0, events);
    forall more | Legal(env, s, more) ensures Run(env, s, more).job.status != Ready {
      NoWayBack(env, s, more);
    }
  }

  lemma CrashLoses(env: Env, s: System, w: nat)
    requires env.chunking.Valid() && w in s.workers
    ensures var e := Event(s.clock, Crash(w)); Enabled(env, s, e) && Next(env, s, e) == s.(workers := s.workers - {w})
  {
    hide DocumentChunks, EmbedFrom;
  }

  /** A worker's own steps short of completion bring no other worker in. */
  lemma {:induction false} OnlyOneWorker(env: Env, s: System, events: seq<Event>, w: nat)
    requires env.Valid() && Legal(env, s, events) && CleanSteps(events, w) && s.workers.Keys <= {w}
    ensures Run(env, s, events).workers.Keys <= {w}
    decreases |events|
  {
    if events != [] {
      assert CleanStep(events[0].action, w);
      OnlyOneWorkerStep(env, s, events[0], w);
      hide Next, Enabled, CleanStep;
      OnlyOneWorker(env, Next(env, s, events[0]), events[1..], w);
    }
  }

  lemma OnlyOneWorkerStep(env: Env, s: System, e: Event, w: nat)
    requires env.chunking.Valid() && Enabled(env, s, e) && CleanStep(e.action, w) && s.workers.Keys <= {w}
    ensures Next(env, s, e).workers.Keys <= {w}
  {
    hide DocumentChunks, EmbedFrom, StoreText, StoreChunks, StoreVectors, ListForEmbedding;
  }

  lemma LastStepHasBoth(env: Env, s: System, w: nat)
    requires env.Valid() && DataInvariant(env, s) && w in s.workers && s.workers[w].stage.Finishing?
    ensures s.store.chunksComplete && s.store.vectorsComplete
  {
    hide DocumentChunks, HasChunks, HasVectors;
    assert WorkerInvariant(env, s.store, s.workers[w]);
  }

  // ---------------------------------------------------------------- exactly who can still finish

  /** A worker that read a checkpoint as missing can finish whatever the job's status, for nothing in its
      last step looks at it. */
  ghost predicate UsefulWorker(s: System) {
    exists w :: w in s.workers && !(s.workers[w].chunksComplete && s.workers[w].vectorsComplete)
  }

  /** The job is waiting for a worker, or a reconciler pass will make it wait for one. */
  ghost predicate Claimable(env: Env, s: System) {
    s.job.status == Queued || (s.job.status == Processing && s.job.attemptCount < env.retry.maxAttempts)
  }

  ghost predicate BothSet(store: Store) {
    store.chunksComplete && store.vectorsComplete
  }

  ghost predicate CanFinish(env: Env, s: System) {
    s.job.status == Ready || UsefulWorker(s) || (Claimable(env, s) && !BothSet(s.store))
  }

  /** One step leaves a worker's flags as they are, or claims with the store's. */
  lemma FlagsAfter(env: Env, s: System, e: Event, w: nat)
    requires env.chunking.Valid() && Enabled(env, s, e) && w in Next(env, s, e).workers
    ensures var after := Next(env, s, e).workers[w];
            if w in s.workers then
              after.chunksComplete == s.workers[w].chunksComplete && after.vectorsComplete == s.workers[w].vectorsComplete
            else after.chunksComplete == s.store.chunksComplete && after.vectorsComplete == s.store.vectorsComplete
  {
    hide DocumentChunks, EmbedFrom, StoreText, StoreChunks, StoreVectors, ListForEmbedding, AfterTransientFailure,
         Recoverable, StaleExhausted, ProfileFailed, Exhausted, Requeued;
  }

  lemma FullWorkersStay(env: Env, s: System, e: Event)
    requires env.Valid() && Enabled(env, s, e) && !UsefulWorker(s) && BothSet(s.store)
    ensures !UsefulWorker(Next(env, s, e))
  {
    hide Next, Enabled;
    forall w | w in Next(env, s, e).workers
      ensures Next(env, s, e).workers[w].chunksComplete && Next(env, s, e).workers[w].vectorsComplete {
      FlagsAfter(env, s, e, w);
    }
  }

  lemma OnlyUsefulWorkersComplete(env: Env, s: System, e: Event)
    requires env.Valid() && Enabled(env, s, e) && AllBinding(s)
    ensures e.action.Complete? ==> UsefulWorker(s)
  {
    hide DocumentChunks, EmbedFrom;
    if e.action.Complete? {
      assert Binding(s.workers[e.action.worker]);
    }
  }

  ghost predicate IsDataStep(a: Action) {
    a.Parse? || a.Recognize? || a.Chunk? || a.List? || a.Embed? || a.Crash?
  }

  ghost predicate IsFailure(a: Action) {
    a.ParseFails? || a.RecognizeFails? || a.TransientFailure? || a.ProfileFailure?
  }

  lemma DataStepKeepsJob(env: Env, s: System, e: Event)
    requires env.chunking.Valid() && Enabled(env, s, e) && IsDataStep(e.action)
    ensures Next(env, s, e).job == s.job
  {
    hide DocumentChunks, EmbedFrom, StoreText, StoreChunks, StoreVectors, ListForEmbedding, AfterRecognition, AfterChunking;
  }

  lemma FailureRequeuesOrFails(env: Env, s: System, e: Event)
    requires env.chunking.Valid() && Enabled(env, s, e) && IsFailure(e.action)
    ensures Next(env, s, e).job.status in {Queued, Failed}
  {
    hide DocumentChunks, EmbedFrom, AfterTransientFailure, ProfileFailed;
  }

  lemma OthersDoNotComplete(env: Env, s: System, e: Event)
    requires env.chunking.Valid() && Enabled(env, s, e)
    requires e.action.Publish? || e.action.Deliver? || e.action.FailStale? || e.action.Recover?
    ensures Next(env, s, e).job.status in {s.job.status, Queued, Processing, Failed}
  {
    hide DocumentChunks, Claiming, Recoverable, StaleExhausted;
  }

  lemma OnlyCompletionMakesReady(env: Env, s: System, e: Event)
    requires env.chunking.Valid() && Enabled(env, s, e) && !e.action.Complete? && s.job.status != Ready
    ensures Next(env, s, e).job.status != Ready
  {
    hide Next, Enabled;
    if IsDataStep(e.action) {
      DataStepKeepsJob(env, s, e);
    } else if IsFailure(e.action) {
      FailureRequeuesOrFails(env, s, e);
    } else {
      OthersDoNotComplete(env, s, e);
    }
  }

  /** Without both checkpoints every worker is useful, for it read what is there. */
  lemma SomebodyIsUseful(env: Env, s: System)
    requires env.Valid() && DataInvariant(env, s) && !BothSet(s.store)
    ensures s.workers != map[] ==> UsefulWorker(s)
  {
    hide StoreInvariant;
    if w :| w in s.workers {
      assert WorkerInvariant(env, s.store, s.workers[w]);
    }
  }

  lemma DeadJobStays(env: Env, s: System, e: Event)
    requires env.chunking.Valid() && Enabled(env, s, e) && JobInvariant(env.retry, s)
    requires s.workers == map[] && s.job.status != Ready && !Claimable(env, s)
    ensures var s' := Next(env, s, e); s'.workers == map[] && s'.job.status != Ready && !Claimable(env, s')
  {
    hide DocumentChunks, Claiming;
    assert e.action.Publish? || e.action.Deliver? || e.action.FailStale? || e.action.Recover?;
  }

  lemma HopelessIsKept(env: Env, s: System, e: Event)
    requires env.Valid() && Enabled(env, s, e) && Invariant(env, s) && AllBinding(s) && !CanFinish(env, s)
    ensures !CanFinish(env, Next(env, s, e))
  {
    OnlyUsefulWorkersComplete(env, s, e);
    OnlyCompletionMakesReady(env, s, e);
    StepExtends(env, s, e);
    hide Next, Enabled, DocumentChunks, JobInvariant, DataInvariant, UsefulWorker, Claimable, AllBinding;
    if BothSet(s.store) {
      FullWorkersStay(env, s, e);
    } else {
      SomebodyIsUseful(env, s);
      DeadJobStays(env, s, e);
      NoneIsUseful(Next(env, s, e));
    }
  }

  lemma NoneIsUseful(s: System)
    requires s.workers == map[]
    ensures !UsefulWorker(s)
  {
  }

  lemma {:induction false} NoWayBack(env: Env, s: System, events: seq<Event>)
    requires env.Valid() && Legal(env, s, events) && Invariant(env, s) && AllBinding(s) && !CanFinish(env, s)
    ensures Run(env, s, events).job.status != Ready
    decreases |events|
  {
    if events != [] {
      var e := events[0];
      HopelessIsKept(env, s, e);
      JobInvariantHolds(env, s, e);
      DataInvariantHolds(env, s, e);
      BindingIsKept(env, s, e);
      hide Next, Enabled, DocumentChunks, JobInvariant, DataInvariant, CanFinish, AllBinding;
      NoWayBack(env, Next(env, s, e), events[1..]);
    }
  }

  lemma UsefulWorkerFinishes(env: Env, s: System, w: nat) returns (events: seq<Event>)
    requires env.Valid() && Invariant(env, s) && AllBinding(s)
    requires w in s.workers && !(s.workers[w].chunksComplete && s.workers[w].vectorsComplete)
    ensures CleanSteps(events, w) && AllAt(events, s.clock)
    ensures Legal(env, s, events) && Run(env, s, events).job.status == Ready
  {
    hide DocumentChunks, JobInvariant, DataInvariant, Legal, Run;
    var middle := WorkerReachesLastStep(env, s, w);
    var s1 := Run(env, s, middle);
    assert Binding(s1.workers[w]);
    var last := Event(s1.clock, Complete(w));
    OneEvent(env, s1, last);
    RunJoins(env, s, middle, [last]);
    events := middle + [last];
  }

  lemma ProcessingIsRequeued(env: Env, s: System) returns (e: Event)
    requires env.Valid() && JobInvariant(env.retry, s)
    requires s.job.status == Processing && s.job.attemptCount < env.retry.maxAttempts
    ensures Enabled(env, s, e)
    ensures var s' := Next(env, s, e); s'.job.status == Queued && s'.store == s.store && s'.workers == s.workers
  {
    hide DocumentChunks, EmbedFrom;
    var started := s.job.startedAt.value;
    var at := (if started > s.clock then started else s.clock) + env.retry.staleAfter;
    e := Event(at, Recover(at));
  }

  lemma ClaimableFinishes(env: Env, s: System) returns (events: seq<Event>)
    requires env.Valid() && Invariant(env, s) && AllBinding(s) && Claimable(env, s)
    requires !BothSet(s.store) && s.workers == map[]
    ensures Legal(env, s, events) && Run(env, s, events).job.status == Ready
  {
    hide DocumentChunks, JobInvariant, DataInvariant, Legal, Run, Next, Enabled, AllBinding;
    if s.job.status == Queued {
      events := CleanDeliveryFinishes(env, s, 0);
    } else {
      var e := ProcessingIsRequeued(env, s);
      JobInvariantHolds(env, s, e);
      DataInvariantHolds(env, s, e);
      BindingIsKept(env, s, e);
      OneEvent(env, s, e);
      var rest := CleanDeliveryFinishes(env, Next(env, s, e), 0);
      RunJoins(env, s, [e], rest);
      events := [e] + rest;
    }
  }

  ghost predicate ReadyIsReachable(env: Env, s: System)
    requires env.Valid()
  {
    exists events :: Legal(env, s, events) && Run(env, s, events).job.status == Ready
  }

  /** In every reachable state the job is READY in some continuation if and only if it is READY now, or some
      worker read a checkpoint as missing, or a checkpoint is missing and the job can still be claimed. */
  lemma ReadyIsReachableIff(env: Env, versionId: Uuid, at: Time, before: seq<Event>)
    requires env.Valid() && Legal(env, Initial(versionId, at), before)
    ensures var s := Run(env, Initial(versionId, at), before); ReadyIsReachable(env, s) <==> CanFinish(env, s)
  {
    var s := Run(env, Initial(versionId, at), before);
    InitialInvariant(env, versionId, at);
    RunKeepsInvariant(env, Initial(versionId, at), before);
    RunKeepsBinding(env, Initial(versionId, at), before);
    hide DocumentChunks, JobInvariant, DataInvariant, AllBinding, Claimable, BothSet;
    if CanFinish(env, s) {
      SomeRunFinishes(env, s);
    } else {
      forall events | Legal(env, s, events) ensures Run(env, s, events).job.status != Ready {
        NoWayBack(env, s, events);
      }
    }
  }

  lemma SomeRunFinishes(env: Env, s: System)
    requires env.Valid() && Invariant(env, s) && AllBinding(s) && CanFinish(env, s)
    ensures ReadyIsReachable(env, s)
  {
    hide DocumentChunks, JobInvariant, DataInvariant, AllBinding, Claimable, BothSet;
    var events: seq<Event> := [];
    if s.job.status == Ready {
      assert Legal(env, s, events) && Run(env, s, events) == s;
    } else if UsefulWorker(s) {
      var w :| w in s.workers && !(s.workers[w].chunksComplete && s.workers[w].vectorsComplete);
      events := UsefulWorkerFinishes(env, s, w);
    } else {
      SomebodyIsUseful(env, s);
      events := ClaimableFinishes(env, s);
    }
    assert Legal(env, s, events) && Run(env, s, events).job.status == Ready;
  }
}
