/** When a terminal job stays terminal: READY and FAILED are written without a guard, so it depends on how
    long a worker may live after its claim. */
module TerminalStates {
  import opened Prelude
  import opened Jobs
  import opened PageWindow
  import opened Embedding
  import opened IngestionSystem
  import opened IngestionLaws
  import opened IngestionProgress

  // ---------------------------------------------------------------- workers that write in time

  /** The worker steps that write the job row; none of them looks at its status. */
  ghost predicate WritesJob(a: Action) {
    a.ParseFails? || a.RecognizeFails? || a.Complete? || a.TransientFailure? || a.ProfileFailure?
  }

  ghost predicate Within(w: Worker, at: Time, lifetime: int) {
    at < w.claimedAt + lifetime
  }

  ghost predicate Fresh(env: Env, w: Worker, at: Time) {
    Within(w, at, env.retry.staleAfter)
  }

  /** No worker writes the job row once its claim is older than `lifetime`. */
  ghost predicate Timely(env: Env, lifetime: int, s: System, events: seq<Event>)
    requires env.chunking.Valid() && Legal(env, s, events)
    decreases |events|
  {
    events == [] ||
    (var e := events[0];
     && (WritesJob(e.action) ==> Within(s.workers[e.action.worker], e.at, lifetime))
     && Timely(env, lifetime, Next(env, s, e), events[1..]))
  }

  /** The job belongs to its one fresh worker, if there is one. */
  ghost predicate Owned(env: Env, s: System) {
    forall w :: w in s.workers && Fresh(env, s.workers[w], s.clock) ==>
      && s.job.status == Processing && s.job.startedAt == Some(s.workers[w].claimedAt)
      && forall other :: other in s.workers && other != w ==> !Fresh(env, s.workers[other], s.clock)
  }

  /** Time passing, workers leaving and rows outside the claim columns do not disturb ownership. */
  lemma OwnedCarriesOver(env: Env, s: System, s': System)
    requires Owned(env, s) && s.clock <= s'.clock
    requires s'.job.status == s.job.status && s'.job.startedAt == s.job.startedAt
    requires forall w :: w in s'.workers ==> w in s.workers && s'.workers[w].claimedAt == s.workers[w].claimedAt
    ensures Owned(env, s')
  {
    assert forall w :: w in s'.workers && Fresh(env, s'.workers[w], s'.clock) ==> Fresh(env, s.workers[w], s.clock);
  }

  lemma OwnedIsKept(env: Env, s: System, e: Event)
    requires env.Valid() && Enabled(env, s, e) && Owned(env, s)
    requires WritesJob(e.action) ==> Fresh(env, s.workers[e.action.worker], e.at)
    ensures Owned(env, Next(env, s, e))
  {
    if e.action.Deliver? && s.job.status == Queued {
      ClaimOwns(env, s, e);
    } else if WritesJob(e.action) || (Next(env, s, e).job.status != s.job.status && !e.action.Deliver?) {
      OwnerLeaves(env, s, e);
    } else {
      OthersCarryOver(env, s, e);
    }
  }

  /** A queued job has no fresh worker, so the one that claims it is the only one. */
  lemma ClaimOwns(env: Env, s: System, e: Event)
    requires env.Valid() && Enabled(env, s, e) && Owned(env, s) && e.action.Deliver? && s.job.status == Queued
    ensures Owned(env, Next(env, s, e))
  {
    hide DocumentChunks, Pointwise, Claiming;
    assert forall w :: w in s.workers ==> !Fresh(env, s.workers[w], s.clock);
    var s' := Next(env, s, e);
    assert s'.workers[e.action.worker].claimedAt == e.at by {
      ClaimTime(s.store, e.at);
    }
  }

  lemma ClaimTime(store: Store, at: Time)
    ensures Claiming(store, at).claimedAt == at
  {
  }

  lemma OwnerLeaves(env: Env, s: System, e: Event)
    requires env.Valid() && Enabled(env, s, e) && Owned(env, s)
    requires WritesJob(e.action) ==> Fresh(env, s.workers[e.action.worker], e.at)
    requires !e.action.Deliver? && (WritesJob(e.action) || Next(env, s, e).job.status != s.job.status)
    ensures Owned(env, Next(env, s, e))
  {
    hide DocumentChunks, EmbedFrom, Pointwise, StoreText, StoreChunks, StoreVectors, ListForEmbedding,
         AfterTransientFailure;
    var s' := Next(env, s, e);
    assert forall w :: w in s'.workers ==> !Fresh(env, s'.workers[w], s'.clock);
  }

  lemma OthersCarryOver(env: Env, s: System, e: Event)
    requires env.Valid() && Enabled(env, s, e) && Owned(env, s) && !WritesJob(e.action)
    requires Next(env, s, e).job.status == s.job.status && !(e.action.Deliver? && s.job.status == Queued)
    ensures Owned(env, Next(env, s, e))
  {
    CarriedFacts(env, s, e);
    hide Next, Enabled, Owned, Fresh;
    OwnedCarriesOver(env, s, Next(env, s, e));
  }

  /** The clock runs on, the claim columns stay, and no worker is new. */
  ghost predicate Carried(s: System, s': System) {
    && s.clock <= s'.clock && s'.job.startedAt == s.job.startedAt
    && forall w :: w in s'.workers ==> w in s.workers && s'.workers[w].claimedAt == s.workers[w].claimedAt
  }

  lemma DataStepCarries(env: Env, s: System, e: Event)
    requires env.chunking.Valid() && Enabled(env, s, e) && IsDataStep(e.action)
    ensures Carried(s, Next(env, s, e))
  {
    hide DocumentChunks, EmbedFrom, StoreText, StoreChunks, StoreVectors, ListForEmbedding;
  }

  lemma PassCarries(env: Env, s: System, e: Event)
    requires env.chunking.Valid() && Enabled(env, s, e)
    requires e.action.Publish? || e.action.Deliver? || e.action.FailStale? || e.action.Recover?
    requires !(e.action.Deliver? && s.job.status == Queued)
    ensures Carried(s, Next(env, s, e))
  {
    hide DocumentChunks, Claiming, Recoverable, StaleExhausted;
  }

  lemma CarriedFacts(env: Env, s: System, e: Event)
    requires env.chunking.Valid() && Enabled(env, s, e) && !WritesJob(e.action)
    requires !(e.action.Deliver? && s.job.status == Queued)
    ensures Carried(s, Next(env, s, e))
  {
    hide Next, Enabled, Carried;
    if IsDataStep(e.action) {
      DataStepCarries(env, s, e);
    } else {
      PassCarries(env, s, e);
    }
  }

  ghost predicate Terminal(job: Job) {
    job.status == Ready || job.status == Failed
  }

  lemma FreshMeansProcessing(env: Env, s: System, w: nat, at: Time)
    requires Owned(env, s) && w in s.workers && s.clock <= at && Fresh(env, s.workers[w], at)
    ensures s.job.status == Processing
  {
    assert Fresh(env, s.workers[w], s.clock);
  }

  lemma TerminalIsKept(env: Env, s: System, e: Event)
    requires env.Valid() && Enabled(env, s, e) && JobInvariant(env.retry, s) && Owned(env, s) && Terminal(s.job)
    requires WritesJob(e.action) ==> Fresh(env, s.workers[e.action.worker], e.at)
    ensures Next(env, s, e).job.status == s.job.status
  {
    hide DocumentChunks, EmbedFrom, Pointwise, StoreText, StoreChunks, StoreVectors, ListForEmbedding;
    assert !WritesJob(e.action) by {
      if WritesJob(e.action) {
        FreshMeansProcessing(env, s, e.action.worker, e.at);
        assert false;
      }
    }
  }

  lemma {:induction false} TimelyRunKeepsTerminal(env: Env, s: System, events: seq<Event>)
    requires env.Valid() && Invariant(env, s) && Owned(env, s)
    requires Legal(env, s, events) && Timely(env, env.retry.staleAfter, s, events)
    ensures Owned(env, Run(env, s, events))
    ensures Terminal(s.job) ==> Run(env, s, events).job.status == s.job.status
    decreases |events|
  {
    if events != [] {
      hide Owned, Terminal, Invariant, Fresh, DocumentChunks, Enabled, Next;
      OwnedIsKept(env, s, events[0]);
      OneStep(env, s, events[0]);
      TimelyRunKeepsTerminal(env, Next(env, s, events[0]), events[1..]);
    }
  }

  lemma OneStep(env: Env, s: System, e: Event)
    requires env.Valid() && Enabled(env, s, e) && Invariant(env, s) && Owned(env, s)
    requires WritesJob(e.action) ==> Fresh(env, s.workers[e.action.worker], e.at)
    ensures Invariant(env, Next(env, s, e))
    ensures Terminal(s.job) ==> Next(env, s, e).job.status == s.job.status && Terminal(Next(env, s, e).job)
  {
    JobInvariantHolds(env, s, e);
    DataInvariantHolds(env, s, e);
    hide JobInvariant, DataInvariant, Next, Enabled, DocumentChunks, Owned;
    if Terminal(s.job) {
      TerminalIsKept(env, s, e);
    }
  }

  lemma {:induction false} ShorterIsTimely(env: Env, lifetime: int, longer: int, s: System, events: seq<Event>)
    requires env.chunking.Valid() && Legal(env, s, events) && lifetime <= longer && Timely(env, lifetime, s, events)
    ensures Timely(env, longer, s, events)
    decreases |events|
  {
    if events != [] {
      hide Next, Enabled, DocumentChunks;
      ShorterIsTimely(env, lifetime, longer, Next(env, s, events[0]), events[1..]);
    }
  }

  // ---------------------------------------------------------------- final statuses

  /** One run that reaches the status, and one continuation of it, both with timely workers only. */
  ghost predicate Keeps(env: Env, lifetime: int, status: JobStatus, versionId: Uuid, at: Time, events: seq<Event>, more: seq<Event>)
    requires env.chunking.Valid()
  {
    && Legal(env, Initial(versionId, at), events) && Timely(env, lifetime, Initial(versionId, at), events)
    && Run(env, Initial(versionId, at), events).job.status == status
    && Legal(env, Run(env, Initial(versionId, at), events), more)
    && Timely(env, lifetime, Run(env, Initial(versionId, at), events), more)
    ==> Run(env, Run(env, Initial(versionId, at), events), more).job.status == status
  }

  /** A job that has the status keeps it for good, in every run whose workers write within `lifetime`. */
  ghost predicate IsFinal(env: Env, lifetime: int, status: JobStatus)
    requires env.chunking.Valid()
  {
    forall versionId, at, events, more :: Keeps(env, lifetime, status, versionId, at, events, more)
  }

  /** With workers that write before their own stale threshold, both terminal statuses are final, whatever
      the queue, the crashes and the reconciler do. */
  lemma TerminalIsFinalWhenTimely(env: Env, lifetime: int, status: JobStatus)
    requires env.Valid() && lifetime <= env.retry.staleAfter && status in {Ready, Failed}
    ensures IsFinal(env, lifetime, status)
  {
    hide Legal, Timely, Run, Invariant, DocumentChunks;
    forall versionId, at, events, more ensures Keeps(env, lifetime, status, versionId, at, events, more) {
      var s0 := Initial(versionId, at);
      if Legal(env, s0, events) && Timely(env, lifetime, s0, events) {
        var s := Run(env, s0, events);
        if s.job.status == status && Legal(env, s, more) && Timely(env, lifetime, s, more) {
          InitialInvariant(env, versionId, at);
          ShorterIsTimely(env, lifetime, env.retry.staleAfter, s0, events);
          ShorterIsTimely(env, lifetime, env.retry.staleAfter, s, more);
          RunKeepsInvariant(env, s0, events);
          TimelyRunKeepsTerminal(env, s0, events);
          TimelyRunKeepsTerminal(env, s, more);
        }
      }
    }
  }

  // ---------------------------------------------------------------- runs with a late worker

  lemma {:induction false} TimelyJoins(env: Env, lifetime: int, s: System, a: seq<Event>, b: seq<Event>)
    requires env.chunking.Valid() && Legal(env, s, a) && Timely(env, lifetime, s, a)
    requires Legal(env, Run(env, s, a), b) && Timely(env, lifetime, Run(env, s, a), b) && Legal(env, s, a + b)
    ensures Timely(env, lifetime, s, a + b)
    decreases |a|
  {
    hide Next, Enabled, DocumentChunks;
    if a == [] {
      assert a + b == b;
    } else {
      assert (a + b)[1..] == a[1..] + b;
      TimelyJoins(env, lifetime, Next(env, s, a[0]), a[1..], b);
    }
  }

  /** Two timely runs, one after the other. */
  lemma Extend(env: Env, lifetime: int, s: System, a: seq<Event>, b: seq<Event>)
    requires env.chunking.Valid() && Legal(env, s, a) && Timely(env, lifetime, s, a)
    requires Legal(env, Run(env, s, a), b) && Timely(env, lifetime, Run(env, s, a), b)
    ensures Legal(env, s, a + b) && Run(env, s, a + b) == Run(env, Run(env, s, a), b) && Timely(env, lifetime, s, a + b)
  {
    RunJoins(env, s, a, b);
    TimelyJoins(env, lifetime, s, a, b);
  }

  lemma OneTimely(env: Env, lifetime: int, s: System, e: Event)
    requires env.chunking.Valid() && Enabled(env, s, e)
    requires WritesJob(e.action) ==> Within(s.workers[e.action.worker], e.at, lifetime)
    ensures Legal(env, s, [e]) && Run(env, s, [e]) == Next(env, s, e) && Timely(env, lifetime, s, [e])
  {
    hide Enabled, Next;
    OneEvent(env, s, e);
    assert Timely(env, lifetime, Next(env, s, e), []);
  }

  lemma CleanStepKeepsClaim(env: Env, s: System, e: Event, w: nat)
    requires env.chunking.Valid() && Enabled(env, s, e) && CleanStep(e.action, w) && e.at == s.clock
    ensures var s' := Next(env, s, e);
            s'.clock == s.clock && (w in s'.workers ==> w in s.workers && s'.workers[w].claimedAt == s.workers[w].claimedAt)
  {
    hide DocumentChunks, EmbedFrom, ListForEmbedding, StoreText, StoreChunks, StoreVectors;
  }

  lemma {:induction false} CleanStepsAreTimely(env: Env, lifetime: int, s: System, events: seq<Event>, w: nat)
    requires env.Valid() && Legal(env, s, events) && CleanSteps(events, w) && AllAt(events, s.clock)
    requires w in s.workers ==> Within(s.workers[w], s.clock, lifetime)
    ensures Timely(env, lifetime, s, events)
    decreases |events|
  {
    if events != [] {
      assert CleanStep(events[0].action, w);
      CleanStepActs(env, s, events[0], w);
      CleanStepKeepsClaim(env, s, events[0], w);
      hide Next, Enabled, CleanStep, DocumentChunks;
      CleanStepsAreTimely(env, lifetime, Next(env, s, events[0]), events[1..], w);
    }
  }

  lemma CleanStepActs(env: Env, s: System, e: Event, w: nat)
    requires env.chunking.Valid() && Enabled(env, s, e) && CleanStep(e.action, w)
    ensures w in s.workers && e.action.worker == w
  {
    hide DocumentChunks, EmbedFrom;
  }

  lemma ClaimedNow(env: Env, s: System, e: Event)
    requires env.chunking.Valid() && Enabled(env, s, e) && e.action.Deliver? && s.job.status == Queued
    ensures var s' := Next(env, s, e);
            && e.action.worker in s'.workers && s'.workers[e.action.worker].claimedAt == e.at && s'.clock == e.at
  {
    hide DocumentChunks;
  }

  lemma DeliveryIsTimely(env: Env, lifetime: int, s: System, events: seq<Event>, w: nat)
    requires env.Valid() && Legal(env, s, events) && s.job.status == Queued && lifetime > 0
    requires events != [] && events[0].action == Deliver(w) && CleanSteps(events[1..], w) && AllAt(events, s.clock)
    ensures Timely(env, lifetime, s, events)
  {
    hide Next, Enabled, CleanSteps, DocumentChunks;
    ClaimedNow(env, s, events[0]);
    CleanStepsAreTimely(env, lifetime, Next(env, s, events[0]), events[1..], w);
  }

  /** A first worker that has reached its stale threshold while its job waits for another one. */
  lemma LateFirstWorker(env: Env, lifetime: int, versionId: Uuid, at: Time) returns (events: seq<Event>)
    requires env.Valid() && env.retry.maxAttempts >= 2
    ensures Legal(env, Initial(versionId, at), events) && Timely(env, lifetime, Initial(versionId, at), events)
    ensures var s := Run(env, Initial(versionId, at), events);
            && Invariant(env, s) && AllBinding(s) && s.job.status == Queued && s.clock == at + env.retry.staleAfter
            && s.workers == map[0 := Claiming(EMPTY_STORE, at)] && s.store == EMPTY_STORE.(version := VersionProcessing)
  {
    hide DocumentChunks, JobInvariant, DataInvariant, Legal, Run, Timely, Next, Enabled, AllBinding;
    var s0 := Initial(versionId, at);
    var claim, s1 := FirstClaim(env, versionId, at);
    FirstClaimIsTimely(env, lifetime, s0, claim);
    var recover := RecoverAfterLoss(env, s1);
    JobInvariantHolds(env, s1, recover);
    DataInvariantHolds(env, s1, recover);
    BindingIsKept(env, s1, recover);
    OneTimely(env, lifetime, s1, recover);
    Extend(env, lifetime, s0, [claim], [recover]);
    events := [claim] + [recover];
  }

  lemma FirstClaimIsTimely(env: Env, lifetime: int, s: System, e: Event)
    requires env.chunking.Valid() && Legal(env, s, [e]) && e.action.Deliver?
    ensures Timely(env, lifetime, s, [e])
  {
    hide Next, Enabled;
    assert [e][1..] == [];
  }

  /** READY is undone by a worker that fails transiently at its stale threshold, after another one finished. */
  lemma LateWorkerUndoesReady(env: Env, lifetime: int, versionId: Uuid, at: Time) returns (events: seq<Event>, late: Event)
    requires env.Valid() && env.retry.maxAttempts >= 2 && lifetime > env.retry.staleAfter
    ensures late.action.TransientFailure?
    ensures !Keeps(env, lifetime, Ready, versionId, at, events, [late])
  {
    hide DocumentChunks, JobInvariant, DataInvariant, Legal, Run, Timely, Next, Enabled, AllBinding;
    var s0 := Initial(versionId, at);
    var before := LateFirstWorker(env, lifetime, versionId, at);
    var s1 := Run(env, s0, before);
    var finishing := CleanDeliveryFinishes(env, s1, 1);
    DeliveryIsTimely(env, lifetime, s1, finishing, 1);
    Extend(env, lifetime, s0, before, finishing);
    events := before + finishing;
    OtherWorkersRest(env, s1, finishing, 1, 0);
    var s2 := Run(env, s1, finishing);
    late := Event(s2.clock, TransientFailure(0, 0));
    LateFailureIsEnabled(env, lifetime, s2, late);
    OneTimely(env, lifetime, s2, late);
  }

  lemma LateFailureIsEnabled(env: Env, lifetime: int, s: System, e: Event)
    requires env.chunking.Valid() && e.action.TransientFailure? && e.action.worker in s.workers && e.at == s.clock
    ensures Enabled(env, s, e) && Next(env, s, e).job.status in {Queued, Failed}
  {
    hide DocumentChunks, EmbedFrom, AfterTransientFailure;
  }

  lemma OtherWorkersRest(env: Env, s: System, events: seq<Event>, w: nat, other: nat)
    requires env.Valid() && Legal(env, s, events) && other in s.workers && other != w
    requires events != [] && events[0].action == Deliver(w) && CleanSteps(events[1..], w) && AllAt(events, s.clock)
    ensures var s' := Run(env, s, events);
            other in s'.workers && s'.workers[other] == s.workers[other] && s'.clock == s.clock
  {
    forall i | 0 <= i < |events|
      ensures events[i].at == s.clock && (CleanStep(events[i].action, w) || events[i].action == Deliver(w)) {
      if i > 0 {
        assert events[i] == events[1..][i - 1];
      }
    }
    UntouchedWorker(env, s, events, w, other);
  }

  /** One delivery to `w` leaves every other worker where it was and moves no clock. */
  lemma {:induction false} UntouchedWorker(env: Env, s: System, events: seq<Event>, w: nat, other: nat)
    requires env.Valid() && Legal(env, s, events) && other in s.workers && other != w
    requires forall i :: 0 <= i < |events| ==>
        events[i].at == s.clock && (CleanStep(events[i].action, w) || events[i].action == Deliver(w))
    ensures var s' := Run(env, s, events);
            other in s'.workers && s'.workers[other] == s.workers[other] && s'.clock == s.clock
    decreases |events|
  {
    if events != [] {
      UntouchedStep(env, s, events[0], w, other);
      UntouchedWorker(env, Next(env, s, events[0]), events[1..], w, other);
    }
  }

  lemma UntouchedStep(env: Env, s: System, e: Event, w: nat, other: nat)
    requires env.Valid() && Enabled(env, s, e) && other in s.workers && other != w
    requires e.at == s.clock && (CleanStep(e.action, w) || e.action == Deliver(w))
    ensures var s' := Next(env, s, e); other in s'.workers && s'.workers[other] == s.workers[other] && s'.clock == s.clock
  {
    hide DocumentChunks, Pointwise, EmbedFrom, ListForEmbedding, StoreText, StoreChunks, StoreVectors;
  }

  /** A worker at its stale threshold completes a job that has failed meanwhile. */
  lemma LateWorkerRevives(env: Env, lifetime: int, s: System) returns (more: seq<Event>)
    requires env.Valid() && Invariant(env, s) && AllBinding(s) && 0 in s.workers && Within(s.workers[0], s.clock, lifetime)
    requires !(s.workers[0].chunksComplete && s.workers[0].vectorsComplete)
    ensures Legal(env, s, more) && Timely(env, lifetime, s, more) && Run(env, s, more).job.status == Ready
  {
    more := UsefulWorkerFinishes(env, s, 0);
    CleanStepsAreTimely(env, lifetime, s, more, 0);
  }

  /** FAILED is undone by a worker that completes at its stale threshold: after a second worker's recognition
      failed, or, with a single attempt, after a pass gave the job up. */
  lemma LateWorkerUndoesFailed(env: Env, lifetime: int, versionId: Uuid, at: Time)
    returns (events: seq<Event>, more: seq<Event>)
    requires env.Valid() && lifetime > env.retry.staleAfter
    ensures !Keeps(env, lifetime, Failed, versionId, at, events, more)
  {
    hide DocumentChunks, Invariant, Legal, Run, Timely, Next, Enabled, AllBinding;
    var s0 := Initial(versionId, at);
    if env.retry.maxAttempts >= 2 {
      var before := LateFirstWorker(env, lifetime, versionId, at);
      var failing := SecondWorkerFails(env, lifetime, Run(env, s0, before));
      Extend(env, lifetime, s0, before, failing);
      events := before + failing;
    } else {
      events := GivenUp(env, lifetime, versionId, at);
    }
    InitialInvariant(env, versionId, at);
    RunKeepsInvariant(env, s0, events);
    InitialBinding(versionId, at);
    RunKeepsBinding(env, s0, events);
    more := LateWorkerRevives(env, lifetime, Run(env, s0, events));
  }

  lemma InitialBinding(versionId: Uuid, at: Time)
    ensures AllBinding(Initial(versionId, at))
  {
  }

  lemma SecondWorkerFails(env: Env, lifetime: int, s: System) returns (events: seq<Event>)
    requires env.Valid() && s.job.status == Queued && s.store.text.None? && lifetime > 0 && 0 in s.workers && 1 !in s.workers
    ensures Legal(env, s, events) && Timely(env, lifetime, s, events)
    ensures var s' := Run(env, s, events);
            s'.job.status == Failed && s'.clock == s.clock && 0 in s'.workers && s'.workers[0] == s.workers[0]
  {
    var claim, parse, fail := Event(s.clock, Deliver(1)), Event(s.clock, Parse(1)), Event(s.clock, RecognizeFails(1));
    var s1 := SecondWorkerClaims(env, s, claim);
    var s2 := SecondWorkerParses(env, s1, parse);
    SecondWorkerIsRefused(env, s2, fail);
    hide Legal, Run, Timely, Next, Enabled, DocumentChunks;
    OneTimely(env, lifetime, s, claim);
    OneTimely(env, lifetime, s1, parse);
    OneTimely(env, lifetime, s2, fail);
    Extend(env, lifetime, s1, [parse], [fail]);
    Extend(env, lifetime, s, [claim], [parse] + [fail]);
    events := [claim] + ([parse] + [fail]);
  }

  lemma SecondWorkerClaims(env: Env, s: System, e: Event) returns (s': System)
    requires env.chunking.Valid() && s.job.status == Queued && s.store.text.None? && 0 in s.workers && 1 !in s.workers
    requires e == Event(s.clock, Deliver(1))
    ensures Enabled(env, s, e) && s' == Next(env, s, e) && s'.clock == s.clock
    ensures 0 in s'.workers && s'.workers[0] == s.workers[0]
    ensures 1 in s'.workers && s'.workers[1].stage.Parsing? && s'.workers[1].claimedAt == s.clock
  {
    hide DocumentChunks;
    s' := Next(env, s, e);
  }

  lemma SecondWorkerParses(env: Env, s: System, e: Event) returns (s': System)
    requires env.chunking.Valid() && 0 in s.workers && 1 in s.workers && s.workers[1].stage.Parsing?
    requires e == Event(s.clock, Parse(1))
    ensures Enabled(env, s, e) && s' == Next(env, s, e) && s'.clock == s.clock
    ensures 0 in s'.workers && s'.workers[0] == s.workers[0]
    ensures 1 in s'.workers && s'.workers[1].stage.Recognizing? && s'.workers[1].claimedAt == s.workers[1].claimedAt
  {
    hide DocumentChunks;
    s' := Next(env, s, e);
  }

  lemma SecondWorkerIsRefused(env: Env, s: System, e: Event)
    requires env.chunking.Valid() && 0 in s.workers && 1 in s.workers && s.workers[1].stage.Recognizing?
    requires e == Event(s.clock, RecognizeFails(1))
    ensures Enabled(env, s, e)
    ensures var s' := Next(env, s, e);
            s'.job.status == Failed && s'.clock == s.clock && 0 in s'.workers && s'.workers[0] == s.workers[0]
  {
    hide DocumentChunks;
  }

  /** With a single attempt, the pass at the stale threshold gives the job up while its worker still runs. */
  lemma GivenUp(env: Env, lifetime: int, versionId: Uuid, at: Time) returns (events: seq<Event>)
    requires env.Valid() && env.retry.maxAttempts == 1
    ensures Legal(env, Initial(versionId, at), events) && Timely(env, lifetime, Initial(versionId, at), events)
    ensures var s := Run(env, Initial(versionId, at), events);
            s.job.status == Failed && s.clock == at + env.retry.staleAfter && s.workers == map[0 := Claiming(EMPTY_STORE, at)]
  {
    hide DocumentChunks, JobInvariant, DataInvariant, Legal, Run, Timely, Next, Enabled, AllBinding;
    var s0 := Initial(versionId, at);
    var claim, s1 := FirstClaim(env, versionId, at);
    FirstClaimIsTimely(env, lifetime, s0, claim);
    var pass := Event(at + env.retry.staleAfter, FailStale(at + env.retry.staleAfter));
    PassGivesUp(env, s1, pass);
    OneTimely(env, lifetime, s1, pass);
    Extend(env, lifetime, s0, [claim], [pass]);
    events := [claim] + [pass];
  }

  lemma PassGivesUp(env: Env, s: System, e: Event)
    requires env.chunking.Valid() && s.job.status == Processing && s.job.startedAt == Some(s.clock)
    requires s.job.attemptCount >= env.retry.maxAttempts
    requires e == Event(s.clock + env.retry.staleAfter, FailStale(s.clock + env.retry.staleAfter))
    ensures Enabled(env, s, e)
    ensures var s' := Next(env, s, e); s'.job.status == Failed && s'.clock == e.at && s'.workers == s.workers
  {
    hide DocumentChunks;
  }

  // ---------------------------------------------------------------- a single attempt

  /** With one attempt the job is claimed once, and the claiming worker is gone once it is READY. */
  ghost predicate Single(s: System) {
    && s.retries == 0 && s.job.attemptCount == s.claims <= 1
    && (s.job.status == Queued ==> s.claims == 0) && (s.claims == 0 ==> s.workers == map[] && s.job.status != Processing)
    && (forall v, w :: v in s.workers && w in s.workers ==> v == w)
    && (s.job.status == Ready ==> s.workers == map[])
    && (s.job.status == Failed ==> s.job.errorCategory == Some(Permanent))
  }

  lemma SingleDataStep(env: Env, s: System, e: Event)
    requires env.Valid() && Enabled(env, s, e) && Single(s) && IsDataStep(e.action)
    ensures Single(Next(env, s, e)) && Next(env, s, e).job == s.job
  {
    DataStepKeepsJob(env, s, e);
    hide DocumentChunks, EmbedFrom, StoreText, StoreChunks, StoreVectors, ListForEmbedding, AfterRecognition, AfterChunking;
  }

  /** The only worker leaves, and there is no attempt left to retry. */
  lemma SingleWrite(env: Env, s: System, e: Event)
    requires env.Valid() && env.retry.maxAttempts == 1 && Enabled(env, s, e) && Single(s) && WritesJob(e.action)
    ensures Single(Next(env, s, e)) && s.job.status != Ready
  {
    hide DocumentChunks, EmbedFrom, Backoff;
    assert s.workers - {e.action.worker} == map[];
  }

  lemma SingleDelivery(env: Env, s: System, e: Event)
    requires env.chunking.Valid() && Enabled(env, s, e) && Single(s) && e.action.Deliver?
    ensures Single(Next(env, s, e)) && (s.job.status == Ready ==> Next(env, s, e).job.status == Ready)
  {
    hide DocumentChunks, Claiming;
  }

  ghost predicate Requeuable(env: Env, job: Job) {
    || job.status == Queued
    || (job.status == Processing && job.attemptCount < env.retry.maxAttempts)
    || (job.status == Failed && job.errorCategory == Some(Transient))
  }

  /** A publication or a pass changes the job row alone among what `Single` speaks of. */
  lemma PassChangesJob(env: Env, s: System, e: Event)
    requires env.chunking.Valid() && Enabled(env, s, e) && (e.action.Publish? || e.action.FailStale? || e.action.Recover?)
    ensures var s' := Next(env, s, e);
            && s'.workers == s.workers && s'.claims == s.claims && s'.retries == s.retries
            && s'.job.attemptCount == s.job.attemptCount
            && ((s'.job.status == s.job.status && s'.job.errorCategory == s.job.errorCategory)
                || (s.job.status == Processing && s'.job.status == Failed && s'.job.errorCategory == Some(Permanent))
                || (s'.job.status == Queued && Requeuable(env, s.job)))
  {
    hide DocumentChunks;
    match e.action {
      case Publish =>
      case FailStale(passTime) =>
      case Recover(passTime) =>
    }
  }

  lemma SinglePass(env: Env, s: System, e: Event)
    requires env.Valid() && env.retry.maxAttempts == 1 && Enabled(env, s, e) && Single(s)
    requires e.action.Publish? || e.action.FailStale? || e.action.Recover?
    ensures Single(Next(env, s, e)) && (s.job.status == Ready ==> Next(env, s, e).job.status == Ready)
  {
    PassChangesJob(env, s, e);
    SingleProcessing(s);
    hide Next, Enabled, DocumentChunks;
  }

  lemma SingleProcessing(s: System)
    requires Single(s)
    ensures s.job.status == Queued ==> s.job.attemptCount == 0
  {
  }

  lemma SingleStep(env: Env, s: System, e: Event)
    requires env.Valid() && env.retry.maxAttempts == 1 && Enabled(env, s, e) && Single(s)
    ensures Single(Next(env, s, e)) && (s.job.status == Ready ==> Next(env, s, e).job.status == Ready)
  {
    hide Next, Enabled, Single;
    if IsDataStep(e.action) {
      SingleDataStep(env, s, e);
    } else if WritesJob(e.action) {
      SingleWrite(env, s, e);
    } else if e.action.Deliver? {
      SingleDelivery(env, s, e);
    } else {
      SinglePass(env, s, e);
    }
  }

  lemma {:induction false} SingleRun(env: Env, s: System, events: seq<Event>)
    requires env.Valid() && env.retry.maxAttempts == 1 && Legal(env, s, events) && Single(s)
    ensures Single(Run(env, s, events)) && (s.job.status == Ready ==> Run(env, s, events).job.status == Ready)
    decreases |events|
  {
    if events != [] {
      SingleStep(env, s, events[0]);
      hide Single, Next, Enabled, DocumentChunks;
      SingleRun(env, Next(env, s, events[0]), events[1..]);
    }
  }

  lemma ReadyIsFinalWithOneAttempt(env: Env, lifetime: int)
    requires env.Valid() && env.retry.maxAttempts == 1
    ensures IsFinal(env, lifetime, Ready)
  {
    hide Legal, Timely, Run, DocumentChunks;
    forall versionId, at, events, more ensures Keeps(env, lifetime, Ready, versionId, at, events, more) {
      var s0 := Initial(versionId, at);
      if Legal(env, s0, events) && Legal(env, Run(env, s0, events), more) {
        SingleRun(env, s0, events);
        SingleRun(env, Run(env, s0, events), more);
      }
    }
  }

  // ---------------------------------------------------------------- exactly when

  /** FAILED is final if and only if no worker may write once its claim is as old as the stale threshold. */
  lemma FailedIsFinalIff(env: Env, lifetime: int)
    requires env.Valid()
    ensures IsFinal(env, lifetime, Failed) <==> lifetime <= env.retry.staleAfter
  {
    hide Keeps;
    if lifetime <= env.retry.staleAfter {
      TerminalIsFinalWhenTimely(env, lifetime, Failed);
    } else {
      var events, more := LateWorkerUndoesFailed(env, lifetime, 0, 0);
      assert !Keeps(env, lifetime, Failed, 0, 0, events, more);
    }
  }

  /** READY is final under the same condition, and also whenever there is only a single attempt. */
  lemma ReadyIsFinalIff(env: Env, lifetime: int)
    requires env.Valid()
    ensures IsFinal(env, lifetime, Ready) <==> lifetime <= env.retry.staleAfter || env.retry.maxAttempts == 1
  {
    hide Keeps;
    if env.retry.maxAttempts == 1 {
      ReadyIsFinalWithOneAttempt(env, lifetime);
    } else if lifetime <= env.retry.staleAfter {
      TerminalIsFinalWhenTimely(env, lifetime, Ready);
    } else {
      var events, late := LateWorkerUndoesReady(env, lifetime, 0, 0);
      assert !Keeps(env, lifetime, Ready, 0, 0, events, [late]);
    }
  }
}
