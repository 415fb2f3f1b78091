/** One worker's evaluation run, case by case and variant by variant, as a run of the governance system,
    with a reconciler that may fail it as stale between any two pieces. */
module EvaluationRunner {
  import opened Prelude
  import Scoring
  import opened ScoringLaws
  import opened MicroAveraging
  import opened ManifestCodec
  import opened Evaluation
  import opened Governance
  import opened EvaluationLaws

  /** What executing one case under one variant gives: an exception, or what is to be scored and the
      identifier of the row that is saved. */
  datatype Execution = Raised | Executed(labelled: Scoring.LabelledCase, result: Scoring.CaseResult, resultId: Uuid)

  function StatusOf(gate: Gate, runId: Uuid): Option<RunStatus> {
    if runId in gate.runs then Some(gate.runs[runId].status) else None
  }

  /** A published aggregate: the micro-average and the number of cases behind it. */
  datatype Measurement = Measurement(metric: Scoring.ScoredMetric, caseCount: nat)

  predicate Good(x: Execution, ks: seq<int>) {
    x.Executed? && Scoring.Scorable(x.labelled, x.result, ks)
  }

  /** Every execution so far worked and could be scored. */
  ghost predicate AllGood(xs: seq<Execution>, ks: seq<int>, n: nat)
    requires n <= |xs|
  {
    forall i :: 0 <= i < n ==> Good(xs[i], ks)
  }

  /** The cohort results of every execution are dictionaries. */
  ghost predicate AreResults(xs: seq<Execution>) {
    forall i :: 0 <= i < |xs| && xs[i].Executed? ==> IsResult(xs[i].result)
  }

  function Offset(v: Variant): nat {
    if v.Baseline? then 0 else 1
  }

  function RowsOf(x: Execution, ks: seq<int>): seq<Scoring.ScoredMetric> {
    if Good(x, ks) then Scoring.CaseRows(x.labelled, x.result, ks) else []
  }

  /** The scored cases of one variant: every second piece of the work. */
  function Measured(xs: seq<Execution>, ks: seq<int>, v: Variant, n: nat): (cases: seq<seq<Scoring.ScoredMetric>>)
    requires 2 * n <= |xs|
    ensures |cases| == n && forall i :: 0 <= i < n ==> cases[i] == RowsOf(xs[2 * i + Offset(v)], ks)
  {
    seq(n, i requires 0 <= i < n => RowsOf(xs[2 * i + Offset(v)], ks))
  }

  function Metrics(published: seq<Measurement>): (metrics: seq<Scoring.ScoredMetric>)
    ensures |metrics| == |published| && forall i :: 0 <= i < |published| ==> metrics[i] == published[i].metric
  {
    seq(|published|, i requires 0 <= i < |published| => published[i].metric)
  }

  /** The published rows average these cases, and each counts the values it averages. */
  ghost predicate Publishes(published: seq<Measurement>, cases: seq<seq<Scoring.ScoredMetric>>) {
    && IsAggregate(Metrics(published), Scoring.AllMetrics(cases))
    && forall i :: 0 <= i < |published| ==>
         published[i].caseCount == |Scoring.Group(Scoring.AllMetrics(cases), Scoring.KeyOf(published[i].metric))|
  }

  /** Scored cases hold every key at most once and only proper fractions. */
  ghost predicate WellScored(cases: seq<seq<Scoring.ScoredMetric>>) {
    forall i :: 0 <= i < |cases| ==> Distinct(Scoring.Keys(cases[i])) && AllSound(cases[i])
  }

  lemma MeasuredIsWellScored(xs: seq<Execution>, ks: seq<int>, v: Variant, n: nat)
    requires 2 * n <= |xs| && AreResults(xs)
    ensures WellScored(Measured(xs, ks, v, n))
  {
    hide Scoring.CaseRows, Scoring.Scorable, IsResult, AllSound;
    forall i | 0 <= i < n ensures Distinct(Scoring.Keys(RowsOf(xs[2 * i + Offset(v)], ks)))
        && AllSound(RowsOf(xs[2 * i + Offset(v)], ks)) {
      RowsAreWellScored(xs[2 * i + Offset(v)], ks);
    }
  }

  lemma RowsAreWellScored(x: Execution, ks: seq<int>)
    requires x.Executed? ==> IsResult(x.result)
    ensures Distinct(Scoring.Keys(RowsOf(x, ks))) && AllSound(RowsOf(x, ks))
  {
    hide Scoring.CaseRows, Scoring.Scorable;
    if Good(x, ks) {
      CaseRowsAreDistinct(x.labelled, x.result, ks);
    }
  }

  lemma {:induction false} AllAreSound(cases: seq<seq<Scoring.ScoredMetric>>)
    requires WellScored(cases)
    ensures AllSound(Scoring.AllMetrics(cases)) && Scoring.PositiveDenominators(Scoring.AllMetrics(cases))
  {
    if cases != [] {
      AllAreSound(cases[..|cases| - 1]);
    }
  }

  /** One aggregate row per key of one variant. */
  method Publish(cases: seq<seq<Scoring.ScoredMetric>>) returns (published: seq<Measurement>)
    requires WellScored(cases)
    ensures Publishes(published, cases)
  {
    AllAreSound(cases);
    var rows := Scoring.AggregateMetrics(cases);
    AggregationIsAggregate(rows, Scoring.AllMetrics(cases));
    hide IsAggregate, Scoring.Averages, AllSound, Scoring.Keys;
    published := WithCounts(rows, cases);
    assert Metrics(published) == rows;
  }

  method WithCounts(rows: seq<Scoring.ScoredMetric>, cases: seq<seq<Scoring.ScoredMetric>>)
    returns (published: seq<Measurement>)
    requires forall i :: 0 <= i < |cases| ==> Distinct(Scoring.Keys(cases[i]))
    ensures |published| == |rows|
    ensures forall i :: 0 <= i < |rows| ==>
              published[i] == Measurement(rows[i], |Scoring.Group(Scoring.AllMetrics(cases), Scoring.KeyOf(rows[i]))|)
  {
    hide *;
    published := [];
    for i := 0 to |rows|
      invariant |published| == i
      invariant forall j :: 0 <= j < i ==>
                  published[j] == Measurement(rows[j], |Scoring.Group(Scoring.AllMetrics(cases), Scoring.KeyOf(rows[j]))|)
    {
      CaseCountIsGroupSize(cases, Scoring.KeyOf(rows[i]));
      published := published + [Measurement(rows[i], CaseCount(cases, Scoring.KeyOf(rows[i])))];
    }
  }

  // ---------------------------------------------------------------- the worker

  class EvaluationRunner {
    const testTenant: Option<Uuid>
    const service: EvaluationService
    var baseline: seq<Measurement>
    var candidate: seq<Measurement>
    ghost var origin: System
    ghost var system: System
    ghost var trace: seq<Event>

    /** `trace` is the run of the system so far, and its tables are the service's. */
    ghost predicate Valid()
      reads this, service
    {
      && system.gate == service.gate && GateInvariant(system)
      && Legal(testTenant, origin, trace) && Play(testTenant, origin, trace) == system
    }

    constructor (testTenant: Option<Uuid>, service: EvaluationService, ghost system: System)
      requires system.gate == service.gate && GateInvariant(system)
      ensures Valid() && this.system == origin == system && trace == [] && this.service == service
          && this.testTenant == testTenant
    {
      this.testTenant := testTenant;
      this.service := service;
      this.baseline := [];
      this.candidate := [];
      this.origin := system;
      this.system := system;
      this.trace := [];
    }

    ghost method Record(e: Event)
      requires GateInvariant(system) && Legal(testTenant, origin, trace) && Play(testTenant, origin, trace) == system
      requires Enabled(system, e)
      modifies this`system, this`trace
      ensures system == Next(testTenant, old(system), e) && trace == old(trace) + [e]
      ensures GateInvariant(system) && GateKept(old(system).gate, system.gate)
      ensures Legal(testTenant, origin, trace) && Play(testTenant, origin, trace) == system
    {
      hide Enabled, Next, GateInvariant, GateKept;
      StepKeepsGate(testTenant, system, e);
      assert Legal(testTenant, Next(testTenant, system, e), []);
      assert Legal(testTenant, system, [e]) && Play(testTenant, system, [e]) == Next(testTenant, system, e);
      PlayJoins(testTenant, origin, trace, [e]);
      trace := trace + [e];
      system := Next(testTenant, system, e);
    }

    /** The only worker is at piece `n` of the work on these cases. */
    ghost predicate At(runId: Uuid, n: nat, caseIds: seq<Uuid>)
      reads this, service
    {
      && Valid() && system.runners == map[0 := Runner(runId, n)]
      && HasWork(service.gate, runId) && service.gate.suites[service.gate.runs[runId].suiteId].caseIds == caseIds
    }

    /** What the reconciler may do meanwhile: fail every run whose heartbeat is older. */
    method Race(stale: Option<Time>, ghost runId: Uuid, ghost n: nat, ghost caseIds: seq<Uuid>)
      requires At(runId, n, caseIds)
      modifies service, this`system, this`trace
      ensures At(runId, n, caseIds) && origin == old(origin)
      ensures stale.None? ==> service.gate == old(service.gate)
    {
      hide GateInvariant, Legal, Play, GateKept, Work;
      if stale.Some? {
        var failed := service.FailStaleRunning(stale.value);
        Record(FailStale(stale.value));
      }
    }

    /** Executes, scores and saves one piece, then advances the heartbeat. */
    method RunPiece(runId: Uuid, caseId: Uuid, variant: Variant, x: Execution, ks: seq<int>, at: Time, ghost n: nat,
                    ghost caseIds: seq<Uuid>) returns (ok: bool, rows: seq<Scoring.ScoredMetric>)
      requires At(runId, n, caseIds) && n < |Work(caseIds)| && Work(caseIds)[n] == (caseId, variant)
      modifies service, this`system, this`trace
      ensures origin == old(origin) && ok == Good(x, ks) && (ok ==> rows == RowsOf(x, ks))
      ensures At(runId, if ok then n + 1 else n, caseIds)
      ensures StatusOf(service.gate, runId) == old(StatusOf(service.gate, runId))
      ensures !ok ==> service.gate == old(service.gate)
      ensures ok ==>
                var result := CaseResult(x.resultId, caseId, variant, None);
                var run := old(service.gate).runs[runId];
                service.gate == old(service.gate).(runs := old(service.gate).runs[runId := run.(
                    results := run.results + [result],
                    heartbeat := if run.status == Running then Some(at) else run.heartbeat)])
    {
      hide GateInvariant, Legal, Play, GateKept, Work, Scoring.CaseRows, Scoring.Scorable, Scoring.CaseMeasured,
          Scoring.NothingElse, Scoring.AnchorsParse, NextReg, Distinct;
      ok, rows := false, [];
      if x.Raised? {
        return;
      }
      var scored := Scoring.ScoreCase(x.labelled, x.result, ks);
      if scored.Err? {
        return;
      }
      ok, rows := true, scored.value;
      service.AddCaseResult(runId, CaseResult(x.resultId, caseId, variant, None));
      Record(Save(0, x.resultId));
      assert system.runners == map[0 := Runner(runId, n + 1)];
      service.TouchHeartbeat(runId, at);
      Record(Touch(0, at));
    }

    /** Both variants of case `i`. */
    method RunCase(runId: Uuid, caseIds: seq<Uuid>, i: nat, xs: seq<Execution>, ks: seq<int>, at: Time,
                   stale: nat -> Option<Time>) returns (ok: bool, measured: map<Variant, seq<Scoring.ScoredMetric>>)
      requires At(runId, 2 * i, caseIds) && i < |caseIds| && |xs| == 2 * |caseIds| && AllGood(xs, ks, 2 * i)
      modifies service, this`system, this`trace
      ensures origin == old(origin)
      ensures ok <==> AllGood(xs, ks, 2 * i + 2)
      ensures ok ==> At(runId, 2 * i + 2, caseIds)
      ensures ok ==> measured == map[Baseline := RowsOf(xs[2 * i], ks), Candidate := RowsOf(xs[2 * i + 1], ks)]
      ensures !ok ==> exists n: nat :: n < 2 * |caseIds| && At(runId, n, caseIds)
      ensures Unraced(stale) ==> StatusOf(service.gate, runId) == old(StatusOf(service.gate, runId))
    {
      hide At, Work, RowsOf, Good, Unraced, StatusOf;
      ok, measured := true, map[];
      ghost var before := StatusOf(service.gate, runId);
      for j := 0 to 2
        invariant ok && At(runId, 2 * i + j, caseIds) && origin == old(origin) && AllGood(xs, ks, 2 * i + j)
        invariant measured.Keys == set v: Variant | Offset(v) < j
        invariant forall v: Variant :: Offset(v) < j ==> measured[v] == RowsOf(xs[2 * i + Offset(v)], ks)
        invariant Unraced(stale) ==> StatusOf(service.gate, runId) == before
      {
        var variant := if j == 0 then Baseline else Candidate;
        NoRace(stale, 2 * i + j);
        Race(stale(2 * i + j), runId, 2 * i + j, caseIds);
        PieceOfWork(caseIds, i, variant);
        var rows;
        ok, rows := RunPiece(runId, caseIds[i], variant, xs[2 * i + j], ks, at, 2 * i + j, caseIds);
        if !ok {
          return;
        }
        measured := measured[variant := rows];
      }
    }

    /** The exception path: the run fails unless it is over already. */
    method Stop(runId: Uuid, ghost n: nat, ghost caseIds: seq<Uuid>)
      requires At(runId, n, caseIds) && n < 2 * |caseIds|
      modifies service, this`system, this`trace
      ensures Valid() && origin == old(origin)
      ensures StatusOf(service.gate, runId) == if old(StatusOf(service.gate, runId)) == Some(Running) then Some(Failed)
                                               else old(StatusOf(service.gate, runId))
      ensures StatusOf(service.gate, runId) != Some(Completed)
    {
      hide GateInvariant, Legal, Play, GateKept, Work, NextReg;
      NotYetCompleted(system, runId, n);
      service.UpdateRunStatus(runId, Failed);
      Record(Fail(0));
    }

    method Finish(runId: Uuid, caseIds: seq<Uuid>)
      requires At(runId, 2 * |caseIds|, caseIds)
      modifies service, this`system, this`trace
      ensures Valid() && origin == old(origin)
      ensures StatusOf(service.gate, runId) == if old(StatusOf(service.gate, runId)) == Some(Running) then Some(Completed)
                                               else old(StatusOf(service.gate, runId))
    {
      hide GateInvariant, Legal, Play, GateKept, Work;
      service.UpdateRunStatus(runId, Completed);
      Record(Complete(0));
    }

    method Claim(runId: Uuid, at: Time) returns (claimed: bool, caseIds: seq<Uuid>)
      requires Valid() && system.runners == map[]
      modifies service, this`system, this`trace
      ensures origin == old(origin) && claimed == CanClaim(old(service.gate), runId)
      ensures claimed ==> At(runId, 0, caseIds) && StatusOf(service.gate, runId) == Some(Running)
      ensures claimed ==>
                HasWork(old(service.gate), runId) && caseIds != [] && 2 * |caseIds| == |WorkOf(old(service.gate), runId)|
      ensures !claimed ==> Valid() && service.gate == old(service.gate)
    {
      hide Legal, Play, GateKept, Work;
      caseIds := [];
      hide GateInvariant, NextReg;
      ClaimableHasWork(system, runId);
      claimed := service.ClaimRun(runId, at);
      if claimed {
        Record(Event.Claim(0, runId, at));
        caseIds := service.gate.suites[service.gate.runs[runId].suiteId].caseIds;
      }
    }

    /** Claims the run, takes every case under both variants, publishes the averages, completes the run.
        `valid` says whether the stored manifest and the corpus pass their checks. An unclaimable run is
        left alone; undisturbed, the run completes exactly when everything succeeds and fails otherwise;
        disturbed or not, it only completes with every piece saved and with published averages of exactly
        the scored cases. What the worker does is always a legal run of the whole system. */
    method Run(runId: Uuid, valid: bool, xs: seq<Execution>, ks: seq<int>, at: Time, stale: nat -> Option<Time>)
      requires Valid() && system.runners == map[] && AreResults(xs)
      requires HasWork(service.gate, runId) ==> |xs| == |WorkOf(service.gate, runId)|
      modifies service, this
      ensures Valid() && origin == old(origin)
      ensures !CanClaim(old(service.gate), runId) ==> service.gate == old(service.gate)
      ensures CanClaim(old(service.gate), runId) && Unraced(stale) ==>
                StatusOf(service.gate, runId) == Some(if valid && AllGood(xs, ks, |xs|) then Completed else Failed)
      ensures CanClaim(old(service.gate), runId) && StatusOf(service.gate, runId) == Some(Completed) ==>
                && valid && AllGood(xs, ks, |xs|) && |xs| % 2 == 0
                && Publishes(baseline, Measured(xs, ks, Baseline, |xs| / 2))
                && Publishes(candidate, Measured(xs, ks, Candidate, |xs| / 2))
    {
      hide At, Work, RowsOf, Good, Unraced, StatusOf, HasWork, CanClaim, GateInvariant, Legal, Play, Publishes;
      var claimed, caseIds := Claim(runId, at);
      if !claimed {
        return;
      }
      if !valid {
        Stop(runId, 0, caseIds);
        return;
      }
      var baselines: seq<seq<Scoring.ScoredMetric>>, candidates: seq<seq<Scoring.ScoredMetric>> := [], [];
      for i := 0 to |caseIds|
        invariant At(runId, 2 * i, caseIds) && AllGood(xs, ks, 2 * i) && origin == old(origin)
        invariant baselines == Measured(xs, ks, Baseline, i) && candidates == Measured(xs, ks, Candidate, i)
        invariant Unraced(stale) ==> StatusOf(service.gate, runId) == Some(Running)
      {
        var ok, measured := RunCase(runId, caseIds, i, xs, ks, at, stale);
        if !ok {
          ghost var n: nat :| n < 2 * |caseIds| && At(runId, n, caseIds);
          Stop(runId, n, caseIds);
          return;
        }
        baselines, candidates := baselines + [measured[Baseline]], candidates + [measured[Candidate]];
      }
      MeasuredIsWellScored(xs, ks, Baseline, |caseIds|);
      MeasuredIsWellScored(xs, ks, Candidate, |caseIds|);
      var baselineRows := Publish(baselines);
      var candidateRows := Publish(candidates);
      Finish(runId, caseIds);
      baseline, candidate := baselineRows, candidateRows;
    }
  }

  lemma ClaimableHasWork(s: System, runId: Uuid)
    requires GateInvariant(s)
    ensures CanClaim(s.gate, runId) ==> HasWork(s.gate, runId) && s.gate.suites[s.gate.runs[runId].suiteId].caseIds != []
  {
    hide Fits, WellFormed, IsManifest, Work;
    if CanClaim(s.gate, runId) {
      assert RunInvariant(s.gate.runs[runId], s.gate.suites);
    }
  }

  lemma NotYetCompleted(s: System, runId: Uuid, n: nat)
    requires GateInvariant(s) && s.runners == map[0 := Runner(runId, n)] && HasWork(s.gate, runId)
        && n < |WorkOf(s.gate, runId)|
    ensures s.gate.runs[runId].status != Completed
  {
    hide Fits, WellFormed, IsManifest, Work;
    assert RunnerInvariant(s.runners[0], s.gate) && RunInvariant(s.gate.runs[runId], s.gate.suites);
  }

  lemma NoRace(stale: nat -> Option<Time>, n: nat)
    ensures Unraced(stale) ==> stale(n) == None
  {
  }

  lemma PieceOfWork(caseIds: seq<Uuid>, i: nat, variant: Variant)
    requires i < |caseIds|
    ensures Work(caseIds)[2 * i + Offset(variant)] == (caseIds[i], variant)
  {
  }

  ghost predicate Unraced(stale: nat -> Option<Time>) {
    forall i: nat :: stale(i) == None
  }
}
