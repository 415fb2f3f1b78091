/** What every run of the system keeps of the evaluation tables: guarded run status, exactly one result
    per case and variant, and evidence that is never undone. */
module EvaluationLaws {
  import opened Prelude
  import opened PyText
  import opened ManifestCodec
  import opened Evaluation
  import opened Activation
  import opened Governance

  // ---------------------------------------------------------------- evidence only grows

  /** Ratings are only ever added. */
  ghost predicate ResultsKept(before: seq<CaseResult>, after: seq<CaseResult>) {
    && |before| == |after| && Pairs(before) == Pairs(after)
    && forall i :: 0 <= i < |before| && before[i].quality.Some? ==> after[i] == before[i]
  }

  /** The two rows compare the same things. */
  ghost predicate SameComparison(a: Evaluation.Run, b: Evaluation.Run) {
    && a.suiteId == b.suiteId && a.mode == b.mode && a.manifest == b.manifest
    && a.tenantId == b.tenantId && a.baseline == b.baseline && a.candidate == b.candidate
  }

  lemma SameComparisonFits(a: Evaluation.Run, b: Evaluation.Run, suite: Suite)
    requires SameComparison(a, b) && Fits(a, suite)
    ensures Fits(b, suite)
  {
    hide FitsSuite, ReusesCorpus, PairsCopies;
  }

  /** What no event changes about a run; a completed or failed run keeps its status, and a completed one
      its results. */
  ghost predicate RunKept(before: Evaluation.Run, after: Evaluation.Run) {
    && SameComparison(before, after)
    && (before.status in {Completed, Failed} ==> after.status == before.status)
    && (before.status != Pending ==> after.status != Pending)
    && (before.status == Completed ==> ResultsKept(before.results, after.results))
  }

  ghost predicate RunsKept(before: map<Uuid, Evaluation.Run>, after: map<Uuid, Evaluation.Run>) {
    forall id :: id in before ==> id in after && RunKept(before[id], after[id])
  }

  ghost predicate SuitesKept(before: map<Uuid, Suite>, after: map<Uuid, Suite>) {
    forall id :: id in before ==> id in after && after[id] == before[id]
  }

  ghost predicate ReviewsKept(before: map<Uuid, bool>, after: map<Uuid, bool>) {
    forall id :: id in before ==> id in after && after[id] == before[id]
  }

  ghost predicate GateKept(before: Gate, after: Gate) {
    RunsKept(before.runs, after.runs) && SuitesKept(before.suites, after.suites)
        && ReviewsKept(before.reviews, after.reviews)
  }

  lemma RunKeptJoins(a: Evaluation.Run, b: Evaluation.Run, c: Evaluation.Run)
    requires RunKept(a, b) && RunKept(b, c)
    ensures RunKept(a, c)
  {
    if a.status == Completed {
      forall i | 0 <= i < |a.results| && a.results[i].quality.Some? ensures c.results[i] == a.results[i] {
        assert b.results[i] == a.results[i];
      }
    }
  }

  lemma GateKeptJoins(a: Gate, b: Gate, c: Gate)
    requires GateKept(a, b) && GateKept(b, c)
    ensures GateKept(a, c)
  {
    forall id | id in a.runs ensures id in c.runs && RunKept(a.runs[id], c.runs[id]) {
      RunKeptJoins(a.runs[id], b.runs[id], c.runs[id]);
    }
  }

  // ---------------------------------------------------------------- invariants

  /** A run fits its suite, its results follow the work list, and a completed run has done all of it. */
  ghost predicate RunInvariant(run: Evaluation.Run, suites: map<Uuid, Suite>) {
    && run.suiteId in suites && Fits(run, suites[run.suiteId]) && WellFormed(run.manifest) && IsManifest(run.manifest)
    && Pairs(run.results) <= Work(suites[run.suiteId].caseIds)
    && (run.status == Pending ==> run.results == [])
    && (run.status == Completed ==> Pairs(run.results) == Work(suites[run.suiteId].caseIds))
  }

  ghost predicate RunsInvariant(gate: Gate) {
    forall id :: id in gate.runs ==> RunInvariant(gate.runs[id], gate.suites)
  }

  ghost predicate SuitesInvariant(suites: map<Uuid, Suite>) {
    forall id :: id in suites ==> IsSuite(suites[id])
  }

  /** Decisions exist only on completed runs, approvals only with every candidate answer rated. */
  ghost predicate ReviewInvariant(gate: Gate, runId: Uuid) {
    runId in gate.runs && gate.runs[runId].status == Completed && (runId in gate.reviews && gate.reviews[runId] ==>
        EveryAnswerRated(gate.runs[runId]))
  }

  ghost predicate ReviewsInvariant(gate: Gate) {
    forall id :: id in gate.reviews ==> ReviewInvariant(gate, id)
  }

  ghost predicate RunnerInvariant(w: Runner, gate: Gate) {
    && w.runId in gate.runs && gate.runs[w.runId].status != Pending
    && w.done == |gate.runs[w.runId].results|
  }

  /** Every runner is at the end of its run's results, and no run has two. */
  ghost predicate RunnersInvariant(runners: map<nat, Runner>, gate: Gate) {
    && (forall w :: w in runners ==> RunnerInvariant(runners[w], gate))
    && (forall v, w :: v in runners && w in runners && v != w ==> runners[v].runId != runners[w].runId)
  }

  ghost predicate GateInvariant(s: System) {
    SuitesInvariant(s.gate.suites) && RunsInvariant(s.gate) && ReviewsInvariant(s.gate)
        && RunnersInvariant(s.runners, s.gate)
  }

  // ---------------------------------------------------------------- single steps

  /** What one event may do to a row that already exists. */
  ghost predicate RunStep(before: Evaluation.Run, after: Evaluation.Run, suites: map<Uuid, Suite>) {
    RunKept(before, after) && RunInvariant(after, suites)
    && (before.status == Completed && EveryAnswerRated(before) ==> EveryAnswerRated(after))
  }

  /** The same row apart from status and heartbeat. */
  lemma StatusChange(before: Evaluation.Run, after: Evaluation.Run, suites: map<Uuid, Suite>)
    requires RunInvariant(before, suites) && SameComparison(before, after) && after.results == before.results
    requires after.status == before.status || (before.status in {Pending, Running} && after.status in {Running, Failed})
             || (before.status == Running && after.status == Completed
                 && Pairs(before.results) == Work(suites[before.suiteId].caseIds))
    ensures RunStep(before, after, suites)
  {
    SameComparisonFits(before, after, suites[before.suiteId]);
    hide Fits, WellFormed, IsManifest, Work;
  }

  lemma Unchanged(run: Evaluation.Run, suites: map<Uuid, Suite>)
    requires RunInvariant(run, suites)
    ensures RunStep(run, run, suites)
  {
    StatusChange(run, run, suites);
  }

  lemma SameGateIsKept(gate: Gate)
    ensures GateKept(gate, gate)
  {
  }

  /** Every row makes such a step, suites and decisions stay. */
  ghost predicate RunsStep(before: Gate, after: Gate) {
    && after.suites == before.suites && after.reviews == before.reviews && after.runs.Keys == before.runs.Keys
    && forall id :: id in before.runs ==> RunStep(before.runs[id], after.runs[id], before.suites)
  }

  lemma RunsStepKeeps(s: System, gate: Gate)
    requires GateInvariant(s) && RunsStep(s.gate, gate)
    ensures GateKept(s.gate, gate) && RunsInvariant(gate) && ReviewsInvariant(gate)
  {
    hide RunKept, RunInvariant, EveryAnswerRated, IsSuite;
    forall id | id in gate.reviews ensures ReviewInvariant(gate, id) {
      assert ReviewInvariant(s.gate, id);
      KeptStatus(s.gate.runs[id], gate.runs[id]);
    }
  }

  lemma KeptStatus(before: Evaluation.Run, after: Evaluation.Run)
    requires RunKept(before, after)
    ensures before.status in {Completed, Failed} ==> after.status == before.status
    ensures before.status != Pending ==> after.status != Pending
  {
  }

  /** No run gains or loses a result: every runner is still at the end of its run's results. */
  lemma RunnersStay(s: System, gate: Gate)
    requires RunnersInvariant(s.runners, s.gate) && RunsStep(s.gate, gate)
    requires forall id :: id in s.gate.runs ==> |gate.runs[id].results| == |s.gate.runs[id].results|
    ensures RunnersInvariant(s.runners, gate)
  {
    hide RunKept, RunInvariant, EveryAnswerRated;
    forall w | w in s.runners ensures RunnerInvariant(s.runners[w], gate) {
      assert RunnerInvariant(s.runners[w], s.gate);
      KeptStatus(s.gate.runs[s.runners[w].runId], gate.runs[s.runners[w].runId]);
    }
  }

  /** One row steps. */
  lemma OneRunSteps(gate: Gate, runId: Uuid, run: Evaluation.Run)
    requires RunsInvariant(gate) && runId in gate.runs && RunStep(gate.runs[runId], run, gate.suites)
    ensures RunsStep(gate, gate.(runs := gate.runs[runId := run]))
  {
    hide RunStep, RunInvariant;
    forall id | id in gate.runs ensures RunStep(gate.runs[id], if id == runId then run else gate.runs[id], gate.suites) {
      Unchanged(gate.runs[id], gate.suites);
    }
  }

  /** What every step of the tables keeps, given the runners afterwards. */
  ghost predicate Kept(s: System, gate: Gate, runners: map<nat, Runner>) {
    GateKept(s.gate, gate) && RunsInvariant(gate) && ReviewsInvariant(gate) && RunnersInvariant(runners, gate)
  }

  lemma OneRow(s: System, runId: Uuid, run: Evaluation.Run)
    requires GateInvariant(s) && runId in s.gate.runs && RunStep(s.gate.runs[runId], run, s.gate.suites)
    requires |run.results| == |s.gate.runs[runId].results|
    ensures Kept(s, s.gate.(runs := s.gate.runs[runId := run]), s.runners)
  {
    var gate := s.gate.(runs := s.gate.runs[runId := run]);
    hide RunStep, RunsStep, GateKept, RunsInvariant, ReviewsInvariant, RunnersInvariant, SuitesInvariant;
    OneRunSteps(s.gate, runId, run);
    RunsStepKeeps(s, gate);
    RunnersStay(s, gate);
  }

  lemma NoStep(s: System)
    requires GateInvariant(s)
    ensures Kept(s, s.gate, s.runners)
  {
    hide RunsInvariant, ReviewsInvariant, RunnersInvariant, GateKept;
    SameGateIsKept(s.gate);
  }

  lemma StatusStep(s: System, runId: Uuid, status: RunStatus)
    requires GateInvariant(s) && runId in s.gate.runs && status in {Completed, Failed}
    requires status == Completed ==> Pairs(s.gate.runs[runId].results) == WorkOf(s.gate, runId)
    ensures Kept(s, WithStatus(s.gate, runId, status), s.runners)
  {
    assert RunInvariant(s.gate.runs[runId], s.gate.suites);
    hide GateInvariant, Kept, RunInvariant, RunStep;
    NoStep(s);
    if s.gate.runs[runId].status == Running {
      StatusChange(s.gate.runs[runId], s.gate.runs[runId].(status := status), s.gate.suites);
      OneRow(s, runId, s.gate.runs[runId].(status := status));
    }
  }

  lemma TouchStep(s: System, runId: Uuid, at: Time)
    requires GateInvariant(s)
    ensures Kept(s, Touched(s.gate, runId, at), s.runners)
  {
    assert runId in s.gate.runs ==> RunInvariant(s.gate.runs[runId], s.gate.suites);
    hide GateInvariant, Kept, RunInvariant, RunStep;
    NoStep(s);
    if runId in s.gate.runs && s.gate.runs[runId].status == Running {
      StatusChange(s.gate.runs[runId], s.gate.runs[runId].(heartbeat := Some(at)), s.gate.suites);
      OneRow(s, runId, s.gate.runs[runId].(heartbeat := Some(at)));
    }
  }

  lemma StaleStep(s: System, before: Time)
    requires GateInvariant(s)
    ensures Kept(s, StaleFailed(s.gate, before), s.runners)
  {
    var gate := StaleFailed(s.gate, before);
    hide RunInvariant, RunStep, GateKept, ReviewsInvariant, RunnersInvariant;
    forall id | id in s.gate.runs ensures RunStep(s.gate.runs[id], gate.runs[id], s.gate.suites) {
      assert RunInvariant(s.gate.runs[id], s.gate.suites);
      StatusChange(s.gate.runs[id], gate.runs[id], s.gate.suites);
    }
    RunsStepKeeps(s, gate);
    RunnersStay(s, gate);
  }

  lemma RatedStep(run: Evaluation.Run, suites: map<Uuid, Suite>, resultId: Uuid, quality: real)
    requires RunInvariant(run, suites)
    ensures RunStep(run, run.(results := Rated(run.results, resultId, quality)), suites)
  {
    var rated := Rated(run.results, resultId, quality);
    SameComparisonFits(run, run.(results := rated), suites[run.suiteId]);
    hide Fits, WellFormed, IsManifest, Work;
    assert Pairs(rated) == Pairs(run.results);
    if EveryAnswerRated(run) {
      forall r | r in rated && r.variant == Candidate ensures r.quality.Some? {
        var i :| 0 <= i < |rated| && rated[i] == r;
        assert run.results[i] in run.results;
      }
    }
  }

  lemma RateStep(s: System, resultId: Uuid, quality: real)
    requires GateInvariant(s)
    ensures Kept(s, WithQuality(s.gate, resultId, quality), s.runners)
  {
    var gate := WithQuality(s.gate, resultId, quality);
    hide RunInvariant, RunStep, GateKept, ReviewsInvariant, RunnersInvariant;
    forall id | id in s.gate.runs ensures RunStep(s.gate.runs[id], gate.runs[id], s.gate.suites) {
      assert RunInvariant(s.gate.runs[id], s.gate.suites);
      RatedStep(s.gate.runs[id], s.gate.suites, resultId, quality);
    }
    RunsStepKeeps(s, gate);
    RunnersStay(s, gate);
  }

  lemma ClaimedRow(gate: Gate, runId: Uuid, at: Time)
    requires RunsInvariant(gate) && CanClaim(gate, runId)
    ensures var run := gate.runs[runId];
            run.results == [] && RunStep(run, run.(status := Running, heartbeat := Some(at)), gate.suites)
  {
    var run := gate.runs[runId];
    assert RunInvariant(run, gate.suites);
    StatusChange(run, run.(status := Running, heartbeat := Some(at)), gate.suites);
  }

  lemma AddRunner(s: System, gate: Gate, w: nat, runner: Runner)
    requires Kept(s, gate, s.runners) && w !in s.runners && RunnerInvariant(runner, gate)
    requires forall v :: v in s.runners ==> s.runners[v].runId != runner.runId
    ensures Kept(s, gate, s.runners[w := runner])
  {
    hide RunnerInvariant, GateKept, RunsInvariant, ReviewsInvariant;
  }

  lemma ClaimStep(s: System, w: nat, runId: Uuid, at: Time)
    requires GateInvariant(s) && w !in s.runners && CanClaim(s.gate, runId)
    ensures Kept(s, Claimed(s.gate, runId, at), s.runners[w := Runner(runId, 0)])
  {
    ClaimedRow(s.gate, runId, at);
    NobodyRuns(s, runId);
    hide RunStep, GateInvariant, Kept, RunnerInvariant;
    OneRow(s, runId, s.gate.runs[runId].(status := Running, heartbeat := Some(at)));
    NewRunner(Claimed(s.gate, runId, at), runId);
    AddRunner(s, Claimed(s.gate, runId, at), w, Runner(runId, 0));
  }

  lemma NobodyRuns(s: System, runId: Uuid)
    requires RunnersInvariant(s.runners, s.gate) && CanClaim(s.gate, runId)
    ensures forall w :: w in s.runners ==> s.runners[w].runId != runId
  {
    forall w | w in s.runners ensures s.runners[w].runId != runId {
      assert RunnerInvariant(s.runners[w], s.gate);
    }
  }

  lemma NewRunner(gate: Gate, runId: Uuid)
    requires runId in gate.runs && gate.runs[runId].status == Running && gate.runs[runId].results == []
    ensures RunnerInvariant(Runner(runId, 0), gate)
  {
  }

  /** A runner in the middle of its work belongs to a run that is not completed, and saves the next pair. */
  lemma SavedRun(run: Evaluation.Run, suites: map<Uuid, Suite>, result: CaseResult)
    requires RunInvariant(run, suites) && run.status != Pending
    requires |run.results| < |Work(suites[run.suiteId].caseIds)|
    requires (result.caseId, result.variant) == Work(suites[run.suiteId].caseIds)[|run.results|]
    ensures RunStep(run, run.(results := run.results + [result]), suites)
  {
    var after := run.(results := run.results + [result]);
    SameComparisonFits(run, after, suites[run.suiteId]);
    hide Fits, WellFormed, IsManifest, Work;
    var work := Work(suites[run.suiteId].caseIds);
    assert Pairs(after.results) == Pairs(run.results) + [work[|run.results|]];
    assert Pairs(run.results) == work[..|run.results|];
    assert work[..|run.results|] + [work[|run.results|]] == work[..|run.results| + 1];
    assert Pairs(after.results) <= work;
  }

  lemma SavedRow(s: System, w: nat, resultId: Uuid)
    requires RunsInvariant(s.gate) && RunnersInvariant(s.runners, s.gate) && w in s.runners
        && InProgress(s.gate, s.runners[w])
    ensures var runner := s.runners[w];
            && runner.runId in s.gate.runs && runner.done == |s.gate.runs[runner.runId].results|
            && RunsStep(s.gate, WithResult(s.gate, runner.runId, NextResult(s.gate, runner, resultId)))
  {
    var runner := s.runners[w];
    var run, result := s.gate.runs[runner.runId], NextResult(s.gate, runner, resultId);
    assert RunnerInvariant(runner, s.gate) && RunInvariant(run, s.gate.suites);
    SavedRun(run, s.gate.suites, result);
    hide RunsStep, RunInvariant, RunStep, RunsInvariant, RunnersInvariant, NextResult;
    OneRunSteps(s.gate, runner.runId, run.(results := run.results + [result]));
  }

  lemma SavedShape(gate: Gate, runId: Uuid, result: CaseResult)
    requires runId in gate.runs
    ensures var after := WithResult(gate, runId, result);
            && after.runs.Keys == gate.runs.Keys && |after.runs[runId].results| == |gate.runs[runId].results| + 1
            && forall id :: id in gate.runs && id != runId ==> after.runs[id] == gate.runs[id]
  {
  }

  lemma SaveStep(s: System, w: nat, resultId: Uuid)
    requires GateInvariant(s) && w in s.runners && InProgress(s.gate, s.runners[w])
    ensures var runner := s.runners[w];
            Kept(s, WithResult(s.gate, runner.runId, NextResult(s.gate, runner, resultId)),
                s.runners[w := runner.(done := runner.done + 1)])
  {
    var gate := WithResult(s.gate, s.runners[w].runId, NextResult(s.gate, s.runners[w], resultId));
    hide RunStep, RunsStep, GateKept, RunsInvariant, ReviewsInvariant, RunnersInvariant, NextResult, InProgress,
        SuitesInvariant, WithResult;
    SavedRow(s, w, resultId);
    SavedShape(s.gate, s.runners[w].runId, NextResult(s.gate, s.runners[w], resultId));
    RunsStepKeeps(s, gate);
    OthersStay(s, w, gate);
  }

  lemma OthersStay(s: System, w: nat, gate: Gate)
    requires RunnersInvariant(s.runners, s.gate) && w in s.runners && RunsStep(s.gate, gate)
    requires forall id :: id in s.gate.runs && id != s.runners[w].runId ==> gate.runs[id] == s.gate.runs[id]
    requires |gate.runs[s.runners[w].runId].results| == s.runners[w].done + 1
    ensures RunnersInvariant(s.runners[w := s.runners[w].(done := s.runners[w].done + 1)], gate)
  {
    hide RunStep;
    var runners := s.runners[w := s.runners[w].(done := s.runners[w].done + 1)];
    assert RunnerInvariant(s.runners[w], s.gate);
    StepStatus(s.gate.runs[s.runners[w].runId], gate.runs[s.runners[w].runId], s.gate.suites);
    forall v | v in runners ensures RunnerInvariant(runners[v], gate) {
      if v != w {
        assert RunnerInvariant(s.runners[v], s.gate);
      }
    }
  }

  lemma StepStatus(before: Evaluation.Run, after: Evaluation.Run, suites: map<Uuid, Suite>)
    requires RunStep(before, after, suites)
    ensures before.status != Pending ==> after.status != Pending
  {
  }

  lemma DecideStep(s: System, runId: Uuid, decision: string, reason: string, reviewedRunId: Uuid)
    requires GateInvariant(s) && Decision(s.gate, runId, decision, reason, reviewedRunId).Ok?
    ensures Kept(s, Decision(s.gate, runId, decision, reason, reviewedRunId).value, s.runners)
  {
    hide RunInvariant, EveryAnswerRated, EveryCaseFinished, IsSuite, RunKept;
    var gate := Decision(s.gate, runId, decision, reason, reviewedRunId).value;
    assert RunsKept(s.gate.runs, gate.runs) by {
      SameGateIsKept(s.gate);
    }
    forall id | id in gate.reviews ensures ReviewInvariant(gate, id) {
      if id != runId {
        assert ReviewInvariant(s.gate, id);
      }
    }
    SameRuns(s, gate);
  }

  lemma SameRuns(s: System, gate: Gate)
    requires RunnersInvariant(s.runners, s.gate) && forall id :: id in s.gate.runs ==>
        id in gate.runs && gate.runs[id] == s.gate.runs[id]
    ensures RunnersInvariant(s.runners, gate)
  {
    forall w | w in s.runners ensures RunnerInvariant(s.runners[w], gate) {
      assert RunnerInvariant(s.runners[w], s.gate);
    }
  }

  lemma LaunchStep(s: System, runId: Uuid, cmd: LaunchCommand, readable: bool)
    requires GateInvariant(s) && runId !in s.gate.runs && Admission(s.gate, s.reg.profiles, cmd, readable).Ok?
    ensures Kept(s, s.gate.(runs := s.gate.runs[runId := Admission(s.gate, s.reg.profiles, cmd, readable).value]), s.runners)
  {
    hide Admission, Fits, WellFormed, IsManifest, Kept, GateInvariant;
    AdmittedRunFits(s.gate, s.reg.profiles, cmd, readable);
    AddRun(s, runId, Admission(s.gate, s.reg.profiles, cmd, readable).value);
  }

  lemma AddRun(s: System, runId: Uuid, run: Evaluation.Run)
    requires GateInvariant(s) && runId !in s.gate.runs && run.status == Pending && run.results == []
    requires run.suiteId in s.gate.suites && Fits(run, s.gate.suites[run.suiteId]) && WellFormed(run.manifest)
        && IsManifest(run.manifest)
    ensures Kept(s, s.gate.(runs := s.gate.runs[runId := run]), s.runners)
  {
    hide Fits, WellFormed, IsManifest, Work, EveryAnswerRated, IsSuite;
    var gate := s.gate.(runs := s.gate.runs[runId := run]);
    assert RunInvariant(run, gate.suites);
    hide RunInvariant;
    forall id | id in gate.reviews ensures ReviewInvariant(gate, id) {
      assert ReviewInvariant(s.gate, id);
    }
    SameRuns(s, gate);
  }

  lemma AddSuiteStep(s: System, id: Uuid, suite: Suite)
    requires GateInvariant(s) && id !in s.gate.suites && IsSuite(suite)
    ensures var gate := s.gate.(suites := s.gate.suites[id := suite]);
            Kept(s, gate, s.runners) && SuitesInvariant(gate.suites)
  {
    hide Fits, WellFormed, IsManifest, Work, EveryAnswerRated, IsSuite;
    var gate := s.gate.(suites := s.gate.suites[id := suite]);
    SameGateIsKept(s.gate);
    forall r | r in gate.runs ensures RunInvariant(gate.runs[r], gate.suites) {
      assert RunInvariant(s.gate.runs[r], s.gate.suites);
    }
    hide RunInvariant, RunKept;
    forall r | r in gate.reviews ensures ReviewInvariant(gate, r) {
      assert ReviewInvariant(s.gate, r);
    }
    SameRuns(s, gate);
  }

  lemma FewerRunners(s: System, gate: Gate, w: nat)
    requires Kept(s, gate, s.runners)
    ensures Kept(s, gate, s.runners - {w})
  {
    hide RunnerInvariant, GateKept, RunsInvariant, ReviewsInvariant;
  }

  lemma CompleteStep(s: System, w: nat)
    requires GateInvariant(s) && w in s.runners && Finished(s.gate, s.runners[w])
    ensures Kept(s, WithStatus(s.gate, s.runners[w].runId, Completed), s.runners - {w})
  {
    var runId := s.runners[w].runId;
    assert RunnerInvariant(s.runners[w], s.gate) && RunInvariant(s.gate.runs[runId], s.gate.suites);
    hide Work, Fits;
    assert Pairs(s.gate.runs[runId].results) == WorkOf(s.gate, runId);
    hide *;
    StatusStep(s, runId, Completed);
    FewerRunners(s, WithStatus(s.gate, runId, Completed), w);
  }

  lemma EndStep(s: System, w: nat, fails: bool)
    requires GateInvariant(s) && w in s.runners
    ensures Kept(s, if fails then WithStatus(s.gate, s.runners[w].runId, Failed) else s.gate, s.runners - {w})
  {
    assert RunnerInvariant(s.runners[w], s.gate);
    hide GateInvariant, Kept, WithStatus;
    NoStep(s);
    FewerRunners(s, s.gate, w);
    if fails {
      StatusStep(s, s.runners[w].runId, Failed);
      FewerRunners(s, WithStatus(s.gate, s.runners[w].runId, Failed), w);
    }
  }

  lemma ClaimOrNot(s: System, w: nat, runId: Uuid, at: Time)
    requires GateInvariant(s) && w !in s.runners
    ensures Kept(s, Claimed(s.gate, runId, at),
                 if CanClaim(s.gate, runId) then s.runners[w := Runner(runId, 0)] else s.runners)
  {
    hide GateInvariant, Kept;
    NoStep(s);
    if CanClaim(s.gate, runId) {
      ClaimStep(s, w, runId, at);
    }
  }

  lemma RateOrNot(s: System, runId: Uuid, resultId: Uuid, quality: real, note: string)
    requires GateInvariant(s)
    ensures Kept(s, OrElse(AnswerReview(s.gate, runId, resultId, quality, note), s.gate), s.runners)
  {
    hide GateInvariant, Kept, WithQuality;
    NoStep(s);
    if AnswerReview(s.gate, runId, resultId, quality, note).Ok? {
      RateStep(s, resultId, quality);
    }
  }

  // ---------------------------------------------------------------- every event

  ghost predicate OfRunner(e: Event) {
    e.Claim? || e.Save? || e.Touch? || e.Complete? || e.Fail? || e.Crash?
  }

  lemma RunnerStep(s: System, e: Event)
    requires Enabled(s, e) && GateInvariant(s) && OfRunner(e)
    ensures Kept(s, NextGate(s, e), NextRunners(s, e))
  {
    hide GateInvariant, Kept, Claimed, Touched, WithStatus, WithResult, NextResult, InProgress, Finished, CanClaim;
    match e {
      case Claim(w, runId, at) => ClaimOrNot(s, w, runId, at);
      case Save(w, resultId) => SaveStep(s, w, resultId);
      case Touch(w, at) => TouchStep(s, s.runners[w].runId, at);
      case Complete(w) => CompleteStep(s, w);
      case Fail(w) => EndStep(s, w, true);
      case Crash(w) => EndStep(s, w, false);
    }
  }

  lemma TablesStep(s: System, e: Event)
    requires Enabled(s, e) && GateInvariant(s) && !OfRunner(e)
    ensures Kept(s, NextGate(s, e), NextRunners(s, e))
  {
    hide GateInvariant, Kept, SuitesInvariant, IsSuite, Decision, Admission, AnswerReview, StaleFailed;
    NoStep(s);
    match e {
      case AddSuite(id, suite) => AddSuiteStep(s, id, suite);
      case Launch(runId, cmd, readable) =>
        if Admission(s.gate, s.reg.profiles, cmd, readable).Ok? {
          LaunchStep(s, runId, cmd, readable);
        }
      case FailStale(before) => StaleStep(s, before);
      case Rate(runId, resultId, quality, note) => RateOrNot(s, runId, resultId, quality, note);
      case Decide(runId, decision, reason, reviewedRunId) =>
        if Decision(s.gate, runId, decision, reason, reviewedRunId).Ok? {
          DecideStep(s, runId, decision, reason, reviewedRunId);
        }
      case _ =>
    }
  }

  lemma SuitesStay(s: System, e: Event)
    requires Enabled(s, e) && SuitesInvariant(s.gate.suites)
    ensures SuitesInvariant(NextGate(s, e).suites)
  {
    hide Admission, InProgress, Finished, Strip, FirstResult, EveryCaseFinished, EveryAnswerRated, NextResult;
  }

  lemma StepKeepsGate(testTenant: Option<Uuid>, s: System, e: Event)
    requires Enabled(s, e) && GateInvariant(s)
    ensures GateInvariant(Next(testTenant, s, e)) && GateKept(s.gate, Next(testTenant, s, e).gate)
  {
    SuitesStay(s, e);
    if OfRunner(e) {
      RunnerStep(s, e);
    } else {
      TablesStep(s, e);
    }
    hide NextGate, NextReg, NextRunners, Enabled, GateKept, RunsInvariant, ReviewsInvariant, RunnersInvariant,
        SuitesInvariant, Activated;
  }

  // ---------------------------------------------------------------- whole runs

  /** Every interleaving keeps the invariant, and undoes nothing of what was recorded. */
  lemma {:induction false} PlayKeepsGate(testTenant: Option<Uuid>, s: System, events: seq<Event>)
    requires Legal(testTenant, s, events) && GateInvariant(s)
    ensures GateInvariant(Play(testTenant, s, events)) && GateKept(s.gate, Play(testTenant, s, events).gate)
    decreases |events|
  {
    SameGateIsKept(s.gate);
    if events != [] {
      var next := Next(testTenant, s, events[0]);
      StepKeepsGate(testTenant, s, events[0]);
      hide GateInvariant, GateKept, Next, Enabled;
      PlayKeepsGate(testTenant, next, events[1..]);
      GateKeptJoins(s.gate, next.gate, Play(testTenant, next, events[1..]).gate);
    }
  }

  lemma InitialGate(ingestionId: Uuid, ingestion: IngestionProfile, queryId: Uuid, query: QueryProfile)
    ensures GateInvariant(Initial(ingestionId, ingestion, queryId, query))
  {
  }

  /** How often the run is claimed. */
  ghost function ClaimsOf(testTenant: Option<Uuid>, s: System, events: seq<Event>, runId: Uuid): nat
    requires Legal(testTenant, s, events)
    decreases |events|
  {
    if events == [] then 0
    else
      (if events[0].Claim? && events[0].runId == runId && CanClaim(s.gate, runId) then 1 else 0)
      + ClaimsOf(testTenant, Next(testTenant, s, events[0]), events[1..], runId)
  }

  lemma {:induction false} NoFurtherClaims(testTenant: Option<Uuid>, s: System, events: seq<Event>, runId: Uuid)
    requires Legal(testTenant, s, events) && GateInvariant(s)
    requires runId in s.gate.runs && s.gate.runs[runId].status != Pending
    ensures ClaimsOf(testTenant, s, events, runId) == 0
    decreases |events|
  {
    if events != [] {
      var next := Next(testTenant, s, events[0]);
      StepKeepsGate(testTenant, s, events[0]);
      hide GateInvariant, Next, Enabled, SuitesKept, ReviewsKept, ResultsKept, SameComparison;
      assert RunKept(s.gate.runs[runId], next.gate.runs[runId]);
      NoFurtherClaims(testTenant, next, events[1..], runId);
    }
  }

  /** However many deliveries there are, a run is claimed at most once. */
  lemma {:induction false} ClaimedAtMostOnce(testTenant: Option<Uuid>, s: System, events: seq<Event>, runId: Uuid)
    requires Legal(testTenant, s, events) && GateInvariant(s)
    ensures ClaimsOf(testTenant, s, events, runId) <= 1
    decreases |events|
  {
    if events != [] {
      var next := Next(testTenant, s, events[0]);
      StepKeepsGate(testTenant, s, events[0]);
      if events[0].Claim? && events[0].runId == runId && CanClaim(s.gate, runId) {
        ClaimedIsRunning(testTenant, s, events[0]);
        NoFurtherClaims(testTenant, next, events[1..], runId);
      } else {
        hide GateInvariant, Next, Enabled, GateKept, CanClaim;
        ClaimedAtMostOnce(testTenant, next, events[1..], runId);
      }
    }
  }

  lemma ClaimedIsRunning(testTenant: Option<Uuid>, s: System, e: Event)
    requires Enabled(s, e) && e.Claim? && CanClaim(s.gate, e.runId)
    ensures var gate := Next(testTenant, s, e).gate; e.runId in gate.runs && gate.runs[e.runId].status == Running
  {
    hide NextReg, Activated;
  }

  /** A completed or failed run stays so, whatever still races with it. */
  lemma TerminalRunsAreFinal(testTenant: Option<Uuid>, s: System, events: seq<Event>, runId: Uuid)
    requires Legal(testTenant, s, events) && GateInvariant(s)
    requires runId in s.gate.runs && s.gate.runs[runId].status in {Completed, Failed}
    ensures var runs := Play(testTenant, s, events).gate.runs;
            && runId in runs && runs[runId].status == s.gate.runs[runId].status
            && (s.gate.runs[runId].status == Completed ==> Pairs(runs[runId].results) == Pairs(s.gate.runs[runId].results))
  {
    PlayKeepsGate(testTenant, s, events);
    hide GateInvariant, SuitesKept, ReviewsKept, Legal, Play;
    assert RunKept(s.gate.runs[runId], Play(testTenant, s, events).gate.runs[runId]);
  }

  /** Every run compares what its suite and mode ask for, over the suite's own documents or copies of them. */
  lemma RunsFitTheirSuite(s: System, runId: Uuid)
    requires GateInvariant(s) && runId in s.gate.runs
    ensures s.gate.runs[runId].suiteId in s.gate.suites
    ensures var run := s.gate.runs[runId]; var suite, m := s.gate.suites[run.suiteId], run.manifest;
            && m.suiteFingerprint == suite.fingerprint && run.tenantId == suite.tenantId
            && run.baseline == m.baselineQuery && run.candidate == m.candidateQuery && OwnSources(m.baseline, suite)
            && (run.mode == QueryMode ==> OwnSources(m.candidate, suite) && run.baseline != run.candidate)
            && (run.mode == IngestionMode ==>
                  && CopiesOfSources(m.candidate, suite) && run.baseline == run.candidate
                  && m.baselineIngestion.Some? && m.candidateIngestion.Some? && m.baselineIngestion != m.candidateIngestion)
  {
    var run := s.gate.runs[runId];
    assert RunInvariant(run, s.gate.suites);
    hide GateInvariant, RunInvariant;
    OwnSourcesIff(run.manifest.baseline, s.gate.suites[run.suiteId]);
    OwnSourcesIff(run.manifest.candidate, s.gate.suites[run.suiteId]);
    CopiesOfSourcesIff(run.manifest, s.gate.suites[run.suiteId]);
    hide OwnSources, CopiesOfSources, Elements, PairsCopies, MapsToItself;
  }

  /** A running run is failed by a sweep exactly when its heartbeat is older than the sweep's bound, so a
      run whose worker has just touched it survives every sweep up to that time. */
  lemma HeartbeatDecides(testTenant: Option<Uuid>, s: System, runId: Uuid, before: Time)
    requires runId in s.gate.runs && s.gate.runs[runId].status == Running
    ensures var run := Next(testTenant, s, FailStale(before)).gate.runs[runId];
            run.status == if s.gate.runs[runId].heartbeat.Some? && s.gate.runs[runId].heartbeat.value < before
                          then Failed else Running
    ensures forall w, at :: w in s.runners && s.runners[w].runId == runId ==>
              Next(testTenant, s, Touch(w, at)).gate.runs[runId] == s.gate.runs[runId].(heartbeat := Some(at))
  {
    hide NextReg, Activated;
  }

  /** Until its decision, rating a completed run's unrated results one by one is possible and stores each
      given score. */
  lemma RatingIsStored(testTenant: Option<Uuid>, s: System, runId: Uuid, resultId: Uuid, score: real, note: string)
    requires ReviewAccepted(s.gate, runId, resultId, score, note)
    ensures OnlyScored(s.gate, Next(testTenant, s, Rate(runId, resultId, score, note)).gate, resultId, score)
    ensures exists r :: r in Next(testTenant, s, Rate(runId, resultId, score, note)).gate.runs[runId].results
                        && r.resultId == resultId && r.quality == Some(score)
  {
    ReviewStoresTheScore(s.gate, runId, resultId, score, note);
    hide Activated, AnswerReview, NextReg;
    var after := Next(testTenant, s, Rate(runId, resultId, score, note)).gate;
    assert after == AnswerReview(s.gate, runId, resultId, score, note).value;
    var i :| 0 <= i < |s.gate.runs[runId].results| && s.gate.runs[runId].results[i].resultId == resultId
        && s.gate.runs[runId].results[i].quality == None;
    assert after.runs[runId].results[i].quality == Some(score);
  }

  /** A completed run has exactly one result for every case under every variant, so the gate never turns
      it down as incomplete: it accepts a rejection whenever no decision exists, and an approval exactly
      when moreover every candidate answer is rated. */
  lemma CompletedRunsPassTheGate(s: System, runId: Uuid, decision: string, reason: string)
    requires GateInvariant(s) && runId in s.gate.runs && s.gate.runs[runId].status == Completed
    ensures var run := s.gate.runs[runId];
            && HasWork(s.gate, runId) && Distinct(Pairs(run.results))
            && (forall c, v :: (c, v) in Pairs(run.results) <==> c in s.gate.suites[run.suiteId].caseIds)
    ensures var results, r := s.gate.runs[runId].results, Decision(s.gate, runId, decision, reason, runId);
            && (r.Ok? <==>
                  && (decision == "approve" || decision == "reject") && Strip(reason) != "" && |reason| <= 1000
                  && runId !in s.gate.reviews
                  && (decision == "approve" ==>
                        forall i :: 0 <= i < |results| && results[i].variant == Candidate ==> results[i].quality.Some?))
            && (r.Ok? ==> r.value == s.gate.(reviews := s.gate.reviews[runId := (decision == "approve")]))
    ensures Decision(s.gate, runId, decision, reason, runId) != Err(NotEveryCase)
  {
    hide Strip, EveryAnswerRated, Fits, WellFormed, IsManifest, ReviewsInvariant, RunnersInvariant;
    var run := s.gate.runs[runId];
    assert RunInvariant(run, s.gate.suites) && IsSuite(s.gate.suites[run.suiteId]);
    WorkIsEveryPairOnce(s.gate.suites[run.suiteId].caseIds);
    hide Work, Pairs, Distinct;
    assert EveryCaseFinished(run, s.gate.suites[run.suiteId]);
    EveryAnswerIs(run);
  }

  lemma EveryAnswerIs(run: Evaluation.Run)
    ensures EveryAnswerRated(run) <==>
              forall i :: 0 <= i < |run.results| && run.results[i].variant == Candidate ==> run.results[i].quality.Some?
  {
    if EveryAnswerRated(run) {
      assert forall i :: 0 <= i < |run.results| ==> run.results[i] in run.results;
    }
  }
}
