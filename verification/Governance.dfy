/** Evaluation and activation as one state machine: runs, results, gate decisions, index generations and
    profile switches, with every transaction as one atomic step and every interleaving of steps. */
module Governance {
  import opened Prelude
  import opened Evaluation
  import opened Activation

  /** A worker that claimed a run and has saved the results of the first `done` pieces of its work. */
  datatype Runner = Runner(runId: Uuid, done: nat)

  /** `started` are the ingestion profiles some upload was bound to; `atSwitch` are the ones that had a
      ready generation at the last query switch. */
  datatype System = System(gate: Gate, reg: Registry, runners: map<nat, Runner>, started: set<Uuid>, atSwitch: set<Uuid>)

  datatype Event =
    | AddSuite(id: Uuid, suite: Suite)
    | AddIngestion(id: Uuid, ingestion: IngestionProfile)
    | AddQuery(id: Uuid, query: QueryProfile)
    | Launch(runId: Uuid, cmd: LaunchCommand, readable: bool)
    | Claim(runner: nat, runId: Uuid, at: Time)
    | Save(runner: nat, resultId: Uuid)
    | Touch(runner: nat, at: Time)
    | Complete(runner: nat)
    | Fail(runner: nat)
    | Crash(runner: nat)
    | FailStale(before: Time)
    | Rate(runId: Uuid, resultId: Uuid, quality: real, note: string)
    | Decide(runId: Uuid, decision: string, reason: string, reviewedRunId: Uuid)
    | Upload(scope: Scope)
    | FinishGeneration(profileId: Uuid)
    | Switch(kind: Kind, profileId: Uuid, expected: int, reason: string, usable: set<Uuid>)
    | Select(tenantId: Uuid, profileId: Uuid, expected: int, reason: string, usable: set<Uuid>)

  /** Identifiers are new when a row is inserted; a runner acts only between its claim and its end. */
  predicate Enabled(s: System, e: Event) {
    match e
    case AddSuite(id, suite) => id !in s.gate.suites && IsSuite(suite)
    case AddIngestion(id, ingestion) => id !in s.reg.profiles.ingestions
    case AddQuery(id, query) => id !in s.reg.profiles.queries
    case Launch(runId, cmd, readable) => runId !in s.gate.runs
    case Claim(w, runId, at) => w !in s.runners
    case Save(w, resultId) => w in s.runners && InProgress(s.gate, s.runners[w])
    case Touch(w, at) => w in s.runners
    case Complete(w) => w in s.runners && Finished(s.gate, s.runners[w])
    case Fail(w) => w in s.runners
    case Crash(w) => w in s.runners
    case FailStale(before) => true
    case Rate(runId, resultId, quality, note) => true
    case Decide(runId, decision, reason, reviewedRunId) => true
    case Upload(scope) => (scope, Ingestion) in s.reg.pointers
    case FinishGeneration(id) => id in s.started
    case Switch(kind, id, expected, reason, usable) => true
    case Select(tenantId, id, expected, reason, usable) => true
  }

  predicate HasWork(gate: Gate, runId: Uuid) {
    runId in gate.runs && gate.runs[runId].suiteId in gate.suites
  }

  function WorkOf(gate: Gate, runId: Uuid): seq<(Uuid, Variant)>
    requires HasWork(gate, runId)
  {
    Work(gate.suites[gate.runs[runId].suiteId].caseIds)
  }

  predicate InProgress(gate: Gate, w: Runner) {
    HasWork(gate, w.runId) && w.done < |WorkOf(gate, w.runId)|
  }

  predicate Finished(gate: Gate, w: Runner) {
    HasWork(gate, w.runId) && w.done == |WorkOf(gate, w.runId)|
  }

  function NextResult(gate: Gate, w: Runner, resultId: Uuid): CaseResult
    requires InProgress(gate, w)
  {
    var (caseId, variant) := WorkOf(gate, w.runId)[w.done];
    CaseResult(resultId, caseId, variant, None)
  }

  function OrElse<T, E>(r: Result<T, E>, otherwise: T): T {
    match r
    case Ok(value) => value
    case Err(_) => otherwise
  }

  /** The gate tables after an event. */
  function NextGate(s: System, e: Event): Gate
    requires Enabled(s, e)
  {
    match e
    case AddSuite(id, suite) => s.gate.(suites := s.gate.suites[id := suite])
    case Launch(runId, cmd, readable) =>
      (match Admission(s.gate, s.reg.profiles, cmd, readable)
       case Err(_) => s.gate
       case Ok(run) => s.gate.(runs := s.gate.runs[runId := run]))
    case Claim(w, runId, at) => Claimed(s.gate, runId, at)
    case Save(w, resultId) => WithResult(s.gate, s.runners[w].runId, NextResult(s.gate, s.runners[w], resultId))
    case Touch(w, at) => Touched(s.gate, s.runners[w].runId, at)
    case Complete(w) => WithStatus(s.gate, s.runners[w].runId, Completed)
    case Fail(w) => WithStatus(s.gate, s.runners[w].runId, Failed)
    case FailStale(before) => StaleFailed(s.gate, before)
    case Rate(runId, resultId, quality, note) => OrElse(AnswerReview(s.gate, runId, resultId, quality, note), s.gate)
    case Decide(runId, decision, reason, reviewed) => OrElse(Decision(s.gate, runId, decision, reason, reviewed), s.gate)
    case _ => s.gate
  }

  /** The profile tables after an event. */
  function NextReg(testTenant: Option<Uuid>, s: System, e: Event): Registry {
    match e
    case AddIngestion(id, ingestion) =>
      s.reg.(profiles := s.reg.profiles.(ingestions := s.reg.profiles.ingestions[id := ingestion]))
    case AddQuery(id, query) => s.reg.(profiles := s.reg.profiles.(queries := s.reg.profiles.queries[id := query]))
    case FinishGeneration(id) => s.reg.(readyProfiles := s.reg.readyProfiles + {id})
    case Switch(kind, id, expected, reason, usable) =>
      OrElse(Activated(s.gate, s.reg, testTenant, kind, id, expected, reason, usable), s.reg)
    case Select(tenantId, id, expected, reason, usable) =>
      OrElse(Selected(s.reg, testTenant, tenantId, id, expected, reason, usable), s.reg)
    case _ => s.reg
  }

  function NextRunners(s: System, e: Event): map<nat, Runner>
    requires Enabled(s, e)
  {
    match e
    case Claim(w, runId, at) => if CanClaim(s.gate, runId) then s.runners[w := Runner(runId, 0)] else s.runners
    case Save(w, resultId) => s.runners[w := s.runners[w].(done := s.runners[w].done + 1)]
    case Complete(w) => s.runners - {w}
    case Fail(w) => s.runners - {w}
    case Crash(w) => s.runners - {w}
    case _ => s.runners
  }

  function Next(testTenant: Option<Uuid>, s: System, e: Event): System
    requires Enabled(s, e)
  {
    System(NextGate(s, e), NextReg(testTenant, s, e), NextRunners(s, e),
           if e.Upload? then s.started + {s.reg.pointers[(e.scope, Ingestion)].profileId} else s.started,
           if e.Switch? && e.kind.Query?
              && Activated(s.gate, s.reg, testTenant, e.kind, e.profileId, e.expected, e.reason, e.usable).Ok?
           then s.reg.readyProfiles else s.atSwitch)
  }

  /** The seeded rows: one ingestion and one query profile, active at revision 1, and their records. */
  function Initial(ingestionId: Uuid, ingestion: IngestionProfile, queryId: Uuid, query: QueryProfile): System {
    System(Gate(map[], map[], map[]),
           Registry(Profiles(map[ingestionId := ingestion], map[queryId := query]), {},
                    map[(Platform, Ingestion) := Pointer(ingestionId, 1), (Platform, Query) := Pointer(queryId, 1)],
                    [Entry(Platform, Ingestion, None, ingestionId, 1), Entry(Platform, Query, None, queryId, 1)]),
           map[], {}, {})
  }

  predicate Legal(testTenant: Option<Uuid>, s: System, events: seq<Event>)
    decreases |events|
  {
    events == [] || (Enabled(s, events[0]) && Legal(testTenant, Next(testTenant, s, events[0]), events[1..]))
  }

  function Play(testTenant: Option<Uuid>, s: System, events: seq<Event>): System
    requires Legal(testTenant, s, events)
    decreases |events|
  {
    if events == [] then s else Play(testTenant, Next(testTenant, s, events[0]), events[1..])
  }

  lemma {:induction false} PlayJoins(testTenant: Option<Uuid>, s: System, a: seq<Event>, b: seq<Event>)
    requires Legal(testTenant, s, a) && Legal(testTenant, Play(testTenant, s, a), b)
    ensures Legal(testTenant, s, a + b) && Play(testTenant, s, a + b) == Play(testTenant, Play(testTenant, s, a), b)
    decreases |a|
  {
    hide Enabled, Next;
    if a == [] {
      assert a + b == b;
    } else {
      assert (a + b)[1..] == a[1..] + b;
      PlayJoins(testTenant, Next(testTenant, s, a[0]), a[1..], b);
    }
  }
}
