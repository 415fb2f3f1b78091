/** Evaluation suites, runs, results and gate decisions: admission of a run, its guarded status, its
    results and the gate. Every transaction is one atomic step. */
module Evaluation {
  import opened Prelude
  import opened PyText
  import opened Anchors
  import opened ManifestCodec

  datatype RunStatus = Pending | Running | Completed | Failed

  datatype Mode = QueryMode | IngestionMode

  datatype Variant = Baseline | Candidate

  /** An immutable suite revision: its labelled cases and the versions of its corpus. */
  datatype Suite = Suite(tenantId: Uuid, caseIds: seq<Uuid>, sourceIds: seq<Uuid>, fingerprint: string)

  /** Creation checks the corpus and draws a new identifier for every case. */
  predicate IsSuite(s: Suite) {
    s.caseIds != [] && Distinct(s.caseIds) && s.sourceIds != [] && Distinct(s.sourceIds)
  }

  /** The saved result of one case under one variant; `quality` is the human score, if any. */
  datatype CaseResult = CaseResult(resultId: Uuid, caseId: Uuid, variant: Variant, quality: Option<real>)

  datatype Run = Run(
    suiteId: Uuid, mode: Mode, manifest: Manifest, tenantId: Uuid, baseline: Uuid, candidate: Uuid,
    status: RunStatus, heartbeat: Option<Time>, results: seq<CaseResult>)

  datatype IngestionProfile = IngestionProfile(lexical: Uuid, embedding: Uuid)

  datatype QueryProfile = QueryProfile(lexicals: seq<Uuid>, embeddings: seq<Uuid>)

  /** The query profile searches the index that the ingestion profile builds. */
  predicate Includes(query: QueryProfile, ingestion: IngestionProfile) {
    ingestion.lexical in query.lexicals && ingestion.embedding in query.embeddings
  }

  /** What `Includes` is to mean: both indexes are among those the query profile searches. */
  ghost predicate Searches(query: QueryProfile, ingestion: IngestionProfile) {
    ingestion.lexical in query.lexicals && ingestion.embedding in query.embeddings
  }

  /** The evaluation tables. `reviews` holds the gate decisions: true for approve. */
  datatype Gate = Gate(suites: map<Uuid, Suite>, runs: map<Uuid, Run>, reviews: map<Uuid, bool>)

  datatype Profiles = Profiles(ingestions: map<Uuid, IngestionProfile>, queries: map<Uuid, QueryProfile>)

  // ---------------------------------------------------------------- admission

  datatype LaunchCommand = LaunchCommand(
    mode: string, suiteId: Uuid, baselines: seq<Uuid>, candidates: seq<Uuid>, ks: seq<int>, corpus: seq<(string, Json)>)

  datatype LaunchError =
    | UnknownMode | NotOnePolicy | SamePolicy | BadKValues | NoSuite | BadManifest
    | CorpusMismatch | CorpusNotReused | CopiesNotPaired | PolicyUnavailable | CohortsUnread

  const MAX_K := 100

  function Values(pairs: seq<(Uuid, Uuid)>): set<Uuid> {
    set p | p in pairs :: p.1
  }

  function KeySet(pairs: seq<(Uuid, Uuid)>): set<Uuid> {
    set p | p in pairs :: p.0
  }

  predicate MapsToItself(c: CorpusVariant) {
    forall p :: p in c.sourceVersions ==> p.0 == p.1
  }

  predicate FitsSuite(m: Manifest, suite: Suite, baseline: Uuid, candidate: Uuid) {
    && m.suiteFingerprint == suite.fingerprint
    && m.baselineQuery == baseline && m.candidateQuery == candidate
    && Elements(m.baseline.versionIds) == Elements(suite.sourceIds) && MapsToItself(m.baseline)
  }

  /** A query evaluation runs both policies over the same corpus. */
  predicate ReusesCorpus(m: Manifest, suite: Suite) {
    Elements(m.candidate.versionIds) == Elements(suite.sourceIds) && MapsToItself(m.candidate)
  }

  /** What the launch checks of the indexed copies in an ingestion evaluation. */
  predicate PairsCopies(m: Manifest, suite: Suite) {
    && m.baselineIngestion.Some? && m.candidateIngestion.Some? && m.baselineIngestion != m.candidateIngestion
    && Values(m.candidate.sourceVersions) == Elements(suite.sourceIds)
    && KeySet(m.candidate.sourceVersions) == Elements(m.candidate.versionIds)
    && |m.candidate.versionIds| == |Elements(suite.sourceIds)|
    && Elements(m.candidate.versionIds) !! Elements(suite.sourceIds)
    && m.baselineQuery == m.candidateQuery
  }

  predicate Fits(run: Run, suite: Suite) {
    && FitsSuite(run.manifest, suite, run.baseline, run.candidate) && run.tenantId == suite.tenantId
    && match run.mode
       case QueryMode => run.baseline != run.candidate && ReusesCorpus(run.manifest, suite)
       case IngestionMode => PairsCopies(run.manifest, suite)
  }

  predicate ReadsBoth(m: Manifest, profiles: Profiles) {
    && m.candidateQuery in profiles.queries
    && (forall id :: id in {m.baselineIngestion, m.candidateIngestion} ==>
          && id.Some? && id.value in profiles.ingestions
          && Includes(profiles.queries[m.candidateQuery], profiles.ingestions[id.value]))
  }

  predicate OnePolicyEach(cmd: LaunchCommand) {
    |cmd.baselines| == 1 && |cmd.candidates| == 1
  }

  predicate KsAllowed(ks: seq<int>) {
    ks != [] && Distinct(ks) && forall k :: k in ks ==> 1 <= k <= MAX_K
  }

  function ModeOf(cmd: LaunchCommand): Mode {
    if cmd.mode == "query" then QueryMode else IngestionMode
  }

  /** The row a launch inserts. */
  function RunOf(cmd: LaunchCommand, suite: Suite, m: Manifest): Run
    requires OnePolicyEach(cmd)
  {
    Run(cmd.suiteId, ModeOf(cmd), m, suite.tenantId, cmd.baselines[0], cmd.candidates[0], Pending, None, [])
  }

  /** What a launch asks for is sound: one policy on each side, usable K values, a stored suite, a readable
      manifest whose run fits that suite in its mode, and policies that exist and read every cohort needed. */
  predicate Admissible(gate: Gate, profiles: Profiles, cmd: LaunchCommand, readable: bool) {
    && cmd.mode in {"query", "ingestion"} && OnePolicyEach(cmd) && KsAllowed(cmd.ks)
    && cmd.suiteId in gate.suites && FromJson(cmd.corpus).Some?
    && var suite, m := gate.suites[cmd.suiteId], FromJson(cmd.corpus).value;
       && Fits(RunOf(cmd, suite, m), suite)
       && readable && m.baselineQuery in profiles.queries && m.candidateQuery in profiles.queries
       && (cmd.mode == "ingestion" ==> ReadsBoth(m, profiles))
  }

  /** What each error says of the command. */
  predicate Faulty(gate: Gate, profiles: Profiles, cmd: LaunchCommand, readable: bool, e: LaunchError) {
    match e
    case UnknownMode => cmd.mode !in {"query", "ingestion"}
    case NotOnePolicy => !OnePolicyEach(cmd)
    case SamePolicy => cmd.mode == "query" && cmd.baselines == cmd.candidates
    case BadKValues => !KsAllowed(cmd.ks)
    case NoSuite => cmd.suiteId !in gate.suites
    case BadManifest => FromJson(cmd.corpus).None?
    case _ =>
      && OnePolicyEach(cmd) && cmd.suiteId in gate.suites && FromJson(cmd.corpus).Some?
      && CorpusFaulty(gate.suites[cmd.suiteId], FromJson(cmd.corpus).value, profiles, cmd, readable, e)
  }

  /** The errors that need the suite and the manifest. */
  predicate CorpusFaulty(suite: Suite, m: Manifest, profiles: Profiles, cmd: LaunchCommand, readable: bool, e: LaunchError)
    requires OnePolicyEach(cmd)
  {
    || (e.CorpusMismatch? && !FitsSuite(m, suite, cmd.baselines[0], cmd.candidates[0]))
    || (e.CorpusNotReused? && cmd.mode == "query" && !ReusesCorpus(m, suite))
    || (e.CopiesNotPaired? && cmd.mode == "ingestion" && !PairsCopies(m, suite))
    || (e.PolicyUnavailable? && (!readable || m.baselineQuery !in profiles.queries || m.candidateQuery !in profiles.queries))
    || (e.CohortsUnread? && cmd.mode == "ingestion" && !ReadsBoth(m, profiles))
  }

  /** The order of the checks. */
  function Rank(e: LaunchError): nat {
    match e
    case UnknownMode => 0
    case NotOnePolicy => 1
    case SamePolicy => 2
    case BadKValues => 3
    case NoSuite => 4
    case BadManifest => 5
    case CorpusMismatch => 6
    case CorpusNotReused => 7
    case CopiesNotPaired => 8
    case PolicyUnavailable => 9
    case CohortsUnread => 10
  }

  /** The error reports the first check that fails. */
  ghost predicate IsFirstFault(gate: Gate, profiles: Profiles, cmd: LaunchCommand, readable: bool, e: LaunchError) {
    Faulty(gate, profiles, cmd, readable, e)
    && forall earlier :: Rank(earlier) < Rank(e) ==> !Faulty(gate, profiles, cmd, readable, earlier)
  }

  /** A command is admissible exactly when no check finds a fault in it. */
  lemma AdmissibleIffFaultless(gate: Gate, profiles: Profiles, cmd: LaunchCommand, readable: bool)
    ensures Admissible(gate, profiles, cmd, readable) <==> forall e :: !Faulty(gate, profiles, cmd, readable, e)
  {
    hide FromJson, KsAllowed, FitsSuite, ReusesCorpus, PairsCopies, ReadsBoth;
    if !Admissible(gate, profiles, cmd, readable) {
      var e := SomeFault(gate, profiles, cmd, readable);
    }
  }

  lemma SomeFault(gate: Gate, profiles: Profiles, cmd: LaunchCommand, readable: bool) returns (e: LaunchError)
    requires !Admissible(gate, profiles, cmd, readable)
    ensures Faulty(gate, profiles, cmd, readable, e)
  {
    hide FromJson, KsAllowed, FitsSuite, ReusesCorpus, PairsCopies, ReadsBoth;
    e := UnknownMode;
    if cmd.mode in {"query", "ingestion"} {
      e := if !OnePolicyEach(cmd) then NotOnePolicy
           else if cmd.mode == "query" && cmd.baselines == cmd.candidates then SamePolicy
           else if !KsAllowed(cmd.ks) then BadKValues
           else if cmd.suiteId !in gate.suites then NoSuite
           else if FromJson(cmd.corpus).None? then BadManifest
           else LateFault(gate.suites[cmd.suiteId], FromJson(cmd.corpus).value, profiles, cmd, readable);
    }
  }

  function LateFault(suite: Suite, m: Manifest, profiles: Profiles, cmd: LaunchCommand, readable: bool): LaunchError
    requires OnePolicyEach(cmd)
  {
    if !FitsSuite(m, suite, cmd.baselines[0], cmd.candidates[0]) then CorpusMismatch
    else if cmd.mode == "query" && !ReusesCorpus(m, suite) then CorpusNotReused
    else if cmd.mode == "ingestion" && !PairsCopies(m, suite) then CopiesNotPaired
    else if !readable || m.baselineQuery !in profiles.queries || m.candidateQuery !in profiles.queries then PolicyUnavailable
    else CohortsUnread
  }

  /** `launch_run` up to the insert. `readable` says whether the capability snapshots can be read. */
  function Admission(gate: Gate, profiles: Profiles, cmd: LaunchCommand, readable: bool): Result<Run, LaunchError> {
    if cmd.mode != "query" && cmd.mode != "ingestion" then Err(UnknownMode)
    else if |cmd.baselines| != 1 || |cmd.candidates| != 1 then Err(NotOnePolicy)
    else if cmd.mode == "query" && cmd.baselines == cmd.candidates then Err(SamePolicy)
    else if !KsAllowed(cmd.ks) then Err(BadKValues)
    else if cmd.suiteId !in gate.suites then Err(NoSuite)
    else if FromJson(cmd.corpus).None? then Err(BadManifest)
    else
      var suite, m := gate.suites[cmd.suiteId], FromJson(cmd.corpus).value;
      var mode := ModeOf(cmd);
      if !FitsSuite(m, suite, cmd.baselines[0], cmd.candidates[0]) then Err(CorpusMismatch)
      else if mode.QueryMode? && !ReusesCorpus(m, suite) then Err(CorpusNotReused)
      else if mode.IngestionMode? && !PairsCopies(m, suite) then Err(CopiesNotPaired)
      else if !readable || m.baselineQuery !in profiles.queries
          || m.candidateQuery !in profiles.queries then Err(PolicyUnavailable)
      else if mode.IngestionMode? && !ReadsBoth(m, profiles) then Err(CohortsUnread)
      else Ok(RunOf(cmd, suite, m))
  }

  /** A command is admitted exactly when it is admissible; otherwise the first failing check is reported. */
  lemma AdmittedIffAdmissible(gate: Gate, profiles: Profiles, cmd: LaunchCommand, readable: bool)
    ensures var r := Admission(gate, profiles, cmd, readable);
            && (r.Ok? <==> Admissible(gate, profiles, cmd, readable))
            && (r.Ok? ==> r.value == RunOf(cmd, gate.suites[cmd.suiteId], FromJson(cmd.corpus).value))
            && (r.Err? ==> IsFirstFault(gate, profiles, cmd, readable, r.error))
  {
    hide FromJson, KsAllowed, FitsSuite, ReusesCorpus, PairsCopies, ReadsBoth;
  }

  lemma AdmittedRunFits(gate: Gate, profiles: Profiles, cmd: LaunchCommand, readable: bool)
    requires Admission(gate, profiles, cmd, readable).Ok?
    ensures var run := Admission(gate, profiles, cmd, readable).value;
            && run.suiteId in gate.suites && Fits(run, gate.suites[run.suiteId]) && WellFormed(run.manifest)
                && IsManifest(run.manifest)
            && run.status == Pending && run.results == []
            && (run.mode.QueryMode? <==> cmd.mode == "query")
  {
    AcceptedIsWellFormed(cmd.corpus);
    hide FromJson, FitsSuite, ReusesCorpus, PairsCopies, WellFormed, IsManifest, ReadsBoth, Distinct;
  }

  lemma AcceptedIsWellFormed(corpus: seq<(string, Json)>)
    ensures FromJson(corpus).Some? ==> WellFormed(FromJson(corpus).value) && IsManifest(FromJson(corpus).value)
  {
    hide FromJson, WellFormed, IsManifest;
    if FromJson(corpus).Some? {
      AcceptedManifest(corpus, 0);
    }
  }

  // ---------------------------------------------------------------- what an admissible launch is

  /** The corpus is the suite's source documents themselves. */
  ghost predicate OwnSources(c: CorpusVariant, suite: Suite) {
    && (forall v :: v in c.versionIds <==> v in suite.sourceIds)
    && (forall p :: p in c.sourceVersions ==> p.0 == p.1)
  }

  /** As many copies as there are source documents; they are what is mapped, every document has one, and
      none is a document itself. */
  ghost predicate CopiesOfSources(c: CorpusVariant, suite: Suite) {
    && |c.versionIds| == |set v | v in suite.sourceIds|
    && (forall v :: v in c.versionIds <==> exists p :: p in c.sourceVersions && p.0 == v)
    && (forall v :: v in suite.sourceIds <==> exists p :: p in c.sourceVersions && p.1 == v)
    && (forall v :: v in c.versionIds ==> v !in suite.sourceIds)
  }

  ghost predicate ReadsIndexOf(profiles: Profiles, queryId: Uuid, ingestionId: Option<Uuid>) {
    && queryId in profiles.queries && ingestionId.Some? && ingestionId.value in profiles.ingestions
    && Searches(profiles.queries[queryId], profiles.ingestions[ingestionId.value])
  }

  /** The two policies differ in a query evaluation; in an ingestion evaluation one policy reads the indexes
      of two different ingestion profiles. */
  ghost predicate SoundComparison(m: Manifest, suite: Suite, profiles: Profiles, ingestion: bool) {
    && m.suiteFingerprint == suite.fingerprint && OwnSources(m.baseline, suite)
    && m.baselineQuery in profiles.queries && m.candidateQuery in profiles.queries
    && if ingestion then
         && CopiesOfSources(m.candidate, suite) && m.baselineQuery == m.candidateQuery
         && m.baselineIngestion != m.candidateIngestion
         && ReadsIndexOf(profiles, m.candidateQuery, m.baselineIngestion)
         && ReadsIndexOf(profiles, m.candidateQuery, m.candidateIngestion)
       else
         OwnSources(m.candidate, suite) && m.baselineQuery != m.candidateQuery
  }

  ghost predicate SoundLaunch(gate: Gate, profiles: Profiles, cmd: LaunchCommand, readable: bool) {
    && (cmd.mode == "query" || cmd.mode == "ingestion") && readable
    && cmd.ks != [] && Distinct(cmd.ks) && (forall k :: k in cmd.ks ==> 1 <= k <= 100)
    && cmd.suiteId in gate.suites && FromJson(cmd.corpus).Some?
    && var m := FromJson(cmd.corpus).value;
       && cmd.baselines == [m.baselineQuery] && cmd.candidates == [m.candidateQuery]
       && SoundComparison(m, gate.suites[cmd.suiteId], profiles, cmd.mode == "ingestion")
  }

  lemma SameMembers(a: seq<Uuid>, b: seq<Uuid>)
    ensures Elements(a) == Elements(b) <==> forall v :: v in a <==> v in b
  {
    if Elements(a) == Elements(b) {
      forall v ensures v in a <==> v in b {
        assert v in Elements(a) <==> v in Elements(b);
      }
    }
  }

  lemma OwnSourcesIff(c: CorpusVariant, suite: Suite)
    ensures Elements(c.versionIds) == Elements(suite.sourceIds) && MapsToItself(c) <==> OwnSources(c, suite)
  {
    SameMembers(c.versionIds, suite.sourceIds);
    hide Elements;
  }

  lemma ImageIs(pairs: seq<(Uuid, Uuid)>, ids: seq<Uuid>)
    ensures KeySet(pairs) == Elements(ids) <==> forall v :: v in ids <==> exists p :: p in pairs && p.0 == v
    ensures Values(pairs) == Elements(ids) <==> forall v :: v in ids <==> exists p :: p in pairs && p.1 == v
  {
    assert forall v :: v in Elements(ids) <==> v in ids;
    assert forall v :: v in KeySet(pairs) <==> exists p :: p in pairs && p.0 == v;
    assert forall v :: v in Values(pairs) <==> exists p :: p in pairs && p.1 == v;
    hide Elements, KeySet, Values;
  }

  lemma NoOverlapIff(a: seq<Uuid>, b: seq<Uuid>)
    ensures Elements(a) !! Elements(b) <==> forall v :: v in a ==> v !in b
  {
    if Elements(a) !! Elements(b) {
      forall v | v in a ensures v !in b {
        assert v in Elements(a);
      }
    }
  }

  lemma CopiesOfSourcesIff(m: Manifest, suite: Suite)
    ensures PairsCopies(m, suite) <==>
              && CopiesOfSources(m.candidate, suite) && m.baselineQuery == m.candidateQuery
              && m.baselineIngestion.Some? && m.candidateIngestion.Some? && m.baselineIngestion != m.candidateIngestion
  {
    ImageIs(m.candidate.sourceVersions, m.candidate.versionIds);
    ImageIs(m.candidate.sourceVersions, suite.sourceIds);
    NoOverlapIff(m.candidate.versionIds, suite.sourceIds);
    assert Elements(suite.sourceIds) == set v | v in suite.sourceIds;
    hide Elements, KeySet, Values;
  }

  lemma ReadsBothIff(m: Manifest, profiles: Profiles)
    ensures ReadsBoth(m, profiles) <==>
              && ReadsIndexOf(profiles, m.candidateQuery, m.baselineIngestion)
              && ReadsIndexOf(profiles, m.candidateQuery, m.candidateIngestion)
  {
    assert m.baselineIngestion in {m.baselineIngestion, m.candidateIngestion};
    assert m.candidateIngestion in {m.baselineIngestion, m.candidateIngestion};
  }

  /** A launch is admissible exactly when the comparison it asks for is sound. */
  lemma AdmissibleIffSound(gate: Gate, profiles: Profiles, cmd: LaunchCommand, readable: bool)
    ensures Admissible(gate, profiles, cmd, readable) <==> SoundLaunch(gate, profiles, cmd, readable)
  {
    hide FromJson, FitsSuite, ReusesCorpus, PairsCopies, ReadsBoth, SoundComparison, Distinct;
    if OnePolicyEach(cmd) && cmd.suiteId in gate.suites && FromJson(cmd.corpus).Some? && cmd.mode in {"query", "ingestion"} {
      FitsIffSound(gate.suites[cmd.suiteId], FromJson(cmd.corpus).value, profiles, cmd);
    }
  }

  lemma SoundNamesPolicies(gate: Gate, profiles: Profiles, cmd: LaunchCommand, readable: bool)
    ensures SoundLaunch(gate, profiles, cmd, readable) ==>
              && (cmd.mode == "query" || cmd.mode == "ingestion") && FromJson(cmd.corpus).Some?
              && cmd.baselines == [FromJson(cmd.corpus).value.baselineQuery]
              && cmd.candidates == [FromJson(cmd.corpus).value.candidateQuery]
  {
    hide FromJson, SoundComparison, Distinct;
  }

  lemma FitsIffSound(suite: Suite, m: Manifest, profiles: Profiles, cmd: LaunchCommand)
    requires OnePolicyEach(cmd) && cmd.mode in {"query", "ingestion"}
    ensures && Fits(RunOf(cmd, suite, m), suite)
            && m.baselineQuery in profiles.queries && m.candidateQuery in profiles.queries
            && (cmd.mode == "ingestion" ==> ReadsBoth(m, profiles))
       <==> && cmd.baselines == [m.baselineQuery] && cmd.candidates == [m.candidateQuery]
            && SoundComparison(m, suite, profiles, cmd.mode == "ingestion")
  {
    OwnSourcesIff(m.baseline, suite);
    OwnSourcesIff(m.candidate, suite);
    CopiesOfSourcesIff(m, suite);
    ReadsBothIff(m, profiles);
    assert ReadsIndexOf(profiles, m.candidateQuery, m.baselineIngestion) ==> m.baselineIngestion.Some?;
    assert ReadsIndexOf(profiles, m.candidateQuery, m.candidateIngestion) ==> m.candidateIngestion.Some?;
    hide OwnSources, CopiesOfSources, ReadsIndexOf, Elements, MapsToItself, PairsCopies, ReadsBoth;
  }

  // ---------------------------------------------------------------- copies of the sources

  lemma {:induction false} SmallSetMeansRepeats(ids: seq<Uuid>)
    ensures |Elements(ids)| <= |ids|
    ensures |Elements(ids)| == |ids| ==> Distinct(ids)
  {
    if ids != [] {
      var front, last := ids[..|ids| - 1], ids[|ids| - 1];
      SmallSetMeansRepeats(front);
      assert ids == front + [last];
      assert Elements(ids) == Elements(front) + {last};
      assert forall i :: 0 <= i < |front| ==> ids[i] in front && front[i] in Elements(front);
    }
  }

  function SourcesOf(pairs: seq<(Uuid, Uuid)>): (sources: seq<Uuid>)
    ensures |sources| == |pairs| && forall i :: 0 <= i < |pairs| ==> sources[i] == pairs[i].1
  {
    seq(|pairs|, i requires 0 <= i < |pairs| => pairs[i].1)
  }

  lemma SetOfValuesIsSmall(pairs: seq<(Uuid, Uuid)>)
    ensures |Values(pairs)| <= |pairs|
    ensures |Values(pairs)| == |pairs| ==> forall i, j :: 0 <= i < j < |pairs| ==> pairs[i].1 != pairs[j].1
  {
    var sources := SourcesOf(pairs);
    SmallSetMeansRepeats(sources);
    ValuesAreSources(pairs);
    if |Values(pairs)| == |pairs| {
      forall i, j | 0 <= i < j < |pairs| ensures pairs[i].1 != pairs[j].1 {
        assert sources[i] != sources[j];
      }
    }
  }

  lemma ValuesAreSources(pairs: seq<(Uuid, Uuid)>)
    ensures Values(pairs) == Elements(SourcesOf(pairs))
  {
    forall v ensures v in Values(pairs) <==> v in SourcesOf(pairs) {
      if v in SourcesOf(pairs) {
        var i :| 0 <= i < |pairs| && SourcesOf(pairs)[i] == v;
        assert pairs[i] in pairs;
      }
      if v in Values(pairs) {
        var p :| p in pairs && p.1 == v;
        var i :| 0 <= i < |pairs| && pairs[i] == p;
        assert SourcesOf(pairs)[i] == v;
      }
    }
  }

  lemma KeySetIsKeys(pairs: seq<(Uuid, Uuid)>)
    requires Distinct(KeysOf(pairs))
    ensures |KeySet(pairs)| == |pairs|
  {
    DistinctCount(KeysOf(pairs));
    assert KeySet(pairs) == Elements(KeysOf(pairs)) by {
      forall k ensures k in KeySet(pairs) <==> k in KeysOf(pairs) {
        if k in KeysOf(pairs) {
          var i :| 0 <= i < |pairs| && KeysOf(pairs)[i] == k;
          assert pairs[i] in pairs;
        }
        if k in KeySet(pairs) {
          var p :| p in pairs && p.0 == k;
          var i :| 0 <= i < |pairs| && pairs[i] == p;
          assert KeysOf(pairs)[i] == k;
        }
      }
    }
  }

  /** The set and length checks leave only a bijection: no version is listed twice, every listed version
      has its own source, every source has a copy, and no copy is a source. */
  lemma CopiesAreOneToOne(m: Manifest, suite: Suite)
    requires PairsCopies(m, suite) && Distinct(KeysOf(m.candidate.sourceVersions))
    ensures Distinct(m.candidate.versionIds)
    ensures var pairs := m.candidate.sourceVersions;
            && (forall i, j :: 0 <= i < j < |pairs| ==> pairs[i].0 != pairs[j].0 && pairs[i].1 != pairs[j].1)
            && (forall v :: v in m.candidate.versionIds <==> v in KeySet(pairs))
            && (forall s :: s in suite.sourceIds <==> s in Values(pairs))
            && |pairs| == |m.candidate.versionIds|
    ensures forall v :: v in m.candidate.versionIds ==> v !in suite.sourceIds
  {
    var pairs := m.candidate.sourceVersions;
    SmallSetMeansRepeats(m.candidate.versionIds);
    SetOfValuesIsSmall(pairs);
    KeySetIsKeys(pairs);
    KeysDiffer(pairs);
    hide KeySet, Values, Distinct, Elements;
    assert |pairs| == |Elements(m.candidate.versionIds)| <= |m.candidate.versionIds| == |Values(pairs)| <= |pairs|;
    MembersAgree(m, suite);
  }

  lemma MembersAgree(m: Manifest, suite: Suite)
    requires PairsCopies(m, suite)
    ensures forall v :: v in m.candidate.versionIds <==> v in KeySet(m.candidate.sourceVersions)
    ensures forall s :: s in suite.sourceIds <==> s in Values(m.candidate.sourceVersions)
    ensures forall v :: v in m.candidate.versionIds ==> v !in suite.sourceIds
  {
    hide KeySet, Values;
    assert forall v :: v in m.candidate.versionIds <==> v in Elements(m.candidate.versionIds);
    assert forall s :: s in suite.sourceIds <==> s in Elements(suite.sourceIds);
  }

  lemma KeysDiffer(pairs: seq<(Uuid, Uuid)>)
    requires Distinct(KeysOf(pairs))
    ensures forall i, j :: 0 <= i < j < |pairs| ==> pairs[i].0 != pairs[j].0
  {
    forall i, j | 0 <= i < j < |pairs| ensures pairs[i].0 != pairs[j].0 {
      assert KeysOf(pairs)[i] != KeysOf(pairs)[j];
    }
  }

  // ---------------------------------------------------------------- the work of a run

  /** Every case under both variants, in the order the runner takes them. */
  function Work(caseIds: seq<Uuid>): (work: seq<(Uuid, Variant)>)
    ensures |work| == 2 * |caseIds|
  {
    seq(2 * |caseIds|, i requires 0 <= i < 2 * |caseIds| => (caseIds[i / 2], if i % 2 == 0 then Baseline else Candidate))
  }

  function Pairs(results: seq<CaseResult>): (pairs: seq<(Uuid, Variant)>)
    ensures |pairs| == |results|
    ensures forall i :: 0 <= i < |results| ==> pairs[i] == (results[i].caseId, results[i].variant)
  {
    seq(|results|, i requires 0 <= i < |results| => (results[i].caseId, results[i].variant))
  }

  /** Case by case, the baseline first. */
  lemma WorkInOrder(caseIds: seq<Uuid>, i: nat)
    requires i < |caseIds|
    ensures Work(caseIds)[2 * i] == (caseIds[i], Baseline) && Work(caseIds)[2 * i + 1] == (caseIds[i], Candidate)
  {
  }

  /** Each pair of a case and a variant occurs once. */
  lemma WorkIsEveryPairOnce(caseIds: seq<Uuid>)
    requires Distinct(caseIds)
    ensures Distinct(Work(caseIds))
    ensures forall c, v :: (c, v) in Work(caseIds) <==> c in caseIds
  {
    var work := Work(caseIds);
    forall i, j | 0 <= i < j < |work| ensures work[i] != work[j] {
      if i / 2 != j / 2 {
        assert caseIds[i / 2] != caseIds[j / 2];
      }
    }
    forall c, v ensures (c, v) in work <==> c in caseIds {
      if c in caseIds {
        var k :| 0 <= k < |caseIds| && caseIds[k] == c;
        assert work[if v.Baseline? then 2 * k else 2 * k + 1] == (c, v);
      }
    }
  }

  // ---------------------------------------------------------------- the run table

  /** `claim_pending`: only a pending run can be claimed. */
  function Claimed(gate: Gate, runId: Uuid, at: Time): Gate {
    if CanClaim(gate, runId) then
      gate.(runs := gate.runs[runId := gate.runs[runId].(status := Running, heartbeat := Some(at))])
    else gate
  }

  predicate CanClaim(gate: Gate, runId: Uuid) {
    runId in gate.runs && gate.runs[runId].status == Pending
  }

  function Touched(gate: Gate, runId: Uuid, at: Time): Gate {
    if runId in gate.runs && gate.runs[runId].status == Running then
      gate.(runs := gate.runs[runId := gate.runs[runId].(heartbeat := Some(at))])
    else gate
  }

  predicate IsStale(run: Run, before: Time) {
    run.status == Running && run.heartbeat.Some? && run.heartbeat.value < before
  }

  function StaleFailed(gate: Gate, before: Time): Gate {
    gate.(runs := map id | id in gate.runs ::
                    if IsStale(gate.runs[id], before) then gate.runs[id].(status := Failed) else gate.runs[id])
  }

  /** `update_run_status`: only a running run can be completed or failed. */
  function WithStatus(gate: Gate, runId: Uuid, status: RunStatus): Gate {
    if runId in gate.runs && (status in {Completed, Failed} ==> gate.runs[runId].status == Running) then
      gate.(runs := gate.runs[runId := gate.runs[runId].(status := status)])
    else gate
  }

  // ---------------------------------------------------------------- results and reviews

  function WithResult(gate: Gate, runId: Uuid, result: CaseResult): Gate
    requires runId in gate.runs
  {
    var run := gate.runs[runId];
    gate.(runs := gate.runs[runId := run.(results := run.results + [result])])
  }

  /** `set_answer_quality`: a score is written once. */
  function Rated(results: seq<CaseResult>, resultId: Uuid, quality: real): (rated: seq<CaseResult>)
    ensures |rated| == |results|
  {
    seq(|results|, i requires 0 <= i < |results| =>
      if results[i].resultId == resultId
          && results[i].quality.None? then results[i].(quality := Some(quality)) else results[i])
  }

  function WithQuality(gate: Gate, resultId: Uuid, quality: real): Gate {
    gate.(runs := map id | id in gate.runs :: gate.runs[id].(results := Rated(gate.runs[id].results, resultId, quality)))
  }

  datatype ReviewError =
    | BadScore | NotCompleted | AlreadyDecided | NoSuchResult
    | BadDecision | BadReason | NoSuchRun | WrongRun | NotEveryCase | NotEveryAnswer

  const MAX_NOTE := 2000
  const MAX_REASON := 1000

  /** The first result of that identifier, as `next` finds it. */
  function FirstResult(results: seq<CaseResult>, resultId: Uuid): (found: Option<CaseResult>)
    ensures found.Some? ==> found.value in results && found.value.resultId == resultId
    ensures found.None? ==> forall r :: r in results ==> r.resultId != resultId
  {
    if results == [] then None
    else if results[0].resultId == resultId then Some(results[0])
    else FirstResult(results[1..], resultId)
  }

  /** `review_answer_quality`. */
  function AnswerReview(gate: Gate, runId: Uuid, resultId: Uuid, quality: real, note: string): Result<Gate, ReviewError> {
    if !(0.0 <= quality <= 1.0) || |Strip(note)| > MAX_NOTE then Err(BadScore)
    else if runId !in gate.runs || gate.runs[runId].status != Completed then Err(NotCompleted)
    else if runId in gate.reviews then Err(AlreadyDecided)
    else
      var found := FirstResult(gate.runs[runId].results, resultId);
      if found.None? || found.value.quality.Some? then Err(NoSuchResult)
      else Ok(WithQuality(gate, resultId, quality))
  }

  predicate EveryCaseFinished(run: Run, suite: Suite) {
    forall c :: c in suite.caseIds ==> (c, Baseline) in Pairs(run.results) && (c, Candidate) in Pairs(run.results)
  }

  predicate EveryAnswerRated(run: Run) {
    forall r :: r in run.results && r.variant == Candidate ==> r.quality.Some?
  }

  /** `create_gate_review`: the decision on a completed run, once. */
  function Decision(gate: Gate, runId: Uuid, decision: string, reason: string, reviewedRunId: Uuid): Result<Gate, ReviewError> {
    if decision != "approve" && decision != "reject" then Err(BadDecision)
    else if Strip(reason) == "" || |reason| > MAX_REASON then Err(BadReason)
    else if runId !in gate.runs then Err(NoSuchRun)
    else
      var run := gate.runs[runId];
      if run.status != Completed then Err(NotCompleted)
      else if runId != reviewedRunId then Err(WrongRun)
      else if runId in gate.reviews then Err(AlreadyDecided)
      else if run.suiteId !in gate.suites || !EveryCaseFinished(run, gate.suites[run.suiteId]) then Err(NotEveryCase)
      else if decision == "approve" && !EveryAnswerRated(run) then Err(NotEveryAnswer)
      else Ok(gate.(reviews := gate.reviews[runId := decision == "approve"]))
  }

  // ---------------------------------------------------------------- when a review is accepted

  /** The first result of that identifier exists and has no score yet. */
  ghost predicate FirstUnrated(results: seq<CaseResult>, resultId: Uuid) {
    exists i :: && 0 <= i < |results| && results[i].resultId == resultId && results[i].quality == None
                && forall j :: 0 <= j < i ==> results[j].resultId != resultId
  }

  lemma {:induction false} FirstUnratedIff(results: seq<CaseResult>, resultId: Uuid)
    ensures FirstResult(results, resultId).Some? && FirstResult(results, resultId).value.quality.None?
        <==> FirstUnrated(results, resultId)
  {
    if results != [] && results[0].resultId != resultId {
      var rest := results[1..];
      FirstUnratedIff(rest, resultId);
      if i :| && 0 <= i < |rest| && rest[i].resultId == resultId && rest[i].quality == None
              && forall j :: 0 <= j < i ==> rest[j].resultId != resultId {
        ShiftedFirst(results, resultId, i);
      }
      if i :| && 0 <= i < |results| && results[i].resultId == resultId && results[i].quality == None
              && forall j :: 0 <= j < i ==> results[j].resultId != resultId {
        assert rest[i - 1] == results[i];
        assert forall j :: 0 <= j < i - 1 ==> rest[j] == results[j + 1];
      }
    }
  }

  lemma ShiftedFirst(results: seq<CaseResult>, resultId: Uuid, i: nat)
    requires results != [] && results[0].resultId != resultId && i < |results[1..]|
    requires results[1..][i].resultId == resultId && results[1..][i].quality == None
    requires forall j :: 0 <= j < i ==> results[1..][j].resultId != resultId
    ensures FirstUnrated(results, resultId)
  {
    assert results[i + 1] == results[1..][i];
    assert forall j :: 1 <= j < i + 1 ==> results[j] == results[1..][j - 1];
  }

  /** The score stands on every unrated result of that identifier; nothing else differs. */
  ghost predicate ScoreStored(before: seq<CaseResult>, after: seq<CaseResult>, resultId: Uuid, score: real) {
    |after| == |before| && forall i :: 0 <= i < |before| ==>
        after[i] == if before[i].resultId == resultId && before[i].quality == None
                    then CaseResult(resultId, before[i].caseId, before[i].variant, Some(score)) else before[i]
  }

  ghost predicate OnlyScored(before: Gate, after: Gate, resultId: Uuid, score: real) {
    && after.suites == before.suites && after.reviews == before.reviews && after.runs.Keys == before.runs.Keys
    && forall id :: id in before.runs ==>
         && after.runs[id] == before.runs[id].(results := after.runs[id].results)
         && ScoreStored(before.runs[id].results, after.runs[id].results, resultId, score)
  }

  ghost predicate ReviewAccepted(gate: Gate, runId: Uuid, resultId: Uuid, score: real, note: string) {
    && 0.0 <= score <= 1.0 && |Strip(note)| <= 2000
    && runId in gate.runs && gate.runs[runId].status == Completed && runId !in gate.reviews
    && FirstUnrated(gate.runs[runId].results, resultId)
  }

  /** Exactly these reviews are accepted, and they store exactly the given score. */
  lemma ReviewStoresTheScore(gate: Gate, runId: Uuid, resultId: Uuid, score: real, note: string)
    ensures var r := AnswerReview(gate, runId, resultId, score, note);
            && (r.Ok? <==> ReviewAccepted(gate, runId, resultId, score, note))
            && (r.Ok? ==> OnlyScored(gate, r.value, resultId, score))
            && (r.Err? ==> ReviewRefused(gate, runId, resultId, score, note, r.error))
  {
    hide Strip, FirstUnrated, FirstResult;
    if runId in gate.runs {
      FirstUnratedIff(gate.runs[runId].results, resultId);
    }
    hide ScoreStored, Rated;
    forall id | id in gate.runs
      ensures ScoreStored(gate.runs[id].results, Rated(gate.runs[id].results, resultId, score), resultId, score) {
      RatedStores(gate.runs[id].results, resultId, score);
    }
  }

  lemma RatedStores(results: seq<CaseResult>, resultId: Uuid, score: real)
    ensures ScoreStored(results, Rated(results, resultId, score), resultId, score)
  {
  }

  ghost predicate IsCompleted(gate: Gate, runId: Uuid) {
    runId in gate.runs && gate.runs[runId].status == Completed
  }

  /** Each error says what is wrong with a review, once what is checked earlier is right. */
  ghost predicate ReviewRefused(gate: Gate, runId: Uuid, resultId: Uuid, score: real, note: string, e: ReviewError) {
    match e
    case BadScore => !(0.0 <= score <= 1.0) || |Strip(note)| > 2000
    case NotCompleted => !IsCompleted(gate, runId)
    case AlreadyDecided => IsCompleted(gate, runId) && runId in gate.reviews
    case NoSuchResult => IsCompleted(gate, runId) && runId !in gate.reviews && !FirstUnrated(gate.runs[runId].results, resultId)
    case _ => false
  }

  ghost predicate DecisionRefused(gate: Gate, runId: Uuid, decision: string, reason: string, reviewedRunId: Uuid, e: ReviewError) {
    match e
    case BadDecision => decision != "approve" && decision != "reject"
    case BadReason => Strip(reason) == "" || |reason| > 1000
    case NoSuchRun => runId !in gate.runs
    case NotCompleted => runId in gate.runs && gate.runs[runId].status != Completed
    case WrongRun => IsCompleted(gate, runId) && runId != reviewedRunId
    case AlreadyDecided => IsCompleted(gate, runId) && runId in gate.reviews
    case NotEveryCase =>
      IsCompleted(gate, runId) && (gate.runs[runId].suiteId in gate.suites ==>
        exists c :: c in gate.suites[gate.runs[runId].suiteId].caseIds
                    && !(HasResult(gate.runs[runId], c, Baseline) && HasResult(gate.runs[runId], c, Candidate)))
    case NotEveryAnswer =>
      IsCompleted(gate, runId) && decision == "approve"
      && exists r :: r in gate.runs[runId].results && r.variant == Candidate && r.quality == None
    case _ => false
  }

  ghost predicate HasResult(run: Run, caseId: Uuid, variant: Variant) {
    exists r :: r in run.results && r.caseId == caseId && r.variant == variant
  }

  /** Every case has a result under both variants; an approval needs every candidate answer scored. */
  ghost predicate DecisionAccepted(gate: Gate, runId: Uuid, decision: string, reason: string, reviewedRunId: Uuid) {
    && (decision == "approve" || decision == "reject") && Strip(reason) != "" && |reason| <= 1000
    && runId == reviewedRunId && runId in gate.runs && gate.runs[runId].status == Completed && runId !in gate.reviews
    && gate.runs[runId].suiteId in gate.suites
    && (forall c :: c in gate.suites[gate.runs[runId].suiteId].caseIds ==>
          HasResult(gate.runs[runId], c, Baseline) && HasResult(gate.runs[runId], c, Candidate))
    && (decision == "approve" ==> forall r :: r in gate.runs[runId].results && r.variant == Candidate ==> r.quality.Some?)
  }

  lemma PairsIff(run: Run, caseId: Uuid, variant: Variant)
    ensures (caseId, variant) in Pairs(run.results) <==> HasResult(run, caseId, variant)
  {
    if (caseId, variant) in Pairs(run.results) {
      var i :| 0 <= i < |run.results| && Pairs(run.results)[i] == (caseId, variant);
      assert run.results[i] in run.results;
    }
    if r :| r in run.results && r.caseId == caseId && r.variant == variant {
      var i :| 0 <= i < |run.results| && run.results[i] == r;
      assert Pairs(run.results)[i] == (caseId, variant);
    }
  }

  /** Exactly these decisions are accepted, and they record whether the run was approved. */
  lemma DecisionIsRecorded(gate: Gate, runId: Uuid, decision: string, reason: string, reviewedRunId: Uuid)
    ensures var r := Decision(gate, runId, decision, reason, reviewedRunId);
            && (r.Ok? <==> DecisionAccepted(gate, runId, decision, reason, reviewedRunId))
            && (r.Ok? ==> r.value == Gate(gate.suites, gate.runs, gate.reviews[runId := (decision == "approve")]))
            && (r.Err? ==> DecisionRefused(gate, runId, decision, reason, reviewedRunId, r.error))
  {
    hide Strip, Pairs, HasResult;
    if runId in gate.runs {
      forall c: Uuid, v: Variant ensures (c, v) in Pairs(gate.runs[runId].results) <==> HasResult(gate.runs[runId], c, v) {
        PairsIff(gate.runs[runId], c, v);
      }
    }
  }

  // ---------------------------------------------------------------- the service over its tables

  class EvaluationService {
    var gate: Gate

    constructor (gate: Gate)
      ensures this.gate == gate
    {
      this.gate := gate;
    }

    /** The checks in order, then the insert. */
    method LaunchRun(profiles: Profiles, cmd: LaunchCommand, readable: bool, runId: Uuid)
      returns (r: Result<Uuid, LaunchError>)
      requires runId !in gate.runs
      modifies this
      ensures r.Ok? <==> SoundLaunch(old(gate), profiles, cmd, readable)
      ensures r.Ok? ==>
                var m, suite := FromJson(cmd.corpus).value, old(gate).suites[cmd.suiteId];
                var mode := if cmd.mode == "ingestion" then IngestionMode else QueryMode;
                var run := Run(cmd.suiteId, mode, m, suite.tenantId, m.baselineQuery, m.candidateQuery, Pending, None, []);
                r.value == runId && gate == old(gate).(runs := old(gate).runs[runId := run])
      ensures r.Err? ==> gate == old(gate) && IsFirstFault(old(gate), profiles, cmd, readable, r.error)
    {
      AdmittedIffAdmissible(gate, profiles, cmd, readable);
      AdmissibleIffSound(gate, profiles, cmd, readable);
      SoundNamesPolicies(gate, profiles, cmd, readable);
      hide Admissible, SoundLaunch, IsFirstFault, FromJson, KsAllowed, FitsSuite, ReusesCorpus, PairsCopies, ReadsBoth;
      if cmd.mode != "query" && cmd.mode != "ingestion" {
        return Err(UnknownMode);
      }
      if |cmd.baselines| != 1 || |cmd.candidates| != 1 {
        return Err(NotOnePolicy);
      }
      if cmd.mode == "query" && cmd.baselines == cmd.candidates {
        return Err(SamePolicy);
      }
      if !KsAllowed(cmd.ks) {
        return Err(BadKValues);
      }
      if cmd.suiteId !in gate.suites {
        return Err(NoSuite);
      }
      var suite := gate.suites[cmd.suiteId];
      var parsed := FromJson(cmd.corpus);
      if parsed.None? {
        return Err(BadManifest);
      }
      var m := parsed.value;
      if !FitsSuite(m, suite, cmd.baselines[0], cmd.candidates[0]) {
        return Err(CorpusMismatch);
      }
      if cmd.mode == "query" {
        if !ReusesCorpus(m, suite) {
          return Err(CorpusNotReused);
        }
      } else if !PairsCopies(m, suite) {
        return Err(CopiesNotPaired);
      }
      if !readable || m.baselineQuery !in profiles.queries || m.candidateQuery !in profiles.queries {
        return Err(PolicyUnavailable);
      }
      if cmd.mode == "ingestion" && !ReadsBoth(m, profiles) {
        return Err(CohortsUnread);
      }
      gate := gate.(runs := gate.runs[runId := RunOf(cmd, suite, m)]);
      r := Ok(runId);
    }

    method ClaimRun(runId: Uuid, at: Time) returns (claimed: bool)
      modifies this
      ensures claimed == CanClaim(old(gate), runId) && gate == Claimed(old(gate), runId, at)
      ensures claimed <==> runId in old(gate).runs && old(gate).runs[runId].status == Pending
      ensures gate == if !claimed then old(gate) else
                      var run := old(gate).runs[runId];
                      old(gate).(runs := old(gate).runs[runId := run.(status := Running, heartbeat := Some(at))])
    {
      claimed := runId in gate.runs && gate.runs[runId].status == Pending;
      if claimed {
        gate := gate.(runs := gate.runs[runId := gate.runs[runId].(status := Running, heartbeat := Some(at))]);
      }
    }

    method TouchHeartbeat(runId: Uuid, at: Time)
      modifies this
      ensures gate == Touched(old(gate), runId, at)
      ensures runId in old(gate).runs && old(gate).runs[runId].status == Running ==>
                gate == old(gate).(runs := old(gate).runs[runId := old(gate).runs[runId].(heartbeat := Some(at))])
      ensures !(runId in old(gate).runs && old(gate).runs[runId].status == Running) ==> gate == old(gate)
    {
      if runId in gate.runs && gate.runs[runId].status == Running {
        gate := gate.(runs := gate.runs[runId := gate.runs[runId].(heartbeat := Some(at))]);
      }
    }

    method UpdateRunStatus(runId: Uuid, status: RunStatus)
      modifies this
      ensures gate == WithStatus(old(gate), runId, status)
      ensures var moves := runId in old(gate).runs
                           && (old(gate).runs[runId].status == Running || (status != Completed && status != Failed));
              gate == if moves then old(gate).(runs := old(gate).runs[runId := old(gate).runs[runId].(status := status)])
                      else old(gate)
    {
      if runId in gate.runs && (status !in {Completed, Failed} || gate.runs[runId].status == Running) {
        gate := gate.(runs := gate.runs[runId := gate.runs[runId].(status := status)]);
      }
    }

    /** One UPDATE over the rows; returns the runs it failed. */
    method FailStaleRunning(before: Time) returns (failed: set<Uuid>)
      modifies this
      ensures gate == StaleFailed(old(gate), before)
      ensures failed == set id | id in old(gate).runs && IsStale(old(gate).runs[id], before)
      ensures OnlyStaleFailed(old(gate), gate, before)
      ensures forall id :: id in failed <==> id in old(gate).runs && gate.runs[id] != old(gate).runs[id]
    {
      SweepFailsTheStale(gate, before);
      StaleAreChanged(gate, before);
      hide OnlyStaleFailed;
      hide IsStale, StaleFailed;
      failed := set id | id in gate.runs && IsStale(gate.runs[id], before);
      var left := failed;
      var runs := gate.runs;
      while left != {}
        invariant left <= failed && runs.Keys == gate.runs.Keys
        invariant forall id :: id in runs ==>
                    runs[id] == if id in failed - left then gate.runs[id].(status := Failed) else gate.runs[id]
        decreases |left|
      {
        var id :| id in left;
        runs := runs[id := runs[id].(status := Failed)];
        left := left - {id};
      }
      StaleIsMarked(gate, before, failed, runs);
      gate := gate.(runs := runs);
    }

    method AddCaseResult(runId: Uuid, result: CaseResult)
      requires runId in gate.runs
      modifies this
      ensures gate == WithResult(old(gate), runId, result)
      ensures var run := old(gate).runs[runId];
              gate == old(gate).(runs := old(gate).runs[runId := run.(results := run.results + [result])])
    {
      var run := gate.runs[runId];
      gate := gate.(runs := gate.runs[runId := run.(results := run.results + [result])]);
    }

    method ReviewAnswerQuality(runId: Uuid, resultId: Uuid, quality: real, note: string) returns (r: Result<(), ReviewError>)
      modifies this
      ensures match AnswerReview(old(gate), runId, resultId, quality, note)
              case Err(e) => r == Err(e) && gate == old(gate)
              case Ok(after) => r.Ok? && gate == after
      ensures r.Ok? <==> ReviewAccepted(old(gate), runId, resultId, quality, note)
      ensures if r.Ok? then OnlyScored(old(gate), gate, resultId, quality) else gate == old(gate)
      ensures r.Err? ==> ReviewRefused(old(gate), runId, resultId, quality, note, r.error)
    {
      ReviewStoresTheScore(gate, runId, resultId, quality, note);
      hide Strip, Rated, ReviewAccepted, OnlyScored, ReviewRefused;
      if quality < 0.0 || quality > 1.0 || |Strip(note)| > MAX_NOTE {
        return Err(BadScore);
      }
      if runId !in gate.runs || gate.runs[runId].status != Completed {
        return Err(NotCompleted);
      }
      if runId in gate.reviews {
        return Err(AlreadyDecided);
      }
      var found := FirstResult(gate.runs[runId].results, resultId);
      if found.None? || found.value.quality.Some? {
        return Err(NoSuchResult);
      }
      gate := WithQuality(gate, resultId, quality);
      r := Ok(());
    }

    method CreateGateReview(runId: Uuid, decision: string, reason: string, reviewedRunId: Uuid)
      returns (r: Result<(), ReviewError>)
      modifies this
      ensures match Decision(old(gate), runId, decision, reason, reviewedRunId)
              case Err(e) => r == Err(e) && gate == old(gate)
              case Ok(after) => r.Ok? && gate == after
      ensures r.Ok? <==> DecisionAccepted(old(gate), runId, decision, reason, reviewedRunId)
      ensures r.Err? ==> DecisionRefused(old(gate), runId, decision, reason, reviewedRunId, r.error)
      ensures gate.runs == old(gate).runs && gate.suites == old(gate).suites
      ensures gate.reviews == if r.Ok? then old(gate).reviews[runId := (decision == "approve")] else old(gate).reviews
    {
      DecisionIsRecorded(gate, runId, decision, reason, reviewedRunId);
      hide Strip, DecisionAccepted, DecisionRefused;
      if decision != "approve" && decision != "reject" {
        return Err(BadDecision);
      }
      if Strip(reason) == "" || |reason| > MAX_REASON {
        return Err(BadReason);
      }
      if runId !in gate.runs {
        return Err(NoSuchRun);
      }
      var run := gate.runs[runId];
      if run.status != Completed {
        return Err(NotCompleted);
      }
      if runId != reviewedRunId {
        return Err(WrongRun);
      }
      if runId in gate.reviews {
        return Err(AlreadyDecided);
      }
      if run.suiteId !in gate.suites {
        return Err(NotEveryCase);
      }
      var variants := set item | item in run.results :: (item.caseId, item.variant);
      FinishedPairs(run.results, variants);
      var caseIds := gate.suites[run.suiteId].caseIds;
      if exists c :: c in caseIds && ((c, Baseline) !in variants || (c, Candidate) !in variants) {
        return Err(NotEveryCase);
      }
      if decision == "approve" && exists item :: item in run.results && item.variant == Candidate && item.quality.None? {
        return Err(NotEveryAnswer);
      }
      gate := gate.(reviews := gate.reviews[runId := decision == "approve"]);
      r := Ok(());
    }
  }

  /** A running run whose heartbeat is older fails; every other row stays as it is. */
  ghost predicate OnlyStaleFailed(before: Gate, after: Gate, bound: Time) {
    && after.suites == before.suites && after.reviews == before.reviews && after.runs.Keys == before.runs.Keys
    && forall id :: id in before.runs ==>
         var run := before.runs[id];
         after.runs[id] == if run.status == Running && AtMost(run.heartbeat, bound - 1) then run.(status := Failed) else run
  }

  lemma SweepFailsTheStale(gate: Gate, before: Time)
    ensures OnlyStaleFailed(gate, StaleFailed(gate, before), before)
  {
  }

  lemma StaleAreChanged(gate: Gate, before: Time)
    ensures forall id :: id in gate.runs ==>
              (IsStale(gate.runs[id], before) <==> StaleFailed(gate, before).runs[id] != gate.runs[id])
  {
  }

  lemma StaleIsMarked(gate: Gate, before: Time, failed: set<Uuid>, runs: map<Uuid, Run>)
    requires failed == set id | id in gate.runs && IsStale(gate.runs[id], before)
    requires runs.Keys == gate.runs.Keys
    requires forall id :: id in runs ==>
               runs[id] == if id in failed then gate.runs[id].(status := Failed) else gate.runs[id]
    ensures gate.(runs := runs) == StaleFailed(gate, before)
  {
    hide IsStale;
    assert runs == StaleFailed(gate, before).runs;
  }

  lemma FinishedPairs(results: seq<CaseResult>, variants: set<(Uuid, Variant)>)
    requires variants == set item | item in results :: (item.caseId, item.variant)
    ensures forall pair :: pair in variants <==> pair in Pairs(results)
  {
    forall pair ensures pair in variants <==> pair in Pairs(results) {
      if pair in Pairs(results) {
        var i :| 0 <= i < |results| && Pairs(results)[i] == pair;
        assert results[i] in results;
      }
      if pair in variants {
        var item :| item in results && pair == (item.caseId, item.variant);
        var i :| 0 <= i < |results| && results[i] == item;
        assert Pairs(results)[i] == pair;
      }
    }
  }
}
