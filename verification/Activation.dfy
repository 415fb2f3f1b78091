/** The active-profile pointers, their audit log, and the gated switches between profiles. */
module Activation {
  import opened Prelude
  import opened PyText
  import opened Evaluation

  datatype Scope = Platform | EvaluationOf(tenantId: Uuid)

  datatype Kind = Ingestion | Query

  datatype Pointer = Pointer(profileId: Uuid, revision: nat)

  /** One audit record. */
  datatype Entry = Entry(scope: Scope, kind: Kind, previous: Option<Uuid>, profileId: Uuid, revision: nat)

  type Pointers = map<(Scope, Kind), Pointer>

  /** `readyProfiles` are the ingestion profiles with a ready index generation. */
  datatype Registry = Registry(profiles: Profiles, readyProfiles: set<Uuid>, pointers: Pointers, audit: seq<Entry>)

  // ---------------------------------------------------------------- the pointer table

  function Get(pointers: Pointers, scope: Scope, kind: Kind): Option<Pointer> {
    if (scope, kind) in pointers then Some(pointers[(scope, kind)]) else None
  }

  class ActiveProfileRepository {
    var pointers: Pointers

    constructor (pointers: Pointers)
      ensures this.pointers == pointers
    {
      this.pointers := pointers;
    }

    method Lock(scope: Scope, kind: Kind) returns (current: Option<Pointer>)
      ensures current == if (scope, kind) in pointers then Some(pointers[(scope, kind)]) else None
    {
      current := if (scope, kind) in pointers then Some(pointers[(scope, kind)]) else None;
    }

    method Activate(scope: Scope, kind: Kind, profileId: Uuid, revision: nat)
      modifies this
      ensures var matches := (scope, kind) in old(pointers) && old(pointers)[(scope, kind)].revision == revision;
              pointers == if matches then old(pointers)[(scope, kind) := Pointer(profileId, revision + 1)] else old(pointers)
    {
      if (scope, kind) in pointers && pointers[(scope, kind)].revision == revision {
        pointers := pointers[(scope, kind) := Pointer(profileId, revision + 1)];
      }
    }

    /** Inserts the row of a dedicated scope; the platform row is never touched here. */
    method CreateEvaluationIngestion(scope: Scope, profileId: Uuid) returns (ok: bool)
      requires (scope, Ingestion) !in pointers
      modifies this
      ensures ok == scope.EvaluationOf?
      ensures pointers == if ok then old(pointers)[(scope, Ingestion) := Pointer(profileId, 1)] else old(pointers)
    {
      ok := scope.EvaluationOf?;
      if ok {
        pointers := pointers[(scope, Ingestion) := Pointer(profileId, 1)];
      }
    }
  }

  // ---------------------------------------------------------------- the evidence a switch needs

  /** A completed, approved comparison of exactly these two query policies. */
  predicate ApprovesQuery(gate: Gate, runId: Uuid, candidate: Uuid, baseline: Uuid) {
    && runId in gate.runs && runId in gate.reviews && gate.reviews[runId]
    && var run := gate.runs[runId];
       run.status == Completed && run.mode.QueryMode? && run.candidate == candidate && run.baseline == baseline
  }

  /** A completed, approved comparison of exactly these two ingestion policies in the test tenant, under
      the active query policy. */
  predicate ApprovesIngestion(gate: Gate, runId: Uuid, tenantId: Uuid, candidate: Uuid, baseline: Uuid, query: Uuid) {
    && runId in gate.runs && runId in gate.reviews && gate.reviews[runId]
    && var run := gate.runs[runId];
       && run.status == Completed && run.mode.IngestionMode? && run.tenantId == tenantId
       && run.manifest.baselineIngestion == Some(baseline) && run.manifest.candidateIngestion == Some(candidate)
       && run.manifest.baselineQuery == query && run.manifest.candidateQuery == query
  }

  predicate QueryIsApproved(gate: Gate, candidate: Uuid, baseline: Uuid) {
    exists runId :: runId in gate.runs && ApprovesQuery(gate, runId, candidate, baseline)
  }

  predicate IngestionIsApproved(gate: Gate, tenantId: Uuid, candidate: Uuid, baseline: Uuid, query: Uuid) {
    exists runId :: runId in gate.runs && ApprovesIngestion(gate, runId, tenantId, candidate, baseline, query)
  }

  // ---------------------------------------------------------------- the switches

  /** `RevisionConflict` stands for `ProfileRevisionConflictError`; all the others for
      `InvalidProfileProposalError`, told apart by what was wrong. */
  datatype ActivationError =
    | BadProposal | RevisionConflict | AlreadyActive | NotApproved | ProfileUnavailable | CohortMissing | OtherTenant

  const MAX_NOTE_LENGTH := 512

  predicate GoodReason(reason: string) {
    Strip(reason) != "" && |reason| <= MAX_NOTE_LENGTH
  }

  /** Every one of these ingestion profiles exists and is usable, and the query policy reads its index. */
  predicate CoversAll(query: QueryProfile, ingestionIds: set<Uuid>, profiles: Profiles, usable: set<Uuid>) {
    forall id :: id in ingestionIds ==> id in profiles.ingestions && id in usable && Includes(query, profiles.ingestions[id])
  }

  /** What a switch to this profile must find, beside the current pointers: `usable` are the bundles
      whose capabilities are all validated and supported at this moment. */
  function ActivationFault(gate: Gate, reg: Registry, tenantId: Option<Uuid>, kind: Kind, profileId: Uuid,
                           usable: set<Uuid>, ingestion: Option<Pointer>, query: Option<Pointer>,
                           current: Pointer): Option<ActivationError> {
    match kind
    case Query =>
      if !QueryIsApproved(gate, profileId, current.profileId) then Some(NotApproved)
      else if profileId !in reg.profiles.queries || profileId !in usable then Some(ProfileUnavailable)
      else
        var ids := reg.readyProfiles + if ingestion.Some? then {ingestion.value.profileId} else {};
        if CoversAll(reg.profiles.queries[profileId], ids, reg.profiles, usable) then None else Some(CohortMissing)
    case Ingestion =>
      if query.None? then Some(ProfileUnavailable)
      else if tenantId.None?
          || !IngestionIsApproved(gate, tenantId.value, profileId, current.profileId, query.value.profileId) then
        Some(NotApproved)
      else if query.value.profileId !in reg.profiles.queries
          || query.value.profileId !in usable then Some(ProfileUnavailable)
      else if CoversAll(reg.profiles.queries[query.value.profileId], {profileId}, reg.profiles, usable) then None
      else Some(CohortMissing)
  }

  /** The pointer moves and the audit log grows by one record. */
  function Switched(reg: Registry, scope: Scope, kind: Kind, previous: Uuid, profileId: Uuid, revision: nat): Registry {
    reg.(pointers := reg.pointers[(scope, kind) := Pointer(profileId, revision)],
         audit := reg.audit + [Entry(scope, kind, Some(previous), profileId, revision)])
  }

  /** `activate`: both platform pointers are locked, so this is one step. */
  function Activated(gate: Gate, reg: Registry, tenantId: Option<Uuid>, kind: Kind, profileId: Uuid, expected: int,
                     reason: string, usable: set<Uuid>): Result<Registry, ActivationError> {
    var ingestion, query := Get(reg.pointers, Platform, Ingestion), Get(reg.pointers, Platform, Query);
    var current := if kind.Ingestion? then ingestion else query;
    if !GoodReason(reason) then Err(BadProposal)
    else if current.None? || current.value.revision != expected then Err(RevisionConflict)
    else if current.value.profileId == profileId then Err(AlreadyActive)
    else
      match ActivationFault(gate, reg, tenantId, kind, profileId, usable, ingestion, query, current.value)
      case Some(e) => Err(e)
      case None => Ok(Switched(reg, Platform, kind, current.value.profileId, profileId, current.value.revision + 1))
  }

  /** `select_evaluation_ingestion`: an override for future uploads of the test tenant only. */
  function Selected(reg: Registry, testTenant: Option<Uuid>, tenantId: Uuid, profileId: Uuid, expected: int,
                    reason: string, usable: set<Uuid>): Result<Registry, ActivationError> {
    var scope := EvaluationOf(tenantId);
    if testTenant != Some(tenantId) then Err(OtherTenant)
    else if expected < 0 || !GoodReason(reason) then Err(BadProposal)
    else if profileId !in reg.profiles.ingestions || profileId !in usable then Err(ProfileUnavailable)
    else
      match Get(reg.pointers, scope, Ingestion)
      case None =>
        if expected != 0 then Err(RevisionConflict)
        else
          var baseline := Get(reg.pointers, Platform, Ingestion);
          if baseline.None? then Err(ProfileUnavailable)
          else Ok(Switched(reg, scope, Ingestion, baseline.value.profileId, profileId, 1))
      case Some(current) =>
        if current.revision != expected then Err(RevisionConflict)
        else if current.profileId == profileId then Err(AlreadyActive)
        else Ok(Switched(reg, scope, Ingestion, current.profileId, profileId, current.revision + 1))
  }

  // ---------------------------------------------------------------- exactly when a move is allowed

  /** A completed and approved query evaluation compared exactly these two policies. */
  ghost predicate QueryEvidence(gate: Gate, candidate: Uuid, baseline: Uuid) {
    exists id :: id in gate.runs && id in gate.reviews && gate.reviews[id] && gate.runs[id].status == Completed
        && gate.runs[id].mode == QueryMode && gate.runs[id].baseline == baseline && gate.runs[id].candidate == candidate
  }

  /** A completed and approved ingestion evaluation of the test tenant compared exactly these two ingestion
      policies, both under the query policy `query`. */
  ghost predicate IngestionEvidence(gate: Gate, tenantId: Uuid, candidate: Uuid, baseline: Uuid, query: Uuid) {
    exists id :: id in gate.runs && id in gate.reviews && gate.reviews[id] && gate.runs[id].status == Completed
        && gate.runs[id].mode == IngestionMode && gate.runs[id].tenantId == tenantId
        && gate.runs[id].manifest.baselineIngestion == Some(baseline)
        && gate.runs[id].manifest.candidateIngestion == Some(candidate)
        && gate.runs[id].manifest.baselineQuery == gate.runs[id].manifest.candidateQuery == query
  }

  /** Both profiles exist, the ingestion profile is usable, and the query profile searches both its indexes. */
  ghost predicate SearchesIndexOf(profiles: Profiles, queryId: Uuid, ingestionId: Uuid, usable: set<Uuid>) {
    && queryId in profiles.queries && ingestionId in profiles.ingestions && ingestionId in usable
    && Searches(profiles.queries[queryId], profiles.ingestions[ingestionId])
  }

  ghost predicate Reasoned(reason: string) {
    Strip(reason) != "" && |reason| <= 512
  }

  ghost predicate QuerySwitchAllowed(gate: Gate, reg: Registry, profileId: Uuid, usable: set<Uuid>) {
    && (Platform, Query) in reg.pointers && QueryEvidence(gate, profileId, reg.pointers[(Platform, Query)].profileId)
    && profileId in reg.profiles.queries && profileId in usable
    && ReadsAll(reg, profileId, usable)
  }

  /** The query profile reads every ready index and the active ingestion profile's. */
  ghost predicate ReadsAll(reg: Registry, queryId: Uuid, usable: set<Uuid>) {
    && (forall id :: id in reg.readyProfiles ==> SearchesIndexOf(reg.profiles, queryId, id, usable))
    && ((Platform, Ingestion) in reg.pointers ==>
          SearchesIndexOf(reg.profiles, queryId, reg.pointers[(Platform, Ingestion)].profileId, usable))
  }

  lemma ReadsAllIff(reg: Registry, queryId: Uuid, usable: set<Uuid>)
    requires queryId in reg.profiles.queries
    ensures var active := Get(reg.pointers, Platform, Ingestion);
            var ids := reg.readyProfiles + if active.Some? then {active.value.profileId} else {};
            CoversAll(reg.profiles.queries[queryId], ids, reg.profiles, usable) <==> ReadsAll(reg, queryId, usable)
  {
    var active := Get(reg.pointers, Platform, Ingestion);
    CoversAllIff(reg.profiles, queryId, reg.readyProfiles + if active.Some? then {active.value.profileId} else {}, usable);
    hide CoversAll, SearchesIndexOf;
  }

  ghost predicate IngestionSwitchAllowed(gate: Gate, reg: Registry, testTenant: Option<Uuid>, profileId: Uuid,
                                         usable: set<Uuid>) {
    && (Platform, Ingestion) in reg.pointers && (Platform, Query) in reg.pointers && testTenant.Some?
    && var query := reg.pointers[(Platform, Query)].profileId;
       && IngestionEvidence(gate, testTenant.value, profileId, reg.pointers[(Platform, Ingestion)].profileId, query)
       && query in usable && SearchesIndexOf(reg.profiles, query, profileId, usable)
  }

  /** The pointer is at the expected revision and at another profile, and the switch has what its kind needs. */
  ghost predicate SwitchAllowed(gate: Gate, reg: Registry, testTenant: Option<Uuid>, kind: Kind, profileId: Uuid,
                                expected: int, reason: string, usable: set<Uuid>) {
    && Reasoned(reason) && (Platform, kind) in reg.pointers
    && reg.pointers[(Platform, kind)].revision == expected && reg.pointers[(Platform, kind)].profileId != profileId
    && match kind
       case Query => QuerySwitchAllowed(gate, reg, profileId, usable)
       case Ingestion => IngestionSwitchAllowed(gate, reg, testTenant, profileId, usable)
  }

  /** That pointer names the profile at the next revision and one record says what it replaced; nothing else
      differs. */
  ghost predicate MovedTo(before: Registry, after: Registry, scope: Scope, kind: Kind, previous: Uuid, profileId: Uuid,
                          revision: int) {
    && revision >= 1 && after.profiles == before.profiles && after.readyProfiles == before.readyProfiles
    && after.pointers == before.pointers[(scope, kind) := Pointer(profileId, revision)]
    && after.audit == before.audit + [Entry(scope, kind, Some(previous), profileId, revision)]
  }

  /** The query profile that must read indexes after the switch. */
  ghost predicate ReaderAvailable(reg: Registry, kind: Kind, profileId: Uuid, usable: set<Uuid>) {
    && (Platform, Query) in reg.pointers
    && var reader := if kind == Query then profileId else reg.pointers[(Platform, Query)].profileId;
       reader in reg.profiles.queries && reader in usable
  }

  /** The pointer a switch starts from. */
  ghost predicate AtRevision(reg: Registry, scope: Scope, kind: Kind, expected: int) {
    (scope, kind) in reg.pointers && reg.pointers[(scope, kind)].revision == expected
  }

  /** Each error says what is wrong with a switch, once what is checked earlier is right. */
  ghost predicate SwitchRefused(gate: Gate, reg: Registry, testTenant: Option<Uuid>, kind: Kind, profileId: Uuid,
                                expected: int, reason: string, usable: set<Uuid>, e: ActivationError) {
    if e == BadProposal then !Reasoned(reason)
    else
      && Reasoned(reason)
      && if e == RevisionConflict then !AtRevision(reg, Platform, kind, expected)
         else
           && AtRevision(reg, Platform, kind, expected)
           && var active := reg.pointers[(Platform, kind)].profileId;
              match e
              case AlreadyActive => active == profileId
              case NotApproved =>
                if kind == Query then !QueryEvidence(gate, profileId, active)
                else (Platform, Query) in reg.pointers && (testTenant == None
                     || !IngestionEvidence(gate, testTenant.value, profileId, active, reg.pointers[(Platform, Query)].profileId))
              case ProfileUnavailable => !ReaderAvailable(reg, kind, profileId, usable)
              case CohortMissing =>
                && ReaderAvailable(reg, kind, profileId, usable)
                && if kind == Query then !ReadsAll(reg, profileId, usable)
                   else !SearchesIndexOf(reg.profiles, reg.pointers[(Platform, Query)].profileId, profileId, usable)
              case _ => false
  }

  lemma QueryIsApprovedIff(gate: Gate, candidate: Uuid, baseline: Uuid)
    ensures QueryIsApproved(gate, candidate, baseline) <==> QueryEvidence(gate, candidate, baseline)
  {
    if QueryIsApproved(gate, candidate, baseline) {
      var id :| id in gate.runs && ApprovesQuery(gate, id, candidate, baseline);
    }
    if QueryEvidence(gate, candidate, baseline) {
      var id :| id in gate.runs && id in gate.reviews && gate.reviews[id] && gate.runs[id].status == Completed
        && gate.runs[id].mode == QueryMode && gate.runs[id].baseline == baseline && gate.runs[id].candidate == candidate;
      assert ApprovesQuery(gate, id, candidate, baseline);
    }
  }

  lemma IngestionIsApprovedIff(gate: Gate, tenantId: Uuid, candidate: Uuid, baseline: Uuid, query: Uuid)
    ensures IngestionIsApproved(gate, tenantId, candidate, baseline, query)
        <==> IngestionEvidence(gate, tenantId, candidate, baseline, query)
  {
    if IngestionIsApproved(gate, tenantId, candidate, baseline, query) {
      var id :| id in gate.runs && ApprovesIngestion(gate, id, tenantId, candidate, baseline, query);
    }
    if IngestionEvidence(gate, tenantId, candidate, baseline, query) {
      var id :| id in gate.runs && id in gate.reviews && gate.reviews[id] && gate.runs[id].status == Completed
        && gate.runs[id].mode == IngestionMode && gate.runs[id].tenantId == tenantId
        && gate.runs[id].manifest.baselineIngestion == Some(baseline)
        && gate.runs[id].manifest.candidateIngestion == Some(candidate)
        && gate.runs[id].manifest.baselineQuery == gate.runs[id].manifest.candidateQuery == query;
      assert ApprovesIngestion(gate, id, tenantId, candidate, baseline, query);
    }
  }

  lemma CoversAllIff(profiles: Profiles, queryId: Uuid, ids: set<Uuid>, usable: set<Uuid>)
    requires queryId in profiles.queries
    ensures CoversAll(profiles.queries[queryId], ids, profiles, usable)
        <==> forall id :: id in ids ==> SearchesIndexOf(profiles, queryId, id, usable)
  {
  }

  lemma QueryFaultIff(gate: Gate, reg: Registry, tenantId: Option<Uuid>, profileId: Uuid, usable: set<Uuid>)
    requires (Platform, Query) in reg.pointers
    ensures ActivationFault(gate, reg, tenantId, Query, profileId, usable, Get(reg.pointers, Platform, Ingestion),
                Get(reg.pointers, Platform, Query), reg.pointers[(Platform, Query)]).None?
        <==> QuerySwitchAllowed(gate, reg, profileId, usable)
  {
    QueryIsApprovedIff(gate, profileId, reg.pointers[(Platform, Query)].profileId);
    if profileId in reg.profiles.queries {
      ReadsAllIff(reg, profileId, usable);
    }
    hide QueryIsApproved, QueryEvidence, CoversAll, ReadsAll;
  }

  lemma IngestionFaultIff(gate: Gate, reg: Registry, tenantId: Option<Uuid>, profileId: Uuid, usable: set<Uuid>)
    requires (Platform, Ingestion) in reg.pointers
    ensures ActivationFault(gate, reg, tenantId, Ingestion, profileId, usable, Get(reg.pointers, Platform, Ingestion),
                Get(reg.pointers, Platform, Query), reg.pointers[(Platform, Ingestion)]).None?
        <==> IngestionSwitchAllowed(gate, reg, tenantId, profileId, usable)
  {
    if (Platform, Query) in reg.pointers {
      var query := reg.pointers[(Platform, Query)].profileId;
      if tenantId.Some? {
        IngestionIsApprovedIff(gate, tenantId.value, profileId, reg.pointers[(Platform, Ingestion)].profileId, query);
      }
      if query in reg.profiles.queries {
        CoversAllIff(reg.profiles, query, {profileId}, usable);
      }
      assert SearchesIndexOf(reg.profiles, query, profileId, usable) ==> query in reg.profiles.queries;
    }
    hide IngestionIsApproved, IngestionEvidence, CoversAll, SearchesIndexOf;
  }

  /** A switch succeeds exactly when it is allowed, and then moves that pointer alone. */
  lemma SwitchSucceedsIff(gate: Gate, reg: Registry, testTenant: Option<Uuid>, kind: Kind, profileId: Uuid, expected: int,
                     reason: string, usable: set<Uuid>)
    ensures var r := Activated(gate, reg, testTenant, kind, profileId, expected, reason, usable);
            && (r.Ok? <==> SwitchAllowed(gate, reg, testTenant, kind, profileId, expected, reason, usable))
            && (r.Ok? ==>
                  MovedTo(reg, r.value, Platform, kind, reg.pointers[(Platform, kind)].profileId, profileId, expected + 1))
  {
    if (Platform, kind) in reg.pointers {
      match kind {
        case Query => QueryFaultIff(gate, reg, testTenant, profileId, usable);
        case Ingestion => IngestionFaultIff(gate, reg, testTenant, profileId, usable);
      }
    }
    hide ActivationFault, QuerySwitchAllowed, IngestionSwitchAllowed, Strip;
  }

  /** A refused switch names what is wrong. */
  lemma RefusalsExplain(gate: Gate, reg: Registry, testTenant: Option<Uuid>, kind: Kind, profileId: Uuid, expected: int,
                        reason: string, usable: set<Uuid>)
    ensures var r := Activated(gate, reg, testTenant, kind, profileId, expected, reason, usable);
            r.Err? ==> SwitchRefused(gate, reg, testTenant, kind, profileId, expected, reason, usable, r.error)
  {
    hide Strip, CoversAll, QueryIsApproved, IngestionIsApproved, QueryEvidence, IngestionEvidence, ReadsAll, SearchesIndexOf;
    if (Platform, Query) in reg.pointers && (Platform, kind) in reg.pointers {
      var query := reg.pointers[(Platform, Query)].profileId;
      if profileId in reg.profiles.queries {
        ReadsAllIff(reg, profileId, usable);
      }
      if query in reg.profiles.queries {
        CoversAllIff(reg.profiles, query, {profileId}, usable);
      }
      var active := reg.pointers[(Platform, kind)].profileId;
      QueryIsApprovedIff(gate, profileId, active);
      if testTenant.Some? {
        IngestionIsApprovedIff(gate, testTenant.value, profileId, active, reg.pointers[(Platform, Query)].profileId);
      }
    }
  }

  ghost predicate SelectionRefused(reg: Registry, testTenant: Option<Uuid>, tenantId: Uuid, profileId: Uuid, expected: int,
                                   reason: string, usable: set<Uuid>, e: ActivationError) {
    var present := (EvaluationOf(tenantId), Ingestion) in reg.pointers;
    var available := profileId in reg.profiles.ingestions && profileId in usable;
    match e
    case OtherTenant => testTenant != Some(tenantId)
    case BadProposal => testTenant == Some(tenantId) && (expected < 0 || !Reasoned(reason))
    case ProfileUnavailable => !available || (!present && (Platform, Ingestion) !in reg.pointers)
    case RevisionConflict =>
      available && (if present then !AtRevision(reg, EvaluationOf(tenantId), Ingestion, expected) else expected != 0)
    case AlreadyActive => present && reg.pointers[(EvaluationOf(tenantId), Ingestion)].profileId == profileId
    case _ => false
  }

  lemma SelectionRefusalsExplain(reg: Registry, testTenant: Option<Uuid>, tenantId: Uuid, profileId: Uuid, expected: int,
                                 reason: string, usable: set<Uuid>)
    ensures var r := Selected(reg, testTenant, tenantId, profileId, expected, reason, usable);
            r.Err? ==> SelectionRefused(reg, testTenant, tenantId, profileId, expected, reason, usable, r.error)
  {
    hide Strip;
  }

  /** A selection is for the test tenant and an available profile. It moves the tenant's pointer at the
      expected revision, or makes it when revision 0 is expected and the platform has one. */
  ghost predicate SelectionAllowed(reg: Registry, testTenant: Option<Uuid>, tenantId: Uuid, profileId: Uuid, expected: int,
                                   reason: string, usable: set<Uuid>) {
    && testTenant == Some(tenantId) && expected >= 0 && Reasoned(reason)
    && profileId in reg.profiles.ingestions && profileId in usable
    && if (EvaluationOf(tenantId), Ingestion) in reg.pointers then
         var current := reg.pointers[(EvaluationOf(tenantId), Ingestion)];
         current.revision == expected && current.profileId != profileId
       else expected == 0 && (Platform, Ingestion) in reg.pointers
  }

  /** What the tenant's uploads used before the selection. */
  ghost function UsedBefore(reg: Registry, tenantId: Uuid): Uuid
    requires (EvaluationOf(tenantId), Ingestion) in reg.pointers || (Platform, Ingestion) in reg.pointers
  {
    if (EvaluationOf(tenantId), Ingestion) in reg.pointers then reg.pointers[(EvaluationOf(tenantId), Ingestion)].profileId
    else reg.pointers[(Platform, Ingestion)].profileId
  }

  lemma SelectionSucceedsIff(reg: Registry, testTenant: Option<Uuid>, tenantId: Uuid, profileId: Uuid, expected: int,
                    reason: string, usable: set<Uuid>)
    ensures var r := Selected(reg, testTenant, tenantId, profileId, expected, reason, usable);
            && (r.Ok? <==> SelectionAllowed(reg, testTenant, tenantId, profileId, expected, reason, usable))
            && (r.Ok? ==> MovedTo(reg, r.value, EvaluationOf(tenantId), Ingestion, UsedBefore(reg, tenantId), profileId,
                                  expected + 1))
  {
    hide Strip;
  }

  // ---------------------------------------------------------------- the service

  class ProfileApprovalService {
    const active: ActiveProfileRepository
    const testTenant: Option<Uuid>
    var profiles: Profiles
    var readyProfiles: set<Uuid>
    var audit: seq<Entry>

    constructor (reg: Registry, testTenant: Option<Uuid>)
      ensures Reg() == reg && this.testTenant == testTenant && fresh(active)
    {
      this.active := new ActiveProfileRepository(reg.pointers);
      this.testTenant := testTenant;
      this.profiles := reg.profiles;
      this.readyProfiles := reg.readyProfiles;
      this.audit := reg.audit;
    }

    /** The rows the service works on. */
    function Reg(): Registry
      reads this, active
    {
      Registry(profiles, readyProfiles, active.pointers, audit)
    }

    method RequireApprovedEvaluation(gate: Gate, candidate: Uuid, baseline: Uuid) returns (found: bool)
      ensures found == QueryIsApproved(gate, candidate, baseline)
    {
      var left := gate.runs.Keys;
      while left != {}
        invariant left <= gate.runs.Keys
        invariant forall id :: id in gate.runs && id !in left ==> !ApprovesQuery(gate, id, candidate, baseline)
        decreases |left|
      {
        var runId :| runId in left;
        left := left - {runId};
        var run := gate.runs[runId];
        if run.status == Completed && run.mode.QueryMode? && run.candidate == candidate && run.baseline == baseline {
          if runId in gate.reviews && gate.reviews[runId] {
            return true;
          }
        }
      }
      found := false;
    }

    method RequireApprovedIngestionEvaluation(gate: Gate, candidate: Uuid, baseline: Uuid, query: Uuid) returns (found: bool)
      ensures found == (testTenant.Some? && IngestionIsApproved(gate, testTenant.value, candidate, baseline, query))
    {
      if testTenant.None? {
        return false;
      }
      var left := gate.runs.Keys;
      while left != {}
        invariant left <= gate.runs.Keys
        invariant forall id :: id in gate.runs && id !in left ==>
            !ApprovesIngestion(gate, id, testTenant.value, candidate, baseline, query)
        decreases |left|
      {
        var runId :| runId in left;
        left := left - {runId};
        var run, m := gate.runs[runId], gate.runs[runId].manifest;
        if run.status == Completed && run.mode.IngestionMode? && run.tenantId == testTenant.value
           && m.baselineIngestion == Some(baseline) && m.candidateIngestion == Some(candidate)
           && m.baselineQuery == query && m.candidateQuery == query {
          if runId in gate.reviews && gate.reviews[runId] {
            return true;
          }
        }
      }
      found := false;
    }

    method RequireCohorts(query: QueryProfile, ingestionIds: set<Uuid>, usable: set<Uuid>) returns (ok: bool)
      ensures ok == CoversAll(query, ingestionIds, profiles, usable)
    {
      var left := ingestionIds;
      while left != {}
        invariant left <= ingestionIds
        invariant CoversAll(query, ingestionIds - left, profiles, usable)
        decreases |left|
      {
        var id :| id in left;
        left := left - {id};
        if id !in profiles.ingestions || id !in usable {
          return false;
        }
        var ingestion := profiles.ingestions[id];
        if ingestion.lexical !in query.lexicals || ingestion.embedding !in query.embeddings {
          return false;
        }
      }
      ok := true;
    }

    /** Everything `activate` requires beyond the revision. */
    method CheckSwitch(gate: Gate, kind: Kind, profileId: Uuid, usable: set<Uuid>, ingestion: Option<Pointer>,
                       query: Option<Pointer>, current: Pointer) returns (fault: Option<ActivationError>)
      ensures fault == ActivationFault(gate, Reg(), testTenant, kind, profileId, usable, ingestion, query, current)
    {
      hide QueryIsApproved, IngestionIsApproved, CoversAll;
      match kind {
        case Query =>
          var approved := RequireApprovedEvaluation(gate, profileId, current.profileId);
          if !approved {
            return Some(NotApproved);
          }
          if profileId !in profiles.queries || profileId !in usable {
            return Some(ProfileUnavailable);
          }
          var ids := readyProfiles + if ingestion.Some? then {ingestion.value.profileId} else {};
          var covered := RequireCohorts(profiles.queries[profileId], ids, usable);
          return if covered then None else Some(CohortMissing);
        case Ingestion =>
          if query.None? {
            return Some(ProfileUnavailable);
          }
          var approved := RequireApprovedIngestionEvaluation(gate, profileId, current.profileId, query.value.profileId);
          if !approved {
            return Some(NotApproved);
          }
          if query.value.profileId !in profiles.queries || query.value.profileId !in usable {
            return Some(ProfileUnavailable);
          }
          var covered := RequireCohorts(profiles.queries[query.value.profileId], {profileId}, usable);
          return if covered then None else Some(CohortMissing);
      }
    }

    method Activate(gate: Gate, kind: Kind, profileId: Uuid, expected: int, reason: string, usable: set<Uuid>)
      returns (r: Result<nat, ActivationError>)
      modifies this`audit, active
      ensures match Activated(gate, old(Reg()), testTenant, kind, profileId, expected, reason, usable)
              case Err(e) => r == Err(e) && Reg() == old(Reg())
              case Ok(after) => r == Ok(expected + 1) && Reg() == after
      ensures r.Ok? <==> SwitchAllowed(gate, old(Reg()), testTenant, kind, profileId, expected, reason, usable)
      ensures r.Err? ==> SwitchRefused(gate, old(Reg()), testTenant, kind, profileId, expected, reason, usable, r.error)
      ensures r.Ok? ==>
                MovedTo(old(Reg()), Reg(), Platform, kind, old(Reg()).pointers[(Platform, kind)].profileId, profileId,
                        expected + 1)
    {
      SwitchSucceedsIff(gate, Reg(), testTenant, kind, profileId, expected, reason, usable);
      RefusalsExplain(gate, Reg(), testTenant, kind, profileId, expected, reason, usable);
      hide ActivationFault, GoodReason, SwitchAllowed, SwitchRefused, MovedTo;
      if !GoodReason(reason) {
        return Err(BadProposal);
      }
      var ingestion := active.Lock(Platform, Ingestion);
      var query := active.Lock(Platform, Query);
      var current := if kind.Ingestion? then ingestion else query;
      if current.None? || current.value.revision != expected {
        return Err(RevisionConflict);
      }
      if current.value.profileId == profileId {
        return Err(AlreadyActive);
      }
      var fault := CheckSwitch(gate, kind, profileId, usable, ingestion, query, current.value);
      if fault.Some? {
        return Err(fault.value);
      }
      active.Activate(Platform, kind, profileId, current.value.revision);
      audit := audit + [Entry(Platform, kind, Some(current.value.profileId), profileId, current.value.revision + 1)];
      r := Ok(current.value.revision + 1);
    }

    method SelectEvaluationIngestion(tenantId: Uuid, profileId: Uuid, expected: int, reason: string, usable: set<Uuid>)
      returns (r: Result<nat, ActivationError>)
      modifies this`audit, active
      ensures match Selected(old(Reg()), testTenant, tenantId, profileId, expected, reason, usable)
              case Err(e) => r == Err(e) && Reg() == old(Reg())
              case Ok(after) => r == Ok(expected + 1) && Reg() == after
      ensures r.Ok? <==> SelectionAllowed(old(Reg()), testTenant, tenantId, profileId, expected, reason, usable)
      ensures r.Err? ==> SelectionRefused(old(Reg()), testTenant, tenantId, profileId, expected, reason, usable, r.error)
      ensures r.Ok? ==> MovedTo(old(Reg()), Reg(), EvaluationOf(tenantId), Ingestion, UsedBefore(old(Reg()), tenantId),
                                profileId, expected + 1)
    {
      SelectionSucceedsIff(Reg(), testTenant, tenantId, profileId, expected, reason, usable);
      SelectionRefusalsExplain(Reg(), testTenant, tenantId, profileId, expected, reason, usable);
      hide GoodReason, SelectionAllowed, SelectionRefused, MovedTo, UsedBefore;
      var scope := EvaluationOf(tenantId);
      if testTenant != Some(tenantId) {
        return Err(OtherTenant);
      }
      if expected < 0 || !GoodReason(reason) {
        return Err(BadProposal);
      }
      if profileId !in profiles.ingestions || profileId !in usable {
        return Err(ProfileUnavailable);
      }
      var current := active.Lock(scope, Ingestion);
      var previous, revision;
      if current.None? {
        if expected != 0 {
          return Err(RevisionConflict);
        }
        var baseline := active.Lock(Platform, Ingestion);
        if baseline.None? {
          return Err(ProfileUnavailable);
        }
        var created := active.CreateEvaluationIngestion(scope, profileId);
        previous, revision := baseline.value.profileId, 1;
      } else {
        if current.value.revision != expected {
          return Err(RevisionConflict);
        }
        if current.value.profileId == profileId {
          return Err(AlreadyActive);
        }
        active.Activate(scope, Ingestion, profileId, current.value.revision);
        previous, revision := current.value.profileId, current.value.revision + 1;
      }
      audit := audit + [Entry(scope, Ingestion, Some(previous), profileId, revision)];
      r := Ok(revision);
    }
  }
}
