/** What every run of the system keeps of the profile pointers: each platform switch is justified by
    approved evidence, the read cohorts stay complete, and the audit log explains every pointer. */
module ActivationLaws {
  import opened Prelude
  import opened PyText
  import opened Evaluation
  import opened Activation
  import opened Governance
  import opened EvaluationLaws

  // ---------------------------------------------------------------- the audit log

  /** The pointers that replaying the log gives. */
  ghost function Replay(audit: seq<Entry>): Pointers {
    if audit == [] then map[]
    else
      var last := audit[|audit| - 1];
      Replay(audit[..|audit| - 1])[(last.scope, last.kind) := Pointer(last.profileId, last.revision)]
  }

  /** A record follows the pointers before it: the next revision, linked to the profile it replaces. The
      first record of a scope has revision 1; a test tenant's starts from the platform's profile. */
  ghost predicate Follows(e: Entry, before: Pointers) {
    if (e.scope, e.kind) in before then
      var p := before[(e.scope, e.kind)];
      e.previous == Some(p.profileId) && e.revision == p.revision + 1 && e.profileId != p.profileId
    else
      && e.revision == 1
      && match e.scope
         case Platform => e.previous == None
         case EvaluationOf(_) =>
           && e.kind == Ingestion && (Platform, Ingestion) in before
           && e.previous == Some(before[(Platform, Ingestion)].profileId)
  }

  ghost predicate Chained(audit: seq<Entry>) {
    forall i :: 0 <= i < |audit| ==> Follows(audit[i], Replay(audit[..i]))
  }

  lemma ReplayStep(audit: seq<Entry>, e: Entry)
    ensures Replay(audit + [e]) == Replay(audit)[(e.scope, e.kind) := Pointer(e.profileId, e.revision)]
  {
    assert (audit + [e])[..|audit|] == audit;
  }

  lemma ChainStep(audit: seq<Entry>, e: Entry)
    requires Chained(audit) && Follows(e, Replay(audit))
    ensures Chained(audit + [e])
  {
    hide Follows, Replay;
    var longer := audit + [e];
    forall i | 0 <= i < |longer| ensures Follows(longer[i], Replay(longer[..i])) {
      if i < |audit| {
        assert longer[..i] == audit[..i];
      } else {
        assert longer[..i] == audit;
      }
    }
  }

  /** How many records of one pointer the log holds. */
  ghost function RecordsOf(audit: seq<Entry>, scope: Scope, kind: Kind): nat {
    if audit == [] then 0
    else
      var last := audit[|audit| - 1];
      RecordsOf(audit[..|audit| - 1], scope, kind) + if last.scope == scope && last.kind == kind then 1 else 0
  }

  lemma ChainFront(audit: seq<Entry>)
    requires Chained(audit) && audit != []
    ensures Chained(audit[..|audit| - 1]) && Follows(audit[|audit| - 1], Replay(audit[..|audit| - 1]))
  {
    hide Follows, Replay;
    var front := audit[..|audit| - 1];
    forall i | 0 <= i < |front| ensures Follows(front[i], Replay(front[..i])) {
      assert front[..i] == audit[..i];
    }
  }

  /** Each pointer's revision is the number of its records: revisions are 1, 2, 3, … without a gap. */
  lemma {:induction false} RevisionsAreConsecutive(audit: seq<Entry>, scope: Scope, kind: Kind)
    requires Chained(audit)
    ensures (scope, kind) in Replay(audit) <==> RecordsOf(audit, scope, kind) > 0
    ensures (scope, kind) in Replay(audit) ==> Replay(audit)[(scope, kind)].revision == RecordsOf(audit, scope, kind)
  {
    if audit != [] {
      ChainFront(audit);
      RevisionsAreConsecutive(audit[..|audit| - 1], scope, kind);
      hide Chained;
    }
  }

  // ---------------------------------------------------------------- evidence

  /** A completed run with exactly one result for every case and variant, every candidate answer rated,
      and an approval. */
  ghost predicate Evidence(gate: Gate, runId: Uuid) {
    && HasWork(gate, runId) && gate.runs[runId].status == Completed
    && Pairs(gate.runs[runId].results) == WorkOf(gate, runId)
    && (forall r :: r in gate.runs[runId].results && r.variant == Candidate ==> r.quality.Some?)
    && runId in gate.reviews && gate.reviews[runId]
  }

  /** The evidence is about exactly this switch, against the profiles active before it. */
  ghost predicate Concerns(testTenant: Option<Uuid>, gate: Gate, runId: Uuid, e: Entry, before: Pointers) {
    && (Platform, e.kind) in before && (Platform, Query) in before && runId in gate.runs
    && var run := gate.runs[runId];
       match e.kind
       case Query =>
         run.mode == QueryMode && run.baseline == before[(Platform, Query)].profileId && run.candidate == e.profileId
       case Ingestion =>
         && run.mode == IngestionMode && Some(run.tenantId) == testTenant
         && run.manifest.baselineIngestion == Some(before[(Platform, Ingestion)].profileId)
         && run.manifest.candidateIngestion == Some(e.profileId)
         && run.manifest.baselineQuery == run.manifest.candidateQuery == before[(Platform, Query)].profileId
  }

  ghost predicate JustifiedBy(testTenant: Option<Uuid>, gate: Gate, runId: Uuid, e: Entry, before: Pointers) {
    Evidence(gate, runId) && Concerns(testTenant, gate, runId, e, before)
  }

  ghost predicate Justified(testTenant: Option<Uuid>, gate: Gate, e: Entry, before: Pointers) {
    exists runId :: runId in gate.runs && JustifiedBy(testTenant, gate, runId, e, before)
  }

  ghost predicate IsSwitch(e: Entry) {
    e.scope == Platform && e.previous.Some?
  }

  ghost predicate AllJustified(testTenant: Option<Uuid>, gate: Gate, audit: seq<Entry>) {
    forall i :: 0 <= i < |audit| && IsSwitch(audit[i]) ==> Justified(testTenant, gate, audit[i], Replay(audit[..i]))
  }

  lemma ApprovalIsEvidence(s: System, runId: Uuid)
    requires GateInvariant(s) && runId in s.gate.runs && runId in s.gate.reviews && s.gate.reviews[runId]
    ensures Evidence(s.gate, runId)
  {
    assert RunInvariant(s.gate.runs[runId], s.gate.suites) && ReviewInvariant(s.gate, runId);
  }

  lemma RatedStays(before: seq<CaseResult>, after: seq<CaseResult>)
    requires ResultsKept(before, after) && forall r :: r in before && r.variant == Candidate ==> r.quality.Some?
    ensures forall r :: r in after && r.variant == Candidate ==> r.quality.Some?
  {
    forall r | r in after && r.variant == Candidate ensures r.quality.Some? {
      var i :| 0 <= i < |after| && after[i] == r;
      assert Pairs(before)[i] == Pairs(after)[i] && before[i] in before;
    }
  }

  /** Evidence is never undone. */
  lemma EvidenceStays(testTenant: Option<Uuid>, before: Gate, after: Gate, runId: Uuid, e: Entry, pointers: Pointers)
    requires GateKept(before, after) && JustifiedBy(testTenant, before, runId, e, pointers)
    ensures runId in after.runs && JustifiedBy(testTenant, after, runId, e, pointers)
  {
    hide ResultsKept, Work;
    assert RunKept(before.runs[runId], after.runs[runId]);
    RatedStays(before.runs[runId].results, after.runs[runId].results);
    PairsStay(before.runs[runId].results, after.runs[runId].results);
  }

  lemma PairsStay(before: seq<CaseResult>, after: seq<CaseResult>)
    requires ResultsKept(before, after)
    ensures Pairs(before) == Pairs(after)
  {
  }

  lemma AllStayJustified(testTenant: Option<Uuid>, before: Gate, after: Gate, audit: seq<Entry>)
    requires GateKept(before, after) && AllJustified(testTenant, before, audit)
    ensures AllJustified(testTenant, after, audit)
  {
    hide GateKept, JustifiedBy, Replay;
    forall i | 0 <= i < |audit| && IsSwitch(audit[i]) ensures Justified(testTenant, after, audit[i], Replay(audit[..i])) {
      var runId :| runId in before.runs && JustifiedBy(testTenant, before, runId, audit[i], Replay(audit[..i]));
      EvidenceStays(testTenant, before, after, runId, audit[i], Replay(audit[..i]));
    }
  }

  // ---------------------------------------------------------------- invariants

  ghost predicate Reads(reg: Registry, queryId: Uuid, ingestionId: Uuid) {
    && queryId in reg.profiles.queries && ingestionId in reg.profiles.ingestions
    && Searches(reg.profiles.queries[queryId], reg.profiles.ingestions[ingestionId])
  }

  /** The active query profile reads the active ingestion profile and every profile that had a ready
      generation at the last query switch. */
  ghost predicate Covered(s: System) {
    && (Platform, Ingestion) in s.reg.pointers && (Platform, Query) in s.reg.pointers
    && var queryId := s.reg.pointers[(Platform, Query)].profileId;
       && Reads(s.reg, queryId, s.reg.pointers[(Platform, Ingestion)].profileId)
       && forall id :: id in s.atSwitch ==> Reads(s.reg, queryId, id)
  }

  ghost predicate AuditInvariant(testTenant: Option<Uuid>, s: System) {
    Chained(s.reg.audit) && Replay(s.reg.audit) == s.reg.pointers && AllJustified(testTenant, s.gate, s.reg.audit)
  }

  ghost predicate Invariant(testTenant: Option<Uuid>, s: System) {
    GateInvariant(s) && Covered(s) && AuditInvariant(testTenant, s)
  }

  // ---------------------------------------------------------------- single steps

  lemma JustifiedStep(testTenant: Option<Uuid>, gate: Gate, audit: seq<Entry>, e: Entry)
    requires AllJustified(testTenant, gate, audit) && (IsSwitch(e) ==> Justified(testTenant, gate, e, Replay(audit)))
    ensures AllJustified(testTenant, gate, audit + [e])
  {
    hide Justified, Replay;
    var longer := audit + [e];
    forall i | 0 <= i < |longer| && IsSwitch(longer[i]) ensures Justified(testTenant, gate, longer[i], Replay(longer[..i])) {
      if i < |audit| {
        assert longer[..i] == audit[..i];
      } else {
        assert longer[..i] == audit;
      }
    }
  }

  /** Appending a record that follows and is justified, and moving its pointer, keeps the log faithful. */
  lemma SwitchKeepsAudit(testTenant: Option<Uuid>, s: System, scope: Scope, kind: Kind, previous: Uuid, profileId: Uuid,
                         revision: nat)
    requires AuditInvariant(testTenant, s)
    requires var e := Entry(scope, kind, Some(previous), profileId, revision);
             Follows(e, s.reg.pointers) && (IsSwitch(e) ==> Justified(testTenant, s.gate, e, s.reg.pointers))
    ensures AuditInvariant(testTenant, s.(reg := Switched(s.reg, scope, kind, previous, profileId, revision)))
  {
    hide Chained, Follows, AllJustified, Justified, Replay;
    var e := Entry(scope, kind, Some(previous), profileId, revision);
    ReplayStep(s.reg.audit, e);
    ChainStep(s.reg.audit, e);
    JustifiedStep(testTenant, s.gate, s.reg.audit, e);
  }

  /** A successful platform switch found its evidence. */
  lemma SwitchIsJustified(testTenant: Option<Uuid>, s: System, kind: Kind, profileId: Uuid, expected: int, reason: string,
                          usable: set<Uuid>)
    requires GateInvariant(s) && (Platform, Query) in s.reg.pointers
    requires Activated(s.gate, s.reg, testTenant, kind, profileId, expected, reason, usable).Ok?
    ensures (Platform, kind) in s.reg.pointers
    ensures var current := s.reg.pointers[(Platform, kind)];
            var e := Entry(Platform, kind, Some(current.profileId), profileId, current.revision + 1);
            && current.revision == expected && Follows(e, s.reg.pointers) && Justified(testTenant, s.gate, e, s.reg.pointers)
  {
    hide GateInvariant, GoodReason, CoversAll;
    var current := s.reg.pointers[(Platform, kind)];
    var e := Entry(Platform, kind, Some(current.profileId), profileId, current.revision + 1);
    var query := s.reg.pointers[(Platform, Query)].profileId;
    var runId :| runId in s.gate.runs &&
      (if kind.Query? then ApprovesQuery(s.gate, runId, profileId, current.profileId)
       else ApprovesIngestion(s.gate, runId, testTenant.value, profileId, current.profileId, query));
    ApprovalIsEvidence(s, runId);
    assert JustifiedBy(testTenant, s.gate, runId, e, s.reg.pointers);
  }

  lemma SelectionFollows(reg: Registry, testTenant: Option<Uuid>, tenantId: Uuid, profileId: Uuid, expected: int,
                         reason: string, usable: set<Uuid>) returns (previous: Uuid, revision: nat)
    requires Selected(reg, testTenant, tenantId, profileId, expected, reason, usable).Ok?
    ensures Selected(reg, testTenant, tenantId, profileId, expected, reason, usable).value
            == Switched(reg, EvaluationOf(tenantId), Ingestion, previous, profileId, revision)
    ensures Follows(Entry(EvaluationOf(tenantId), Ingestion, Some(previous), profileId, revision), reg.pointers)
  {
    hide GoodReason;
    var current := Get(reg.pointers, EvaluationOf(tenantId), Ingestion);
    if current.None? {
      previous, revision := reg.pointers[(Platform, Ingestion)].profileId, 1;
    } else {
      previous, revision := current.value.profileId, current.value.revision + 1;
    }
  }

  lemma SwitchKeepsCoverage(testTenant: Option<Uuid>, s: System, e: Event)
    requires Covered(s) && e.Switch?
    ensures Covered(Next(testTenant, s, e))
  {
    hide GoodReason, QueryIsApproved, IngestionIsApproved;
  }

  lemma SelectKeepsCoverage(testTenant: Option<Uuid>, s: System, e: Event)
    requires Covered(s) && e.Select?
    ensures Covered(Next(testTenant, s, e))
  {
    hide GoodReason, Searches;
  }

  lemma OtherKeepsCoverage(testTenant: Option<Uuid>, s: System, e: Event)
    requires Enabled(s, e) && Covered(s) && !e.Switch? && !e.Select?
    ensures Covered(Next(testTenant, s, e))
  {
    hide Searches, NextGate, NextRunners, Activated;
  }

  lemma StepKeepsAudit(testTenant: Option<Uuid>, s: System, e: Event)
    requires Enabled(s, e) && GateInvariant(s) && Covered(s) && AuditInvariant(testTenant, s)
    ensures AuditInvariant(testTenant, s.(reg := NextReg(testTenant, s, e)))
  {
    hide GateInvariant, Chained, Replay, AllJustified, Activated, Selected, Switched, Follows, Justified;
    match e {
      case Switch(kind, id, expected, reason, usable) =>
        if Activated(s.gate, s.reg, testTenant, kind, id, expected, reason, usable).Ok? {
          SwitchIsJustified(testTenant, s, kind, id, expected, reason, usable);
          var current := s.reg.pointers[(Platform, kind)];
          SwitchedRegistry(s.gate, s.reg, testTenant, kind, id, expected, reason, usable);
          SwitchKeepsAudit(testTenant, s, Platform, kind, current.profileId, id, current.revision + 1);
        }
      case Select(tenantId, id, expected, reason, usable) =>
        if Selected(s.reg, testTenant, tenantId, id, expected, reason, usable).Ok? {
          var previous, revision := SelectionFollows(s.reg, testTenant, tenantId, id, expected, reason, usable);
          SwitchKeepsAudit(testTenant, s, EvaluationOf(tenantId), Ingestion, previous, id, revision);
        }
      case _ =>
    }
  }

  lemma SwitchedRegistry(gate: Gate, reg: Registry, testTenant: Option<Uuid>, kind: Kind, profileId: Uuid, expected: int,
                         reason: string, usable: set<Uuid>)
    requires Activated(gate, reg, testTenant, kind, profileId, expected, reason, usable).Ok?
        && (Platform, kind) in reg.pointers
    ensures var current := reg.pointers[(Platform, kind)];
            Activated(gate, reg, testTenant, kind, profileId, expected, reason, usable).value
            == Switched(reg, Platform, kind, current.profileId, profileId, current.revision + 1)
  {
    hide GoodReason, ActivationFault;
  }

  lemma StepKeepsInvariant(testTenant: Option<Uuid>, s: System, e: Event)
    requires Enabled(s, e) && Invariant(testTenant, s)
    ensures Invariant(testTenant, Next(testTenant, s, e)) && GateKept(s.gate, Next(testTenant, s, e).gate)
  {
    var next := Next(testTenant, s, e);
    StepKeepsGate(testTenant, s, e);
    if e.Switch? {
      SwitchKeepsCoverage(testTenant, s, e);
    } else if e.Select? {
      SelectKeepsCoverage(testTenant, s, e);
    } else {
      OtherKeepsCoverage(testTenant, s, e);
    }
    StepKeepsAudit(testTenant, s, e);
    hide GateInvariant, Covered, GateKept, Enabled, NextGate, NextReg, NextRunners, Chained, Replay, AllJustified, Activated;
    AllStayJustified(testTenant, s.gate, next.gate, next.reg.audit);
  }

  // ---------------------------------------------------------------- whole runs

  lemma {:induction false} PlayKeepsInvariant(testTenant: Option<Uuid>, s: System, events: seq<Event>)
    requires Legal(testTenant, s, events) && Invariant(testTenant, s)
    ensures Invariant(testTenant, Play(testTenant, s, events))
    decreases |events|
  {
    if events != [] {
      StepKeepsInvariant(testTenant, s, events[0]);
      hide Invariant, GateKept, Next, Enabled;
      PlayKeepsInvariant(testTenant, Next(testTenant, s, events[0]), events[1..]);
    }
  }

  lemma InitialInvariant(testTenant: Option<Uuid>, ingestionId: Uuid, ingestion: IngestionProfile, queryId: Uuid,
                         query: QueryProfile)
    requires Searches(query, ingestion)
    ensures Invariant(testTenant, Initial(ingestionId, ingestion, queryId, query))
  {
    var s := Initial(ingestionId, ingestion, queryId, query);
    InitialGate(ingestionId, ingestion, queryId, query);
    hide GateInvariant;
    var first, second := s.reg.audit[0], s.reg.audit[1];
    assert s.reg.audit == [] + [first] + [second];
    ReplayStep([], first);
    ReplayStep([first], second);
    ChainStep([], first);
    ChainStep([first], second);
    JustifiedStep(testTenant, s.gate, [], first);
    JustifiedStep(testTenant, s.gate, [first], second);
    assert [] + [first] == [first];
  }

  /** Whatever happened since the seed: every platform switch in the log rests on an approved, complete,
      fully rated comparison of exactly the new profile with the profile then active, and that evidence
      still stands. */
  lemma PlatformSwitchesAreJustified(testTenant: Option<Uuid>, ingestionId: Uuid, ingestion: IngestionProfile,
                                     queryId: Uuid, query: QueryProfile, events: seq<Event>, i: nat)
    requires Searches(query, ingestion) && Legal(testTenant, Initial(ingestionId, ingestion, queryId, query), events)
    requires var s := Play(testTenant, Initial(ingestionId, ingestion, queryId, query), events);
             i < |s.reg.audit| && IsSwitch(s.reg.audit[i])
    ensures var s := Play(testTenant, Initial(ingestionId, ingestion, queryId, query), events);
            Justified(testTenant, s.gate, s.reg.audit[i], Replay(s.reg.audit[..i]))
  {
    InitialInvariant(testTenant, ingestionId, ingestion, queryId, query);
    hide Initial, Legal, Play, GateInvariant, Covered, Justified, Replay, Searches;
    PlayKeepsInvariant(testTenant, Initial(ingestionId, ingestion, queryId, query), events);
  }

  /** The active query profile never loses sight of the active ingestion profile or of an index that was
      ready when it was switched in. */
  lemma ActiveCohortsAreRead(testTenant: Option<Uuid>, ingestionId: Uuid, ingestion: IngestionProfile, queryId: Uuid,
                             query: QueryProfile, events: seq<Event>)
    requires Searches(query, ingestion) && Legal(testTenant, Initial(ingestionId, ingestion, queryId, query), events)
    ensures Covered(Play(testTenant, Initial(ingestionId, ingestion, queryId, query), events))
  {
    InitialInvariant(testTenant, ingestionId, ingestion, queryId, query);
    hide Initial, Legal, Play, GateInvariant, Covered, AuditInvariant, Searches;
    PlayKeepsInvariant(testTenant, Initial(ingestionId, ingestion, queryId, query), events);
  }

  /** Replaying the log gives exactly the current pointers, record by record linked and with consecutive
      revisions, so each pointer's revision counts its records. */
  lemma AuditExplainsPointers(testTenant: Option<Uuid>, ingestionId: Uuid, ingestion: IngestionProfile, queryId: Uuid,
                              query: QueryProfile, events: seq<Event>, scope: Scope, kind: Kind)
    requires Searches(query, ingestion) && Legal(testTenant, Initial(ingestionId, ingestion, queryId, query), events)
    ensures var reg := Play(testTenant, Initial(ingestionId, ingestion, queryId, query), events).reg;
            && Chained(reg.audit) && Replay(reg.audit) == reg.pointers
            && RecordsOf(reg.audit, scope, kind)
                 == if (scope, kind) in reg.pointers then reg.pointers[(scope, kind)].revision else 0
  {
    InitialInvariant(testTenant, ingestionId, ingestion, queryId, query);
    hide Initial, Legal, Play, GateInvariant, Covered, AllJustified, Searches, Chained, Replay, RecordsOf;
    PlayKeepsInvariant(testTenant, Initial(ingestionId, ingestion, queryId, query), events);
    var last := Play(testTenant, Initial(ingestionId, ingestion, queryId, query), events);
    RevisionsAreConsecutive(last.reg.audit, scope, kind);
  }

  // ---------------------------------------------------------------- one switch per revision

  /** The pointer exists and its revision is at least this. */
  ghost predicate AtLeast(pointers: Pointers, scope: Scope, kind: Kind, revision: nat) {
    (scope, kind) in pointers && pointers[(scope, kind)].revision >= revision
  }

  lemma RevisionsGrow(testTenant: Option<Uuid>, s: System, e: Event, scope: Scope, kind: Kind, revision: nat)
    requires Enabled(s, e) && AtLeast(s.reg.pointers, scope, kind, revision)
    ensures AtLeast(Next(testTenant, s, e).reg.pointers, scope, kind, revision)
  {
    hide NextGate, NextRunners, ActivationFault, GoodReason;
  }

  lemma {:induction false} RevisionsNeverShrink(testTenant: Option<Uuid>, s: System, events: seq<Event>, scope: Scope,
                                                kind: Kind, revision: nat)
    requires Legal(testTenant, s, events) && AtLeast(s.reg.pointers, scope, kind, revision)
    ensures AtLeast(Play(testTenant, s, events).reg.pointers, scope, kind, revision)
    decreases |events|
  {
    if events != [] {
      RevisionsGrow(testTenant, s, events[0], scope, kind, revision);
      hide AtLeast, Next, Enabled;
      RevisionsNeverShrink(testTenant, Next(testTenant, s, events[0]), events[1..], scope, kind, revision);
    }
  }

  /** The two guarded moves of a pointer: a platform switch, and a selection for the test tenant, whose
      first one also creates the row and expects revision 0. */
  ghost predicate IsMove(e: Event) {
    e.Switch? || e.Select?
  }

  ghost function ScopeOf(e: Event): Scope
    requires IsMove(e)
  {
    if e.Switch? then Platform else EvaluationOf(e.tenantId)
  }

  ghost function KindOf(e: Event): Kind
    requires IsMove(e)
  {
    if e.Switch? then e.kind else Ingestion
  }

  ghost function Outcome(testTenant: Option<Uuid>, s: System, e: Event): Result<Registry, ActivationError>
    requires IsMove(e)
  {
    if e.Switch? then Activated(s.gate, s.reg, testTenant, e.kind, e.profileId, e.expected, e.reason, e.usable)
    else Selected(s.reg, testTenant, e.tenantId, e.profileId, e.expected, e.reason, e.usable)
  }

  /** Of all moves of one pointer that expect the same revision, at most one ever succeeds: any later one
      with an acceptable reason and, for a selection, an available profile, meets a revision conflict. */
  lemma OneSwitchPerRevision(testTenant: Option<Uuid>, s: System, first: Event, events: seq<Event>, second: Event)
    requires IsMove(first) && IsMove(second)
    requires ScopeOf(first) == ScopeOf(second) && KindOf(first) == KindOf(second) && first.expected == second.expected
    requires Outcome(testTenant, s, first).Ok? && Legal(testTenant, Next(testTenant, s, first), events)
    ensures var later := Play(testTenant, Next(testTenant, s, first), events);
            Outcome(testTenant, later, second)
            == Err(if !Reasoned(second.reason) then BadProposal
                   else if second.Select? && (second.profileId !in later.reg.profiles.ingestions
                                              || second.profileId !in second.usable) then ProfileUnavailable
                   else RevisionConflict)
  {
    var later := Play(testTenant, Next(testTenant, s, first), events);
    FirstMoveSettles(testTenant, s, first);
    hide Outcome, Next, Legal, Play, AtLeast, Reasoned;
    RevisionsNeverShrink(testTenant, Next(testTenant, s, first), events, ScopeOf(first), KindOf(first), first.expected + 1);
    LaterMoveFails(testTenant, later, second);
  }

  lemma FirstMoveSettles(testTenant: Option<Uuid>, s: System, e: Event)
    requires IsMove(e) && Outcome(testTenant, s, e).Ok?
    ensures e.expected >= 0 && (e.Select? ==> testTenant == Some(e.tenantId))
    ensures AtLeast(Next(testTenant, s, e).reg.pointers, ScopeOf(e), KindOf(e), e.expected + 1)
  {
    hide ActivationFault, GoodReason;
  }

  /** Once the pointer is past the expected revision, the move fails. */
  lemma LaterMoveFails(testTenant: Option<Uuid>, s: System, e: Event)
    requires IsMove(e) && e.expected >= 0 && AtLeast(s.reg.pointers, ScopeOf(e), KindOf(e), e.expected + 1)
    requires e.Select? ==> testTenant == Some(e.tenantId)
    ensures Outcome(testTenant, s, e)
         == Err(if !Reasoned(e.reason) then BadProposal
                else if e.Select? && (e.profileId !in s.reg.profiles.ingestions || e.profileId !in e.usable)
                then ProfileUnavailable
                else RevisionConflict)
  {
    hide ActivationFault, Strip;
  }

  // ---------------------------------------------------------------- indexes that become ready later

  /** The active query profile reads every index that is ready now. */
  ghost predicate ReadyAreRead(s: System) {
    (Platform, Query) in s.reg.pointers
    && forall id :: id in s.reg.readyProfiles ==> Reads(s.reg, s.reg.pointers[(Platform, Query)].profileId, id)
  }

  ghost predicate SwitchesQuery(testTenant: Option<Uuid>, s: System, e: Event) {
    e.Switch? && e.kind.Query?
        && Activated(s.gate, s.reg, testTenant, e.kind, e.profileId, e.expected, e.reason, e.usable).Ok?
  }

  /** A query switch makes every ready index readable, whatever was the case before. */
  lemma QuerySwitchReadsAllReady(testTenant: Option<Uuid>, s: System, e: Event)
    requires SwitchesQuery(testTenant, s, e)
    ensures ReadyAreRead(Next(testTenant, s, e))
  {
    hide GoodReason, QueryIsApproved, IngestionIsApproved;
  }

  /** Afterwards one kind of event alone can hide a ready index: a generation that becomes ready under an
      ingestion profile that the active query profile does not read. */
  lemma OnlyLateGenerationsHide(testTenant: Option<Uuid>, s: System, e: Event)
    requires Enabled(s, e) && Covered(s) && ReadyAreRead(s)
    ensures ReadyAreRead(Next(testTenant, s, e))
       <==> (e.FinishGeneration? ==> Reads(s.reg, s.reg.pointers[(Platform, Query)].profileId, e.profileId))
  {
    if SwitchesQuery(testTenant, s, e) {
      QuerySwitchReadsAllReady(testTenant, s, e);
    } else if e.Switch? {
      IngestionSwitchKeepsRead(testTenant, s, e);
    } else if e.Select? {
      SelectKeepsRead(testTenant, s, e);
    } else {
      OthersKeepRead(testTenant, s, e);
    }
  }

  lemma IngestionSwitchKeepsRead(testTenant: Option<Uuid>, s: System, e: Event)
    requires Covered(s) && ReadyAreRead(s) && e.Switch? && !SwitchesQuery(testTenant, s, e)
    ensures ReadyAreRead(Next(testTenant, s, e))
  {
    hide GoodReason, Searches, ActivationFault;
  }

  lemma SelectKeepsRead(testTenant: Option<Uuid>, s: System, e: Event)
    requires ReadyAreRead(s) && e.Select?
    ensures ReadyAreRead(Next(testTenant, s, e))
  {
    hide GoodReason, Searches;
  }

  lemma OthersKeepRead(testTenant: Option<Uuid>, s: System, e: Event)
    requires Enabled(s, e) && ReadyAreRead(s) && !e.Switch? && !e.Select?
    ensures ReadyAreRead(Next(testTenant, s, e))
       <==> (e.FinishGeneration? ==> Reads(s.reg, s.reg.pointers[(Platform, Query)].profileId, e.profileId))
  {
    hide Searches, NextGate, NextRunners, Activated;
  }

  /** It does happen: a test tenant's selection is not checked against the active cohorts. */
  lemma TestUploadsCanBeUnread(tenantId: Uuid, ingestionId: Uuid, ingestion: IngestionProfile, queryId: Uuid,
                               query: QueryProfile, otherId: Uuid, other: IngestionProfile)
    requires Searches(query, ingestion) && !Searches(query, other) && otherId != ingestionId
    ensures var s := Initial(ingestionId, ingestion, queryId, query);
            var events := [AddIngestion(otherId, other), Select(tenantId, otherId, 0, "r", {otherId}),
                           Upload(EvaluationOf(tenantId)), FinishGeneration(otherId)];
            Legal(Some(tenantId), s, events) && !ReadyAreRead(Play(Some(tenantId), s, events))
  {
    var t := Some(tenantId);
    var s0 := Initial(ingestionId, ingestion, queryId, query);
    var s1 := Next(t, s0, AddIngestion(otherId, other));
    OneLetter();
    var s2 := Next(t, s1, Select(tenantId, otherId, 0, "r", {otherId}));
    assert s2.reg.pointers[(EvaluationOf(tenantId), Ingestion)] == Pointer(otherId, 1);
    var s3 := Next(t, s2, Upload(EvaluationOf(tenantId)));
    var s4 := Next(t, s3, FinishGeneration(otherId));
    PlayFour(t, s0, AddIngestion(otherId, other), Select(tenantId, otherId, 0, "r", {otherId}),
        Upload(EvaluationOf(tenantId)), FinishGeneration(otherId));
    assert !Reads(s4.reg, queryId, otherId);
  }

  lemma OneLetter()
    ensures GoodReason("r")
  {
    assert !IsSpace('r');
  }

  lemma PlayFour(t: Option<Uuid>, s: System, a: Event, b: Event, c: Event, d: Event)
    requires Enabled(s, a) && Enabled(Next(t, s, a), b) && Enabled(Next(t, Next(t, s, a), b), c)
    requires Enabled(Next(t, Next(t, Next(t, s, a), b), c), d)
    ensures Legal(t, s, [a, b, c, d])
    ensures Play(t, s, [a, b, c, d]) == Next(t, Next(t, Next(t, Next(t, s, a), b), c), d)
  {
    var s1 := Next(t, s, a);
    var s2 := Next(t, s1, b);
    var s3 := Next(t, s2, c);
    PlayFirst(t, s3, d, []);
    PlayFirst(t, s2, c, [d]);
    PlayFirst(t, s1, b, [c, d]);
    PlayFirst(t, s, a, [b, c, d]);
    hide *;
    assert [d] + [] == [d] && [c] + [d] == [c, d] && [b] + [c, d] == [b, c, d] && [a] + [b, c, d] == [a, b, c, d];
  }

  lemma PlayFirst(t: Option<Uuid>, s: System, e: Event, rest: seq<Event>)
    requires Enabled(s, e) && Legal(t, Next(t, s, e), rest)
    ensures Legal(t, s, [e] + rest) && Play(t, s, [e] + rest) == Play(t, Next(t, s, e), rest)
  {
    hide Enabled, Next;
    assert ([e] + rest)[1..] == rest;
  }

  // ---------------------------------------------------------------- sufficient evidence

  /** A switch event moves its pointer and is recorded exactly when it is allowed; otherwise nothing changes. */
  lemma SwitchMovesIffAllowed(testTenant: Option<Uuid>, s: System, e: Event)
    requires e.Switch?
    ensures var next := Next(testTenant, s, e).reg;
            if SwitchAllowed(s.gate, s.reg, testTenant, e.kind, e.profileId, e.expected, e.reason, e.usable)
            then (Platform, e.kind) in s.reg.pointers
                 && MovedTo(s.reg, next, Platform, e.kind, s.reg.pointers[(Platform, e.kind)].profileId, e.profileId,
                            e.expected + 1)
            else next == s.reg
  {
    SwitchSucceedsIff(s.gate, s.reg, testTenant, e.kind, e.profileId, e.expected, e.reason, e.usable);
    hide Activated, QuerySwitchAllowed, IngestionSwitchAllowed, MovedTo, Reasoned;
  }

  /** So does a selection for the test tenant. */
  lemma SelectMovesIffAllowed(testTenant: Option<Uuid>, s: System, e: Event)
    requires e.Select?
    ensures var next := Next(testTenant, s, e).reg;
            if SelectionAllowed(s.reg, testTenant, e.tenantId, e.profileId, e.expected, e.reason, e.usable)
            then MovedTo(s.reg, next, EvaluationOf(e.tenantId), Ingestion, UsedBefore(s.reg, e.tenantId), e.profileId,
                         e.expected + 1)
            else next == s.reg
  {
    SelectionSucceedsIff(s.reg, testTenant, e.tenantId, e.profileId, e.expected, e.reason, e.usable);
    hide Selected, Activated, MovedTo, Reasoned;
  }

  /** A completed run without a decision, every candidate answer of which is rated. */
  ghost predicate AwaitsDecision(s: System, runId: Uuid) {
    && runId in s.gate.runs && runId !in s.gate.reviews && s.gate.runs[runId].status == Completed
    && forall r :: r in s.gate.runs[runId].results && r.variant == Candidate ==> r.quality.Some?
  }

  /** It compares the active query profile with a usable candidate that reads everything ready or active. */
  ghost predicate ComparesQuery(s: System, runId: Uuid, usable: set<Uuid>) {
    && runId in s.gate.runs && (Platform, Query) in s.reg.pointers && (Platform, Ingestion) in s.reg.pointers
    && var run, profiles := s.gate.runs[runId], s.reg.profiles;
       && run.mode == QueryMode && run.baseline == s.reg.pointers[(Platform, Query)].profileId
       && run.candidate in profiles.queries && run.candidate in usable
       && SearchesIndexOf(profiles, run.candidate, s.reg.pointers[(Platform, Ingestion)].profileId, usable)
       && forall id :: id in s.reg.readyProfiles ==> SearchesIndexOf(profiles, run.candidate, id, usable)
  }

  /** It compares the active ingestion profile with a usable candidate in the test tenant, under the active
      query profile, which is usable and reads the candidate's index. */
  ghost predicate ComparesIngestion(testTenant: Option<Uuid>, s: System, runId: Uuid, candidate: Uuid, usable: set<Uuid>) {
    && runId in s.gate.runs && (Platform, Query) in s.reg.pointers && (Platform, Ingestion) in s.reg.pointers
    && var run, query := s.gate.runs[runId], s.reg.pointers[(Platform, Query)].profileId;
       && run.mode == IngestionMode && testTenant == Some(run.tenantId)
       && run.manifest.baselineIngestion == Some(s.reg.pointers[(Platform, Ingestion)].profileId)
       && run.manifest.candidateIngestion == Some(candidate) && run.manifest.baselineQuery == query
       && query in usable && SearchesIndexOf(s.reg.profiles, query, candidate, usable)
  }

  /** The evidence is also enough: approving such a comparison lets the query switch through. */
  lemma ApprovalLetsTheSwitchThrough(testTenant: Option<Uuid>, s: System, runId: Uuid, reason: string, note: string,
                                     usable: set<Uuid>)
    requires GateInvariant(s) && AwaitsDecision(s, runId) && ComparesQuery(s, runId, usable)
    requires Strip(note) != "" && |note| <= 512 && Strip(reason) != "" && |reason| <= 1000
    ensures var run, active := s.gate.runs[runId], s.reg.pointers[(Platform, Query)];
            var events := [Decide(runId, "approve", reason, runId),
                           Switch(Query, run.candidate, active.revision, note, usable)];
            && Legal(testTenant, s, events)
            && Play(testTenant, s, events).reg.pointers
                == s.reg.pointers[(Platform, Query) := Pointer(run.candidate, active.revision + 1)]
  {
    hide *;
    QueryApprovalAllows(testTenant, s, runId, note, usable);
    var run, active := s.gate.runs[runId], s.reg.pointers[(Platform, Query)];
    DecideThenSwitch(testTenant, s, runId, reason, Switch(Query, run.candidate, active.revision, note, usable));
  }

  ghost function Approving(gate: Gate, runId: Uuid): Gate {
    gate.(reviews := gate.reviews[runId := true])
  }

  lemma QueryApprovalAllows(testTenant: Option<Uuid>, s: System, runId: Uuid, note: string, usable: set<Uuid>)
    requires GateInvariant(s) && AwaitsDecision(s, runId) && ComparesQuery(s, runId, usable)
    requires Strip(note) != "" && |note| <= 512
    ensures runId in s.gate.runs && (Platform, Query) in s.reg.pointers
    ensures var run, active := s.gate.runs[runId], s.reg.pointers[(Platform, Query)];
            SwitchAllowed(Approving(s.gate, runId), s.reg, testTenant, Query, run.candidate, active.revision, note, usable)
  {
    RunsFitTheirSuite(s, runId);
    hide GateInvariant, SearchesIndexOf, Strip, OwnSources, CopiesOfSources;
    var run, active := s.gate.runs[runId], s.reg.pointers[(Platform, Query)];
    assert QueryEvidence(Approving(s.gate, runId), run.candidate, active.profileId);
  }

  /** And so it does for an ingestion switch. */
  lemma ApprovalLetsTheIngestionSwitchThrough(testTenant: Option<Uuid>, s: System, runId: Uuid, candidate: Uuid,
                                              reason: string, note: string, usable: set<Uuid>)
    requires GateInvariant(s) && AwaitsDecision(s, runId) && ComparesIngestion(testTenant, s, runId, candidate, usable)
    requires Strip(note) != "" && |note| <= 512 && Strip(reason) != "" && |reason| <= 1000
    ensures var active := s.reg.pointers[(Platform, Ingestion)];
            var events := [Decide(runId, "approve", reason, runId),
                           Switch(Ingestion, candidate, active.revision, note, usable)];
            && Legal(testTenant, s, events)
            && Play(testTenant, s, events).reg.pointers
                == s.reg.pointers[(Platform, Ingestion) := Pointer(candidate, active.revision + 1)]
  {
    hide *;
    IngestionApprovalAllows(testTenant, s, runId, candidate, note, usable);
    var active := s.reg.pointers[(Platform, Ingestion)];
    DecideThenSwitch(testTenant, s, runId, reason, Switch(Ingestion, candidate, active.revision, note, usable));
  }

  lemma IngestionApprovalAllows(testTenant: Option<Uuid>, s: System, runId: Uuid, candidate: Uuid, note: string,
                                usable: set<Uuid>)
    requires GateInvariant(s) && AwaitsDecision(s, runId) && ComparesIngestion(testTenant, s, runId, candidate, usable)
    requires Strip(note) != "" && |note| <= 512
    ensures (Platform, Ingestion) in s.reg.pointers
    ensures var active := s.reg.pointers[(Platform, Ingestion)];
            SwitchAllowed(Approving(s.gate, runId), s.reg, testTenant, Ingestion, candidate, active.revision, note, usable)
  {
    RunsFitTheirSuite(s, runId);
    hide GateInvariant, SearchesIndexOf, Strip, OwnSources, CopiesOfSources;
    var run, active := s.gate.runs[runId], s.reg.pointers[(Platform, Ingestion)];
    assert IngestionEvidence(Approving(s.gate, runId), run.tenantId, candidate, active.profileId, run.manifest.baselineQuery);
  }

  /** Approving, then a switch that the approval allows. */
  lemma DecideThenSwitch(testTenant: Option<Uuid>, s: System, runId: Uuid, reason: string, switch: Event)
    requires GateInvariant(s) && AwaitsDecision(s, runId) && Strip(reason) != "" && |reason| <= 1000 && switch.Switch?
    requires SwitchAllowed(Approving(s.gate, runId), s.reg, testTenant, switch.kind, switch.profileId, switch.expected,
                           switch.reason, switch.usable)
    ensures var events := [Decide(runId, "approve", reason, runId), switch];
            && Legal(testTenant, s, events) && switch.expected + 1 >= 1
            && Play(testTenant, s, events).reg.pointers
                == s.reg.pointers[(Platform, switch.kind) := Pointer(switch.profileId, switch.expected + 1)]
  {
    hide *;
    var decide := Decide(runId, "approve", reason, runId);
    DecideRecords(testTenant, s, runId, reason);
    var next := Next(testTenant, s, decide);
    AllowedSwitchMoves(testTenant, next, switch);
    PlayLast(testTenant, next, switch);
    PlayFirst(testTenant, s, decide, [switch]);
    assert [decide] + [switch] == [decide, switch];
  }

  lemma AllowedSwitchMoves(testTenant: Option<Uuid>, s: System, e: Event)
    requires e.Switch?
    requires SwitchAllowed(s.gate, s.reg, testTenant, e.kind, e.profileId, e.expected, e.reason, e.usable)
    ensures Enabled(s, e) && e.expected + 1 >= 1
    ensures Next(testTenant, s, e).reg.pointers
         == s.reg.pointers[(Platform, e.kind) := Pointer(e.profileId, e.expected + 1)]
  {
    SwitchMovesIffAllowed(testTenant, s, e);
    hide SwitchAllowed, Next;
  }

  lemma PlayLast(t: Option<Uuid>, s: System, e: Event)
    requires Enabled(s, e)
    ensures Legal(t, s, [e]) && Play(t, s, [e]) == Next(t, s, e)
  {
    hide Enabled, Next;
    assert Legal(t, Next(t, s, e), []);
    PlayFirst(t, s, e, []);
    assert [e] + [] == [e];
  }

  lemma DecideRecords(testTenant: Option<Uuid>, s: System, runId: Uuid, reason: string)
    requires GateInvariant(s) && AwaitsDecision(s, runId) && Strip(reason) != "" && |reason| <= 1000
    ensures var e := Decide(runId, "approve", reason, runId);
            Enabled(s, e) && Next(testTenant, s, e) == s.(gate := Approving(s.gate, runId))
  {
    hide GateInvariant, Decision, Activated;
    CompletedRunsPassTheGate(s, runId, "approve", reason);
    assert forall i :: 0 <= i < |s.gate.runs[runId].results| ==> s.gate.runs[runId].results[i] in s.gate.runs[runId].results;
  }

  // ---------------------------------------------------------------- evidence of an ingestion switch

  /** The comparison behind an ingestion switch ran on one distinct copy of every source document. */
  lemma IngestionEvidencePairsCopies(s: System, runId: Uuid)
    requires GateInvariant(s) && runId in s.gate.runs && s.gate.runs[runId].mode.IngestionMode?
    ensures s.gate.runs[runId].suiteId in s.gate.suites
    ensures var c, sources := s.gate.runs[runId].manifest.candidate, s.gate.suites[s.gate.runs[runId].suiteId].sourceIds;
            && Distinct(c.versionIds) && |c.sourceVersions| == |c.versionIds|
            && (forall v :: v in c.versionIds <==> v in KeySet(c.sourceVersions))
            && (forall v :: v in sources <==> v in Values(c.sourceVersions))
            && (forall i, j :: 0 <= i < j < |c.sourceVersions| ==> c.sourceVersions[i].1 != c.sourceVersions[j].1)
            && (forall v :: v in c.versionIds ==> v !in sources)
  {
    var run := s.gate.runs[runId];
    assert RunInvariant(run, s.gate.suites);
    CopiesAreOneToOne(run.manifest, s.gate.suites[run.suiteId]);
  }
}
