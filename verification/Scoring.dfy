/** Offline scoring of ranked passages and citations against labelled source spans. Ratios are reals. */
module Scoring {
  import opened Prelude
  import opened Anchors

  function Min(a: int, b: int): int {
    if a <= b then a else b
  }

  function Max(a: int, b: int): int {
    if a >= b then a else b
  }

  function Overlap(a: SourceSpan, b: SourceSpan): int {
    Max(0, Min(a.end, b.end) - Max(a.start, b.start))
  }

  /** A passage covers a label when it holds at least half of it. */
  predicate Covers(candidate: SourceSpan, gold: SourceSpan) {
    candidate.versionId == gold.versionId && candidate.page == gold.page
        && Overlap(candidate, gold) * 2 >= gold.end - gold.start
  }

  predicate CoversAny(candidate: SourceSpan, gold: seq<SourceSpan>) {
    exists g :: g in gold && Covers(candidate, g)
  }

  predicate IsCovered(target: SourceSpan, candidates: seq<SourceSpan>) {
    exists c :: c in candidates && Covers(c, target)
  }

  /** How many passages cover some label. */
  function Relevant(top: seq<SourceSpan>, gold: seq<SourceSpan>): (n: nat)
    ensures n <= |top|
  {
    if top == [] then 0
    else Relevant(top[..|top| - 1], gold) + if CoversAny(top[|top| - 1], gold) then 1 else 0
  }

  /** How many labels some passage covers. */
  function Covered(top: seq<SourceSpan>, gold: seq<SourceSpan>): (n: nat)
    ensures n <= |gold|
  {
    if gold == [] then 0
    else Covered(top, gold[..|gold| - 1]) + if IsCovered(gold[|gold| - 1], top) then 1 else 0
  }

  // ---------------------------------------------------------------- metrics

  datatype ScoredMetric = ScoredMetric(
    name: string, stage: string, k: Option<nat>, numerator: nat, denominator: nat, value: real, cohort: Option<Uuid>)

  function Ratio(numerator: nat, denominator: nat): (value: real)
    requires denominator >= 1
    ensures IsQuotient(value, numerator, denominator)
  {
    numerator as real / denominator as real
  }

  /** `value` is `numerator / denominator`. */
  ghost predicate IsQuotient(value: real, numerator: nat, denominator: nat) {
    value * (denominator as real) == numerator as real
  }

  function Metric(name: string, stage: string, k: Option<nat>, numerator: nat, denominator: nat,
                  cohort: Option<Uuid>): ScoredMetric
    requires denominator >= 1
  {
    ScoredMetric(name, stage, k, numerator, denominator, Ratio(numerator, denominator), cohort)
  }

  function Precision(ranked: seq<SourceSpan>, gold: seq<SourceSpan>, k: nat, stage: string, cohort: Option<Uuid>): ScoredMetric
    requires k >= 1
  {
    Metric("precision", stage, Some(k), Relevant(Take(ranked, k), gold), k, cohort)
  }

  function Recall(ranked: seq<SourceSpan>, gold: seq<SourceSpan>, k: nat, stage: string, cohort: Option<Uuid>): ScoredMetric
    requires gold != []
  {
    Metric("recall", stage, Some(k), Covered(Take(ranked, k), gold), |gold|, cohort)
  }

  predicate GoodKs(ks: seq<int>) {
    (forall i :: 0 <= i < |ks| ==> ks[i] >= 1) && Distinct(ks)
  }

  /** The rows of one ranking, K by K. */
  function RetrievalRows(ranked: seq<SourceSpan>, gold: seq<SourceSpan>, ks: seq<int>, stage: string, complete: bool,
                         cohort: Option<Uuid>): seq<ScoredMetric>
    requires gold != [] && forall i :: 0 <= i < |ks| ==> ks[i] >= 1
  {
    if ks == [] then []
    else
      var k := ks[|ks| - 1];
      RetrievalRows(ranked, gold, ks[..|ks| - 1], stage, complete, cohort)
      + [Precision(ranked, gold, k, stage, cohort)]
      + if complete then [Recall(ranked, gold, k, stage, cohort)] else []
  }

  datatype ScoringError = BadKValues | BadAnchor

  method RetrievalMetrics(ranked: seq<SourceSpan>, gold: seq<SourceSpan>, ks: seq<int>, stage: string, complete: bool,
                          cohort: Option<Uuid>) returns (r: Result<seq<ScoredMetric>, ScoringError>)
    ensures gold == [] ==> r == Ok([])
    ensures gold != [] && !GoodKs(ks) ==> r == Err(BadKValues)
    ensures gold != [] && GoodKs(ks) ==> r == Ok(RetrievalRows(ranked, gold, ks, stage, complete, cohort))
    ensures gold != [] && r.Ok? ==>
              Measured(r.value, stage, cohort, ranked, gold, ks, complete) && AllOfRanking(r.value, stage, cohort, ks, complete)
  {
    hide Measured, AllOfRanking;
    if gold == [] {
      return Ok([]);
    }
    if !GoodKs(ks) {
      return Err(BadKValues);
    }
    var rows: seq<ScoredMetric> := [];
    for i := 0 to |ks|
      invariant rows == RetrievalRows(ranked, gold, ks[..i], stage, complete, cohort)
    {
      assert ks[..i + 1][..i] == ks[..i];
      rows := rows + [Precision(ranked, gold, ks[i], stage, cohort)];
      if complete {
        rows := rows + [Recall(ranked, gold, ks[i], stage, cohort)];
      }
    }
    assert ks[..|ks|] == ks;
    RetrievalRowsMeasure(ranked, gold, ks, stage, complete, cohort);
    r := Ok(rows);
  }

  /** A citation counts once however often it is repeated; without citations there is no precision. */
  function CitationRows(citations: seq<SourceSpan>, gold: seq<SourceSpan>, complete: bool): seq<ScoredMetric> {
    if gold == [] then []
    else
      var distinct := Dedup(citations);
      (if distinct != [] then [Metric("citation_precision", "citation", None, Relevant(distinct, gold), |distinct|,
          None)] else [])
      + if complete then [Metric("citation_recall", "citation", None, Covered(distinct, gold), |gold|, None)] else []
  }

  // ---------------------------------------------------------------- one case

  /** One ranking to score: the combined one of a stage, or the one of a single cohort. */
  datatype Ranking = Ranking(stage: string, cohort: Option<Uuid>, anchors: seq<string>)

  datatype CaseResult = CaseResult(
    lexical: seq<string>, vector: seq<string>, fused: seq<string>, reranked: seq<string>,
    lexicalCohorts: seq<(Uuid, seq<string>)>, vectorCohorts: seq<(Uuid, seq<string>)>,
    citations: seq<string>, answered: bool)

  datatype LabelledCase = LabelledCase(passages: seq<string>, complete: bool, answerable: bool)

  function CohortRankings(stage: string, cohorts: seq<(Uuid, seq<string>)>): (rankings: seq<Ranking>)
    ensures |rankings| == |cohorts|
    ensures forall i :: 0 <= i < |cohorts| ==> rankings[i] == Ranking(stage, Some(cohorts[i].0), cohorts[i].1)
  {
    seq(|cohorts|, i requires 0 <= i < |cohorts| => Ranking(stage, Some(cohorts[i].0), cohorts[i].1))
  }

  function StageRankings(result: CaseResult): seq<Ranking> {
    [Ranking("lexical", None, result.lexical), Ranking("vector", None, result.vector),
     Ranking("fused", None, result.fused), Ranking("reranked", None, result.reranked)]
  }

  function Rankings(result: CaseResult): seq<Ranking> {
    StageRankings(result) + CohortRankings("lexical", result.lexicalCohorts) + CohortRankings("vector", result.vectorCohorts)
  }

  predicate Readable(rankings: seq<Ranking>) {
    forall i :: 0 <= i < |rankings| ==> ParseAll(rankings[i].anchors).Some?
  }

  /** The rows of all rankings, in order. */
  function RankingRows(rankings: seq<Ranking>, gold: seq<SourceSpan>, ks: seq<int>, complete: bool): seq<ScoredMetric>
    requires Readable(rankings) && (gold == [] || GoodKs(ks))
  {
    if rankings == [] || gold == [] then []
    else
      var last := rankings[|rankings| - 1];
      RankingRows(rankings[..|rankings| - 1], gold, ks, complete)
      + RetrievalRows(ParseAll(last.anchors).value, gold, ks, last.stage, complete, last.cohort)
  }

  function AnswerRow(labelled: LabelledCase, result: CaseResult): ScoredMetric {
    var correct := result.answered == labelled.answerable;
    Metric("answerability_accuracy", "answer", None, if correct then 1 else 0, 1, None)
  }

  /** The case can be scored: every anchor parses and the K values are usable where labels need them. */
  predicate Scorable(labelled: LabelledCase, result: CaseResult, ks: seq<int>) {
    && ParseAll(labelled.passages).Some? && Readable(Rankings(result)) && ParseAll(result.citations).Some?
    && (labelled.passages == [] || GoodKs(ks))
  }

  function CaseRows(labelled: LabelledCase, result: CaseResult, ks: seq<int>): seq<ScoredMetric>
    requires Scorable(labelled, result, ks)
  {
    var gold := ParseAll(labelled.passages).value;
    RankingRows(Rankings(result), gold, ks, labelled.complete)
    + CitationRows(ParseAll(result.citations).value, gold, labelled.complete)
    + [AnswerRow(labelled, result)]
  }

  // ---------------------------------------------------------------- what the rows of a case say

  /** The positions that both spans hold. */
  ghost function SharedPositions(a: SourceSpan, b: SourceSpan): set<int> {
    set x: int | a.start <= x < a.end && Holds(b, x)
  }

  ghost predicate Holds(s: SourceSpan, x: int) {
    s.start <= x < s.end
  }

  /** The passage holds half of the label's positions, on the same page of the same version. */
  ghost predicate HoldsHalf(passage: SourceSpan, g: SourceSpan) {
    && passage.versionId == g.versionId && passage.page == g.page
    && 2 * |SharedPositions(passage, g)| >= g.end - g.start
  }

  ghost predicate HoldsSome(passage: SourceSpan, gold: seq<SourceSpan>) {
    exists g :: g in gold && HoldsHalf(passage, g)
  }

  /** How many of the first `k` passages hold half of some label. */
  ghost function RelevantAmong(ranked: seq<SourceSpan>, k: nat, gold: seq<SourceSpan>): nat {
    |set i: nat | i < |ranked| && i < k && HoldsSome(ranked[i], gold)|
  }

  ghost predicate HeldAmong(g: SourceSpan, ranked: seq<SourceSpan>, k: nat) {
    exists i :: 0 <= i < |ranked| && i < k && HoldsHalf(ranked[i], g)
  }

  /** How many labels have half of their positions in one of the first `k` passages. */
  ghost function CoveredAmong(ranked: seq<SourceSpan>, k: nat, gold: seq<SourceSpan>): nat {
    |set j: nat | j < |gold| && HeldAmong(gold[j], ranked, k)|
  }

  /** How many different cited passages hold half of some label. */
  ghost function RelevantCited(citations: seq<SourceSpan>, gold: seq<SourceSpan>): nat {
    |set c | c in citations && HoldsSome(c, gold)|
  }

  ghost predicate HasRow(rows: seq<ScoredMetric>, name: string, stage: string, k: Option<nat>, cohort: Option<Uuid>,
                         numerator: nat, denominator: nat) {
    exists m :: m in rows && m.name == name && m.stage == stage && m.k == k && m.cohort == cohort
        && m.numerator == numerator && m.denominator == denominator && IsQuotient(m.value, numerator, denominator)
  }

  /** The rows of one ranking at `k`: precision always, recall when every relevant passage is labelled. */
  ghost predicate MeasuredAt(rows: seq<ScoredMetric>, stage: string, cohort: Option<Uuid>, ranked: seq<SourceSpan>,
                             gold: seq<SourceSpan>, k: int, complete: bool) {
    && k >= 1
    && HasRow(rows, "precision", stage, Some(k), cohort, RelevantAmong(ranked, k, gold), k)
    && (complete ==> HasRow(rows, "recall", stage, Some(k), cohort, CoveredAmong(ranked, k, gold), |gold|))
  }

  ghost predicate Measured(rows: seq<ScoredMetric>, stage: string, cohort: Option<Uuid>, ranked: seq<SourceSpan>,
                           gold: seq<SourceSpan>, ks: seq<int>, complete: bool) {
    forall k :: k in ks ==> MeasuredAt(rows, stage, cohort, ranked, gold, k, complete)
  }

  /** The anchors parse, and the rows measure what they name. */
  ghost predicate StageMeasured(rows: seq<ScoredMetric>, stage: string, cohort: Option<Uuid>, anchors: seq<string>,
                                gold: seq<SourceSpan>, ks: seq<int>, complete: bool) {
    ParseAll(anchors).Some? && (gold != [] ==> Measured(rows, stage, cohort, ParseAll(anchors).value, gold, ks, complete))
  }

  ghost predicate CohortsMeasured(rows: seq<ScoredMetric>, stage: string, cohorts: seq<(Uuid, seq<string>)>,
                                  gold: seq<SourceSpan>, ks: seq<int>, complete: bool) {
    forall i :: 0 <= i < |cohorts| ==> StageMeasured(rows, stage, Some(cohorts[i].0), cohorts[i].1, gold, ks, complete)
  }

  ghost predicate CitationsMeasured(rows: seq<ScoredMetric>, citations: seq<SourceSpan>, gold: seq<SourceSpan>, complete: bool) {
    && (citations != [] ==>
          HasRow(rows, "citation_precision", "citation", None, None, RelevantCited(citations, gold), |Elements(citations)|))
    && (complete ==>
          HasRow(rows, "citation_recall", "citation", None, None, CoveredAmong(citations, |citations|, gold), |gold|))
  }

  /** Each of the four stages, each cohort of both kinds, the citations and the answer have their rows. */
  ghost predicate CaseMeasured(rows: seq<ScoredMetric>, labelled: LabelledCase, result: CaseResult, ks: seq<int>) {
    && ParseAll(labelled.passages).Some? && ParseAll(result.citations).Some?
    && var gold := ParseAll(labelled.passages).value;
    && StageMeasured(rows, "lexical", None, result.lexical, gold, ks, labelled.complete)
    && StageMeasured(rows, "vector", None, result.vector, gold, ks, labelled.complete)
    && StageMeasured(rows, "fused", None, result.fused, gold, ks, labelled.complete)
    && StageMeasured(rows, "reranked", None, result.reranked, gold, ks, labelled.complete)
    && CohortsMeasured(rows, "lexical", result.lexicalCohorts, gold, ks, labelled.complete)
    && CohortsMeasured(rows, "vector", result.vectorCohorts, gold, ks, labelled.complete)
    && (gold != [] ==> CitationsMeasured(rows, ParseAll(result.citations).value, gold, labelled.complete))
    && HasRow(rows, "answerability_accuracy", "answer", None, None, if result.answered == labelled.answerable then 1 else 0, 1)
  }

  /** A row of that ranking. */
  ghost predicate OfRanking(m: ScoredMetric, stage: string, cohort: Option<Uuid>, ks: seq<int>, complete: bool) {
    && m.stage == stage && m.cohort == cohort && m.k.Some? && m.k.value in ks
    && (m.name == "precision" || (m.name == "recall" && complete))
  }

  ghost predicate OfCitations(m: ScoredMetric, cited: bool, complete: bool) {
    && m.stage == "citation" && m.k.None? && m.cohort.None?
    && ((m.name == "citation_precision" && cited) || (m.name == "citation_recall" && complete))
  }

  ghost predicate OfAnswer(m: ScoredMetric) {
    m.name == "answerability_accuracy" && m.stage == "answer" && m.k.None? && m.cohort.None?
  }

  ghost predicate OfCohort(m: ScoredMetric, stage: string, cohorts: seq<(Uuid, seq<string>)>, ks: seq<int>, complete: bool) {
    exists i :: 0 <= i < |cohorts| && OfRanking(m, stage, Some(cohorts[i].0), ks, complete)
  }

  /** No other rows: without labels the answer row is the only one. */
  ghost predicate NothingElse(rows: seq<ScoredMetric>, labelled: LabelledCase, result: CaseResult, ks: seq<int>) {
    forall m :: m in rows ==> OfAnswer(m) || (labelled.passages != [] && OfCase(m, labelled, result, ks))
  }

  ghost predicate OfCase(m: ScoredMetric, labelled: LabelledCase, result: CaseResult, ks: seq<int>) {
    || OfRanking(m, "lexical", None, ks, labelled.complete) || OfRanking(m, "vector", None, ks, labelled.complete)
    || OfRanking(m, "fused", None, ks, labelled.complete) || OfRanking(m, "reranked", None, ks, labelled.complete)
    || OfCohort(m, "lexical", result.lexicalCohorts, ks, labelled.complete)
    || OfCohort(m, "vector", result.vectorCohorts, ks, labelled.complete)
    || OfCitations(m, result.citations != [], labelled.complete)
  }

  // ---------------------------------------------------------------- counting

  ghost function Range(a: int, b: int): set<int> {
    set x: int | a <= x < b && From(a, x)
  }

  ghost predicate From(a: int, x: int) {
    a <= x
  }

  lemma {:induction false} RangeCount(a: int, b: int)
    ensures |Range(a, b)| == Max(0, b - a)
    decreases b - a
  {
    if a < b {
      RangeCount(a, b - 1);
      assert Range(a, b) == Range(a, b - 1) + {b - 1};
    } else {
      assert Range(a, b) == {};
    }
  }

  /** Comparing end points counts the shared positions. */
  lemma CoversIsHoldsHalf(passage: SourceSpan, g: SourceSpan)
    ensures Covers(passage, g) <==> HoldsHalf(passage, g)
  {
    var a, b := Max(passage.start, g.start), Min(passage.end, g.end);
    RangeCount(a, b);
    assert SharedPositions(passage, g) == Range(a, b);
  }

  lemma CoversAnyIsHoldsSome(passage: SourceSpan, gold: seq<SourceSpan>)
    ensures CoversAny(passage, gold) <==> HoldsSome(passage, gold)
  {
    hide Covers, HoldsHalf;
    forall g ensures Covers(passage, g) <==> HoldsHalf(passage, g) {
      CoversIsHoldsHalf(passage, g);
    }
  }

  ghost function RelevantPlaces(top: seq<SourceSpan>, gold: seq<SourceSpan>): set<nat> {
    set i: nat | i < |top| && HoldsSome(top[i], gold)
  }

  lemma RelevantStep(front: seq<SourceSpan>, last: SourceSpan, gold: seq<SourceSpan>)
    ensures Relevant(front + [last], gold) == Relevant(front, gold) + if CoversAny(last, gold) then 1 else 0
  {
    assert (front + [last])[..|front|] == front;
  }

  lemma PlacesStep(front: seq<SourceSpan>, last: SourceSpan, gold: seq<SourceSpan>)
    ensures |RelevantPlaces(front + [last], gold)| == |RelevantPlaces(front, gold)| + if HoldsSome(last, gold) then 1 else 0
  {
    hide HoldsSome;
    var more := if HoldsSome(last, gold) then {|front|} else {};
    assert RelevantPlaces(front + [last], gold) == RelevantPlaces(front, gold) + more;
  }

  lemma {:induction false} RelevantIsPlaces(top: seq<SourceSpan>, gold: seq<SourceSpan>)
    ensures Relevant(top, gold) == |RelevantPlaces(top, gold)|
  {
    if top != [] {
      var front, last := top[..|top| - 1], top[|top| - 1];
      hide *;
      assert top == front + [last];
      RelevantIsPlaces(front, gold);
      RelevantStep(front, last, gold);
      PlacesStep(front, last, gold);
      CoversAnyIsHoldsSome(last, gold);
    } else {
      assert RelevantPlaces(top, gold) == {};
    }
  }

  lemma RelevantIsRelevantAmong(ranked: seq<SourceSpan>, k: nat, gold: seq<SourceSpan>)
    ensures Relevant(Take(ranked, k), gold) == RelevantAmong(ranked, k, gold)
  {
    var top := Take(ranked, k);
    RelevantIsPlaces(top, gold);
    hide Relevant, HoldsSome;
    assert forall i :: 0 <= i < |top| ==> top[i] == ranked[i];
    assert RelevantPlaces(top, gold) == set i: nat | i < |ranked| && i < k && HoldsSome(ranked[i], gold);
  }

  lemma IsCoveredIsHeld(g: SourceSpan, ranked: seq<SourceSpan>, k: nat)
    ensures IsCovered(g, Take(ranked, k)) <==> HeldAmong(g, ranked, k)
  {
    var top := Take(ranked, k);
    hide Covers, HoldsHalf;
    forall c ensures Covers(c, g) <==> HoldsHalf(c, g) {
      CoversIsHoldsHalf(c, g);
    }
    if c :| c in top && Covers(c, g) {
      var i :| 0 <= i < |top| && top[i] == c;
      assert ranked[i] == c;
    }
    if i :| 0 <= i < |ranked| && i < k && HoldsHalf(ranked[i], g) {
      assert top[i] == ranked[i];
    }
  }

  lemma CoveredStep(top: seq<SourceSpan>, front: seq<SourceSpan>, last: SourceSpan)
    ensures Covered(top, front + [last]) == Covered(top, front) + if IsCovered(last, top) then 1 else 0
  {
    assert (front + [last])[..|front|] == front;
  }

  ghost function HeldPlaces(ranked: seq<SourceSpan>, k: nat, gold: seq<SourceSpan>): set<nat> {
    set j: nat | j < |gold| && HeldAmong(gold[j], ranked, k)
  }

  lemma HeldStep(ranked: seq<SourceSpan>, k: nat, front: seq<SourceSpan>, last: SourceSpan)
    ensures |HeldPlaces(ranked, k, front + [last])| == |HeldPlaces(ranked, k, front)| + if HeldAmong(last, ranked, k) then 1 else 0
  {
    hide HeldAmong;
    var more := if HeldAmong(last, ranked, k) then {|front|} else {};
    assert HeldPlaces(ranked, k, front + [last]) == HeldPlaces(ranked, k, front) + more;
  }

  lemma {:induction false} CoveredIsPlaces(ranked: seq<SourceSpan>, k: nat, gold: seq<SourceSpan>)
    ensures Covered(Take(ranked, k), gold) == |HeldPlaces(ranked, k, gold)|
  {
    if gold != [] {
      var front, last := gold[..|gold| - 1], gold[|gold| - 1];
      hide *;
      assert gold == front + [last];
      CoveredIsPlaces(ranked, k, front);
      CoveredStep(Take(ranked, k), front, last);
      HeldStep(ranked, k, front, last);
      IsCoveredIsHeld(last, ranked, k);
    } else {
      assert HeldPlaces(ranked, k, gold) == {};
    }
  }

  lemma CoveredIsCoveredAmong(ranked: seq<SourceSpan>, k: nat, gold: seq<SourceSpan>)
    ensures Covered(Take(ranked, k), gold) == CoveredAmong(ranked, k, gold)
  {
    CoveredIsPlaces(ranked, k, gold);
  }

  function RelevantSet(citations: seq<SourceSpan>, gold: seq<SourceSpan>): set<SourceSpan> {
    set c | c in citations && CoversAny(c, gold)
  }

  lemma RelevantSetStep(front: seq<SourceSpan>, last: SourceSpan, gold: seq<SourceSpan>)
    requires last !in front
    ensures RelevantSet(front + [last], gold)
         == if CoversAny(last, gold) then RelevantSet(front, gold) + {last} else RelevantSet(front, gold)
    ensures last !in RelevantSet(front, gold)
  {
    hide CoversAny;
  }

  lemma RelevantFromLast(top: seq<SourceSpan>, gold: seq<SourceSpan>)
    requires top != []
    ensures Relevant(top, gold) == Relevant(top[..|top| - 1], gold) + if CoversAny(top[|top| - 1], gold) then 1 else 0
  {
    hide CoversAny;
  }

  /** Without repeats, counting positions is counting passages. */
  lemma {:induction false} RelevantCounts(citations: seq<SourceSpan>, gold: seq<SourceSpan>)
    requires Distinct(citations)
    ensures Relevant(citations, gold) == |RelevantSet(citations, gold)|
  {
    if citations != [] {
      var front, last := citations[..|citations| - 1], citations[|citations| - 1];
      assert Distinct(front) && citations == front + [last] && last !in front;
      RelevantSetStep(front, last, gold);
      RelevantFromLast(citations, gold);
      hide *;
      RelevantCounts(front, gold);
    }
  }

  lemma SameRelevantSet(citations: seq<SourceSpan>, gold: seq<SourceSpan>)
    ensures |RelevantSet(Dedup(citations), gold)| == RelevantCited(citations, gold)
  {
    hide CoversAny, HoldsSome;
    forall c ensures CoversAny(c, gold) <==> HoldsSome(c, gold) {
      CoversAnyIsHoldsSome(c, gold);
    }
    assert RelevantSet(Dedup(citations), gold) == set c | c in citations && HoldsSome(c, gold);
  }

  lemma CitedCounts(citations: seq<SourceSpan>, gold: seq<SourceSpan>)
    ensures Relevant(Dedup(citations), gold) == RelevantCited(citations, gold)
    ensures |Dedup(citations)| == |Elements(citations)|
    ensures Covered(Dedup(citations), gold) == CoveredAmong(citations, |citations|, gold)
  {
    hide *;
    var distinct := Dedup(citations);
    RelevantCounts(distinct, gold);
    SameRelevantSet(citations, gold);
    DistinctCount(distinct);
    SameElements(distinct, citations);
    SameHeld(distinct, citations, gold);
    assert Take(distinct, |distinct|) == distinct;
    CoveredIsPlaces(distinct, |distinct|, gold);
    CoveredIsCoveredAmong(citations, |citations|, gold);
    CoveredIsPlaces(citations, |citations|, gold);
  }

  lemma SameElements(a: seq<SourceSpan>, b: seq<SourceSpan>)
    requires forall c :: c in a <==> c in b
    ensures Elements(a) == Elements(b)
  {
  }

  lemma SameHeld(a: seq<SourceSpan>, b: seq<SourceSpan>, gold: seq<SourceSpan>)
    requires forall c :: c in a <==> c in b
    ensures HeldPlaces(a, |a|, gold) == HeldPlaces(b, |b|, gold)
  {
    hide HoldsHalf, HeldAmong;
    forall j: nat | j < |gold| ensures HeldAmong(gold[j], a, |a|) <==> HeldAmong(gold[j], b, |b|) {
      HeldIsMember(gold[j], a);
      HeldIsMember(gold[j], b);
    }
  }

  lemma HeldIsMember(g: SourceSpan, spans: seq<SourceSpan>)
    ensures HeldAmong(g, spans, |spans|) <==> exists c :: c in spans && HoldsHalf(c, g)
  {
    hide HoldsHalf;
    if c :| c in spans && HoldsHalf(c, g) {
      var i :| 0 <= i < |spans| && spans[i] == c;
    }
  }

  // ---------------------------------------------------------------- the rows of a case measure what they name

  ghost predicate Within(rows: seq<ScoredMetric>, all: seq<ScoredMetric>) {
    forall m :: m in rows ==> m in all
  }

  lemma MetricIsARow(rows: seq<ScoredMetric>, name: string, stage: string, k: Option<nat>, n: nat, d: nat, cohort: Option<Uuid>)
    requires d >= 1 && Metric(name, stage, k, n, d, cohort) in rows
    ensures HasRow(rows, name, stage, k, cohort, n, d)
  {
    hide IsQuotient;
  }

  lemma MoreRows(rows: seq<ScoredMetric>, all: seq<ScoredMetric>, name: string, stage: string, k: Option<nat>,
                 cohort: Option<Uuid>, n: nat, d: nat)
    requires Within(rows, all) && HasRow(rows, name, stage, k, cohort, n, d)
    ensures HasRow(all, name, stage, k, cohort, n, d)
  {
    hide IsQuotient;
  }

  lemma MeasuredMore(rows: seq<ScoredMetric>, all: seq<ScoredMetric>, stage: string, cohort: Option<Uuid>,
                     ranked: seq<SourceSpan>, gold: seq<SourceSpan>, ks: seq<int>, complete: bool)
    requires Within(rows, all) && Measured(rows, stage, cohort, ranked, gold, ks, complete)
    ensures Measured(all, stage, cohort, ranked, gold, ks, complete)
  {
    hide HasRow, RelevantAmong, CoveredAmong, Within;
    forall k | k in ks ensures MeasuredAt(all, stage, cohort, ranked, gold, k, complete) {
      assert MeasuredAt(rows, stage, cohort, ranked, gold, k, complete);
      MoreRows(rows, all, "precision", stage, Some(k), cohort, RelevantAmong(ranked, k, gold), k);
      if complete {
        MoreRows(rows, all, "recall", stage, Some(k), cohort, CoveredAmong(ranked, k, gold), |gold|);
      }
    }
  }

  lemma RowsOfK(ranked: seq<SourceSpan>, gold: seq<SourceSpan>, k: nat, stage: string, complete: bool, cohort: Option<Uuid>,
                rows: seq<ScoredMetric>)
    requires k >= 1 && gold != [] && Precision(ranked, gold, k, stage, cohort) in rows
    requires complete ==> Recall(ranked, gold, k, stage, cohort) in rows
    ensures MeasuredAt(rows, stage, cohort, ranked, gold, k, complete)
  {
    hide Metric, HasRow, RelevantAmong, CoveredAmong, Relevant, Covered, Take;
    RelevantIsRelevantAmong(ranked, k, gold);
    CoveredIsCoveredAmong(ranked, k, gold);
    MetricIsARow(rows, "precision", stage, Some(k), RelevantAmong(ranked, k, gold), k, cohort);
    if complete {
      MetricIsARow(rows, "recall", stage, Some(k), CoveredAmong(ranked, k, gold), |gold|, cohort);
    }
  }

  ghost predicate AllOfRanking(rows: seq<ScoredMetric>, stage: string, cohort: Option<Uuid>, ks: seq<int>, complete: bool) {
    forall m :: m in rows ==> OfRanking(m, stage, cohort, ks, complete)
  }

  lemma {:induction false} RetrievalRowsMeasure(ranked: seq<SourceSpan>, gold: seq<SourceSpan>, ks: seq<int>, stage: string,
                                                complete: bool, cohort: Option<Uuid>)
    requires gold != [] && forall i :: 0 <= i < |ks| ==> ks[i] >= 1
    ensures var rows := RetrievalRows(ranked, gold, ks, stage, complete, cohort);
            Measured(rows, stage, cohort, ranked, gold, ks, complete) && AllOfRanking(rows, stage, cohort, ks, complete)
  {
    if ks != [] {
      var front, k := ks[..|ks| - 1], ks[|ks| - 1];
      var before := RetrievalRows(ranked, gold, front, stage, complete, cohort);
      var rows := RetrievalRows(ranked, gold, ks, stage, complete, cohort);
      var more := [Precision(ranked, gold, k, stage, cohort)] + if complete then [Recall(ranked, gold, k, stage, cohort)] else [];
      assert rows == before + more;
      hide RetrievalRows, Metric, Relevant, Covered, Take, MeasuredAt;
      RetrievalRowsMeasure(ranked, gold, front, stage, complete, cohort);
      hide Precision, Recall, Measured;
      MeasuredMore(before, rows, stage, cohort, ranked, gold, front, complete);
      assert more[0] in rows && (complete ==> more[1] in rows);
      RowsOfK(ranked, gold, k, stage, complete, cohort, rows);
      OneMoreK(rows, stage, cohort, ranked, gold, front, k, complete);
      assert ks == front + [k];
      MoreOfRanking(before, ranked, gold, front, k, stage, cohort, complete);
    }
  }

  lemma OneMoreK(rows: seq<ScoredMetric>, stage: string, cohort: Option<Uuid>, ranked: seq<SourceSpan>,
                 gold: seq<SourceSpan>, ks: seq<int>, k: int, complete: bool)
    requires Measured(rows, stage, cohort, ranked, gold, ks, complete)
    requires MeasuredAt(rows, stage, cohort, ranked, gold, k, complete)
    ensures Measured(rows, stage, cohort, ranked, gold, ks + [k], complete)
  {
    hide MeasuredAt;
  }

  lemma MoreOfRanking(before: seq<ScoredMetric>, ranked: seq<SourceSpan>, gold: seq<SourceSpan>, ks: seq<int>, k: nat,
                      stage: string, cohort: Option<Uuid>, complete: bool)
    requires k >= 1 && gold != [] && AllOfRanking(before, stage, cohort, ks, complete)
    ensures var more := [Precision(ranked, gold, k, stage, cohort)]
                        + if complete then [Recall(ranked, gold, k, stage, cohort)] else [];
            AllOfRanking(before + more, stage, cohort, ks + [k], complete)
  {
    hide Relevant, Covered, Ratio;
  }

  /** Each ranking is measured by its own rows, and every row is one of some ranking. */
  ghost predicate RankingsMeasured(rows: seq<ScoredMetric>, rankings: seq<Ranking>, gold: seq<SourceSpan>, ks: seq<int>,
                                   complete: bool) {
    forall r :: r in rankings ==> StageMeasured(rows, r.stage, r.cohort, r.anchors, gold, ks, complete)
  }

  ghost predicate OfSome(m: ScoredMetric, rankings: seq<Ranking>, ks: seq<int>, complete: bool) {
    exists r :: r in rankings && OfRanking(m, r.stage, r.cohort, ks, complete)
  }

  lemma RankingsMeasuredMore(rows: seq<ScoredMetric>, all: seq<ScoredMetric>, rankings: seq<Ranking>, gold: seq<SourceSpan>,
                             ks: seq<int>, complete: bool)
    requires Within(rows, all) && RankingsMeasured(rows, rankings, gold, ks, complete)
    ensures RankingsMeasured(all, rankings, gold, ks, complete)
  {
    hide Measured, Within;
    forall r | r in rankings ensures StageMeasured(all, r.stage, r.cohort, r.anchors, gold, ks, complete) {
      assert StageMeasured(rows, r.stage, r.cohort, r.anchors, gold, ks, complete);
      if gold != [] {
        MeasuredMore(rows, all, r.stage, r.cohort, ParseAll(r.anchors).value, gold, ks, complete);
      }
    }
  }

  lemma LastRanking(rankings: seq<Ranking>, gold: seq<SourceSpan>, ks: seq<int>, complete: bool)
    requires rankings != [] && gold != [] && Readable(rankings) && GoodKs(ks)
    ensures var front, last := rankings[..|rankings| - 1], rankings[|rankings| - 1];
            && Readable(front) && ParseAll(last.anchors).Some?
            && RankingRows(rankings, gold, ks, complete)
               == RankingRows(front, gold, ks, complete)
                  + RetrievalRows(ParseAll(last.anchors).value, gold, ks, last.stage, complete, last.cohort)
  {
    hide RetrievalRows, ParseAll;
  }

  lemma {:induction false} RankingRowsMeasure(rankings: seq<Ranking>, gold: seq<SourceSpan>, ks: seq<int>, complete: bool)
    requires gold != [] && Readable(rankings) && GoodKs(ks)
    ensures var rows := RankingRows(rankings, gold, ks, complete);
            RankingsMeasured(rows, rankings, gold, ks, complete) && forall m :: m in rows ==> OfSome(m, rankings, ks, complete)
  {
    if rankings != [] {
      var front, last := rankings[..|rankings| - 1], rankings[|rankings| - 1];
      LastRanking(rankings, gold, ks, complete);
      GoodKsAreUsable(ks);
      assert rankings == front + [last];
      hide *;
      var ranked := ParseAll(last.anchors).value;
      var before := RankingRows(front, gold, ks, complete);
      var more := RetrievalRows(ranked, gold, ks, last.stage, complete, last.cohort);
      RankingRowsMeasure(front, gold, ks, complete);
      RetrievalRowsMeasure(ranked, gold, ks, last.stage, complete, last.cohort);
      JoinsAreMeasured(before, more, front, last, gold, ks, complete);
    }
  }

  lemma GoodKsAreUsable(ks: seq<int>)
    requires GoodKs(ks)
    ensures forall i :: 0 <= i < |ks| ==> ks[i] >= 1
  {
  }

  lemma JoinsAreMeasured(before: seq<ScoredMetric>, more: seq<ScoredMetric>, front: seq<Ranking>, last: Ranking,
                         gold: seq<SourceSpan>, ks: seq<int>, complete: bool)
    requires gold != [] && ParseAll(last.anchors).Some?
    requires RankingsMeasured(before, front, gold, ks, complete)
    requires forall m :: m in before ==> OfSome(m, front, ks, complete)
    requires Measured(more, last.stage, last.cohort, ParseAll(last.anchors).value, gold, ks, complete)
    requires AllOfRanking(more, last.stage, last.cohort, ks, complete)
    ensures RankingsMeasured(before + more, front + [last], gold, ks, complete)
    ensures forall m :: m in before + more ==> OfSome(m, front + [last], ks, complete)
  {
    hide Measured, ParseAll, OfRanking;
    RankingsMeasuredMore(before, before + more, front, gold, ks, complete);
    MeasuredMore(more, before + more, last.stage, last.cohort, ParseAll(last.anchors).value, gold, ks, complete);
    forall m | m in before + more ensures OfSome(m, front + [last], ks, complete) {
      if m in before {
        var r :| r in front && OfRanking(m, r.stage, r.cohort, ks, complete);
        assert r in front + [last];
      } else {
        assert last in front + [last] && OfRanking(m, last.stage, last.cohort, ks, complete);
      }
    }
  }

  lemma CitationRowsMeasure(citations: seq<SourceSpan>, gold: seq<SourceSpan>, complete: bool)
    requires gold != []
    ensures var rows := CitationRows(citations, gold, complete);
            && CitationsMeasured(rows, citations, gold, complete)
            && forall m :: m in rows ==> OfCitations(m, citations != [], complete)
  {
    CitedCounts(citations, gold);
    hide Metric, HasRow, RelevantCited, CoveredAmong, Relevant, Covered;
    var rows := CitationRows(citations, gold, complete);
    if citations != [] {
      assert rows[0] in rows;
      MetricIsARow(rows, "citation_precision", "citation", None, RelevantCited(citations, gold), |Elements(citations)|, None);
    }
    if complete {
      assert rows[|rows| - 1] in rows;
      MetricIsARow(rows, "citation_recall", "citation", None, CoveredAmong(citations, |citations|, gold), |gold|, None);
    }
    forall m | m in rows ensures OfCitations(m, citations != [], complete) {
      OfMetric(m, citations, gold, complete);
    }
  }

  lemma OfMetric(m: ScoredMetric, citations: seq<SourceSpan>, gold: seq<SourceSpan>, complete: bool)
    requires m in CitationRows(citations, gold, complete)
    ensures OfCitations(m, citations != [], complete)
  {
    hide Relevant, Covered, Ratio;
  }

  lemma RankingsOf(result: CaseResult)
    ensures var rankings := Rankings(result);
            && Ranking("lexical", None, result.lexical) in rankings && Ranking("vector", None, result.vector) in rankings
            && Ranking("fused", None, result.fused) in rankings && Ranking("reranked", None, result.reranked) in rankings
            && (forall i :: 0 <= i < |result.lexicalCohorts| ==>
                  Ranking("lexical", Some(result.lexicalCohorts[i].0), result.lexicalCohorts[i].1) in rankings)
            && (forall i :: 0 <= i < |result.vectorCohorts| ==>
                  Ranking("vector", Some(result.vectorCohorts[i].0), result.vectorCohorts[i].1) in rankings)
  {
    var rankings := Rankings(result);
    assert rankings[0] == Ranking("lexical", None, result.lexical) && rankings[1] == Ranking("vector", None, result.vector);
    assert rankings[2] == Ranking("fused", None, result.fused) && rankings[3] == Ranking("reranked", None, result.reranked);
    forall i | 0 <= i < |result.lexicalCohorts|
      ensures Ranking("lexical", Some(result.lexicalCohorts[i].0), result.lexicalCohorts[i].1) in rankings {
      assert rankings[4 + i] == CohortRankings("lexical", result.lexicalCohorts)[i];
    }
    forall i | 0 <= i < |result.vectorCohorts|
      ensures Ranking("vector", Some(result.vectorCohorts[i].0), result.vectorCohorts[i].1) in rankings {
      assert rankings[4 + |result.lexicalCohorts| + i] == CohortRankings("vector", result.vectorCohorts)[i];
    }
  }

  /** There are no other rankings. */
  ghost predicate IsRankingOf(r: Ranking, result: CaseResult) {
    || r == Ranking("lexical", None, result.lexical) || r == Ranking("vector", None, result.vector)
    || r == Ranking("fused", None, result.fused) || r == Ranking("reranked", None, result.reranked)
    || (exists i :: 0 <= i < |result.lexicalCohorts|
          && r == Ranking("lexical", Some(result.lexicalCohorts[i].0), result.lexicalCohorts[i].1))
    || (exists i :: 0 <= i < |result.vectorCohorts|
          && r == Ranking("vector", Some(result.vectorCohorts[i].0), result.vectorCohorts[i].1))
  }

  lemma NoOtherRanking(result: CaseResult, r: Ranking)
    requires r in Rankings(result)
    ensures IsRankingOf(r, result)
  {
    var stages, lexical := StageRankings(result), CohortRankings("lexical", result.lexicalCohorts);
    var vector := CohortRankings("vector", result.vectorCohorts);
    hide StageRankings, CohortRankings;
    assert r in stages || r in lexical || r in vector;
    if r in stages {
      FourStages(result, r);
    } else if r in lexical {
      var i :| 0 <= i < |lexical| && lexical[i] == r;
    } else {
      var i :| 0 <= i < |vector| && vector[i] == r;
    }
  }

  lemma FourStages(result: CaseResult, r: Ranking)
    requires r in StageRankings(result)
    ensures IsRankingOf(r, result)
  {
  }

  lemma EachIsMeasured(rows: seq<ScoredMetric>, result: CaseResult, gold: seq<SourceSpan>, ks: seq<int>, complete: bool)
    requires RankingsMeasured(rows, Rankings(result), gold, ks, complete)
    ensures StageMeasured(rows, "lexical", None, result.lexical, gold, ks, complete)
    ensures StageMeasured(rows, "vector", None, result.vector, gold, ks, complete)
    ensures StageMeasured(rows, "fused", None, result.fused, gold, ks, complete)
    ensures StageMeasured(rows, "reranked", None, result.reranked, gold, ks, complete)
    ensures CohortsMeasured(rows, "lexical", result.lexicalCohorts, gold, ks, complete)
    ensures CohortsMeasured(rows, "vector", result.vectorCohorts, gold, ks, complete)
  {
    RankingsOf(result);
    hide Rankings, StageMeasured;
  }

  lemma EachIsOfCase(m: ScoredMetric, labelled: LabelledCase, result: CaseResult, ks: seq<int>)
    requires OfSome(m, Rankings(result), ks, labelled.complete)
    ensures OfCase(m, labelled, result, ks)
  {
    hide Rankings, OfRanking;
    var r :| r in Rankings(result) && OfRanking(m, r.stage, r.cohort, ks, labelled.complete);
    NoOtherRanking(result, r);
  }

  /** The anchors of the labels, of every ranking and of the citations parse. */
  ghost predicate AnchorsParse(labelled: LabelledCase, result: CaseResult) {
    && ParseAll(labelled.passages).Some? && ParseAll(result.citations).Some?
    && ParseAll(result.lexical).Some? && ParseAll(result.vector).Some?
    && ParseAll(result.fused).Some? && ParseAll(result.reranked).Some?
    && (forall i :: 0 <= i < |result.lexicalCohorts| ==> ParseAll(result.lexicalCohorts[i].1).Some?)
    && (forall i :: 0 <= i < |result.vectorCohorts| ==> ParseAll(result.vectorCohorts[i].1).Some?)
  }

  lemma ReadableIffAnchorsParse(labelled: LabelledCase, result: CaseResult)
    ensures ParseAll(labelled.passages).Some? && Readable(Rankings(result)) && ParseAll(result.citations).Some?
        <==> AnchorsParse(labelled, result)
  {
    var rankings := Rankings(result);
    RankingsOf(result);
    hide Rankings, ParseAll;
    if Readable(rankings) {
      forall r | r in rankings ensures ParseAll(r.anchors).Some? {
        var i :| 0 <= i < |rankings| && rankings[i] == r;
      }
    }
    if AnchorsParse(labelled, result) {
      forall i | 0 <= i < |rankings| ensures ParseAll(rankings[i].anchors).Some? {
        NoOtherRanking(result, rankings[i]);
      }
    }
  }

  lemma StagesUnlabelled(rows: seq<ScoredMetric>, labelled: LabelledCase, result: CaseResult, ks: seq<int>)
    requires AnchorsParse(labelled, result) && ParseAll(labelled.passages).value == []
    ensures RankingsMeasured(rows, Rankings(result), [], ks, labelled.complete)
  {
    ReadableIffAnchorsParse(labelled, result);
    var rankings := Rankings(result);
    hide Rankings, ParseAll, AnchorsParse;
    forall r | r in rankings ensures ParseAll(r.anchors).Some? {
      var i :| 0 <= i < |rankings| && rankings[i] == r;
    }
  }

  lemma AnswerRowMeasures(labelled: LabelledCase, result: CaseResult, rows: seq<ScoredMetric>)
    requires AnswerRow(labelled, result) in rows
    ensures HasRow(rows, "answerability_accuracy", "answer", None, None, if result.answered == labelled.answerable then 1 else 0, 1)
    ensures OfAnswer(AnswerRow(labelled, result))
  {
    var n := if result.answered == labelled.answerable then 1 else 0;
    MetricIsARow(rows, "answerability_accuracy", "answer", None, n, 1, None);
  }

  lemma CitationsMeasuredMore(rows: seq<ScoredMetric>, all: seq<ScoredMetric>, citations: seq<SourceSpan>,
                              gold: seq<SourceSpan>, complete: bool)
    requires Within(rows, all) && CitationsMeasured(rows, citations, gold, complete)
    ensures CitationsMeasured(all, citations, gold, complete)
  {
    hide HasRow, RelevantCited, CoveredAmong, Within;
    if citations != [] {
      MoreRows(rows, all, "citation_precision", "citation", None, None, RelevantCited(citations, gold), |Elements(citations)|);
    }
    if complete {
      MoreRows(rows, all, "citation_recall", "citation", None, None, CoveredAmong(citations, |citations|, gold), |gold|);
    }
  }

  /** The rows computed for a case are those of its rankings, its citations and its answer, and measure them. */
  lemma CaseRowsMeasure(labelled: LabelledCase, result: CaseResult, ks: seq<int>)
    requires Scorable(labelled, result, ks)
    ensures CaseMeasured(CaseRows(labelled, result, ks), labelled, result, ks)
    ensures NothingElse(CaseRows(labelled, result, ks), labelled, result, ks)
  {
    var gold, citations := ParseAll(labelled.passages).value, ParseAll(result.citations).value;
    var ranked, cited := RankingRows(Rankings(result), gold, ks, labelled.complete), CitationRows(citations, gold, labelled.complete);
    var rows := CaseRows(labelled, result, ks);
    assert rows == ranked + cited + [AnswerRow(labelled, result)];
    assert gold == [] ==> ranked == [] && cited == [];
    ReadableIffAnchorsParse(labelled, result);
    if gold != [] {
      RankingRowsMeasure(Rankings(result), gold, ks, labelled.complete);
      CitationRowsMeasure(citations, gold, labelled.complete);
    }
    hide *;
    ParsedLength(labelled.passages);
    ParsedLength(result.citations);
    CaseRowsJoin(rows, ranked, cited, labelled, result, ks);
  }

  lemma ParsedLength(anchors: seq<string>)
    requires ParseAll(anchors).Some?
    ensures ParseAll(anchors).value == [] <==> anchors == []
  {
  }

  lemma CaseRowsJoin(rows: seq<ScoredMetric>, ranked: seq<ScoredMetric>, cited: seq<ScoredMetric>, labelled: LabelledCase,
                     result: CaseResult, ks: seq<int>)
    requires AnchorsParse(labelled, result) && rows == ranked + cited + [AnswerRow(labelled, result)]
    requires ParseAll(labelled.passages).Some? && ParseAll(labelled.passages).value == [] <==> labelled.passages == []
    requires ParseAll(result.citations).Some? && ParseAll(result.citations).value == [] <==> result.citations == []
    requires labelled.passages == [] ==> ranked == [] && cited == []
    requires labelled.passages != [] ==>
               && RankingsMeasured(ranked, Rankings(result), ParseAll(labelled.passages).value, ks, labelled.complete)
               && CitationsMeasured(cited, ParseAll(result.citations).value, ParseAll(labelled.passages).value, labelled.complete)
               && (forall m :: m in ranked ==> OfSome(m, Rankings(result), ks, labelled.complete))
               && (forall m :: m in cited ==> OfCitations(m, result.citations != [], labelled.complete))
    ensures CaseMeasured(rows, labelled, result, ks) && NothingElse(rows, labelled, result, ks)
  {
    var gold, citations := ParseAll(labelled.passages).value, ParseAll(result.citations).value;
    assert AnswerRow(labelled, result) in rows && Within(ranked, rows) && Within(cited, rows);
    AnswerRowMeasures(labelled, result, rows);
    hide AnswerRow, HasRow, RankingsMeasured, StageMeasured, CohortsMeasured, CitationsMeasured, Rankings, OfSome, OfCitations,
        OfAnswer, ParseAll, Within, AnchorsParse;
    if gold != [] {
      RankingsMeasuredMore(ranked, rows, Rankings(result), gold, ks, labelled.complete);
      CitationsMeasuredMore(cited, rows, citations, gold, labelled.complete);
    } else {
      StagesUnlabelled(rows, labelled, result, ks);
    }
    EachIsMeasured(rows, result, gold, ks, labelled.complete);
    forall m | m in rows ensures OfAnswer(m) || (labelled.passages != [] && OfCase(m, labelled, result, ks)) {
      if m in ranked {
        EachIsOfCase(m, labelled, result, ks);
      }
    }
  }

  lemma ScorableIff(labelled: LabelledCase, result: CaseResult, ks: seq<int>)
    ensures Scorable(labelled, result, ks)
        <==> AnchorsParse(labelled, result)
             && (labelled.passages == [] || (Distinct(ks) && forall k :: k in ks ==> k >= 1))
  {
    ReadableIffAnchorsParse(labelled, result);
    GoodKsIff(ks);
    hide Rankings, ParseAll, AnchorsParse, Readable, Distinct, GoodKs;
  }

  lemma GoodKsIff(ks: seq<int>)
    ensures GoodKs(ks) <==> Distinct(ks) && forall k :: k in ks ==> k >= 1
  {
    hide Distinct;
    assert forall i :: 0 <= i < |ks| ==> ks[i] in ks;
  }

  method ScoreCase(labelled: LabelledCase, result: CaseResult, ks: seq<int>)
    returns (r: Result<seq<ScoredMetric>, ScoringError>)
    ensures r.Ok? <==> Scorable(labelled, result, ks)
    ensures r.Ok? ==> r.value == CaseRows(labelled, result, ks)
    ensures r.Ok? <==> AnchorsParse(labelled, result)
                       && (labelled.passages == [] || (Distinct(ks) && forall k :: k in ks ==> k >= 1))
    ensures r.Ok? ==> CaseMeasured(r.value, labelled, result, ks) && NothingElse(r.value, labelled, result, ks)
    ensures r.Err? && (labelled.passages == [] || (Distinct(ks) && forall k :: k in ks ==> k >= 1)) ==> r.error == BadAnchor
    ensures r.Err? && AnchorsParse(labelled, result) ==> r.error == BadKValues
  {
    ScorableIff(labelled, result, ks);
    ReadableIffAnchorsParse(labelled, result);
    GoodKsIff(ks);
    hide RetrievalRows, GoodKs, Rankings, AnchorsParse, CaseMeasured, NothingElse, Distinct, ParseAll, CitationRows, AnswerRow,
        Measured, AllOfRanking;
    var parsed := ParseAll(labelled.passages);
    if parsed.None? {
      return Err(BadAnchor);
    }
    var gold := parsed.value;
    var rankings := Rankings(result);
    var scored: seq<ScoredMetric> := [];
    for i := 0 to |rankings|
      invariant Readable(rankings[..i]) && (i == 0 || gold == [] || GoodKs(ks))
      invariant gold == [] || GoodKs(ks) ==> scored == RankingRows(rankings[..i], gold, ks, labelled.complete)
    {
      var ranked := ParseAll(rankings[i].anchors);
      if ranked.None? {
        return Err(BadAnchor);
      }
      var rows := RetrievalMetrics(ranked.value, gold, ks, rankings[i].stage, labelled.complete, rankings[i].cohort);
      if rows.Err? {
        return Err(BadKValues);
      }
      assert rankings[..i + 1][..i] == rankings[..i];
      scored := scored + rows.value;
    }
    assert rankings[..|rankings|] == rankings;
    SomeRanking(result);
    var citations := ParseAll(result.citations);
    if citations.None? {
      return Err(BadAnchor);
    }
    scored := scored + CitationRows(citations.value, gold, labelled.complete) + [AnswerRow(labelled, result)];
    CaseRowsMeasure(labelled, result, ks);
    r := Ok(scored);
  }

  lemma SomeRanking(result: CaseResult)
    ensures |Rankings(result)| >= 4
  {
  }

  // ---------------------------------------------------------------- aggregation

  datatype Key = Key(name: string, stage: string, k: Option<nat>, cohort: Option<Uuid>)

  function KeyOf(m: ScoredMetric): Key {
    Key(m.name, m.stage, m.k, m.cohort)
  }

  function Keys(metrics: seq<ScoredMetric>): (keys: seq<Key>)
    ensures |keys| == |metrics| && forall i :: 0 <= i < |metrics| ==> keys[i] == KeyOf(metrics[i])
  {
    seq(|metrics|, i requires 0 <= i < |metrics| => KeyOf(metrics[i]))
  }

  function AllMetrics(cases: seq<seq<ScoredMetric>>): seq<ScoredMetric> {
    if cases == [] then [] else AllMetrics(cases[..|cases| - 1]) + cases[|cases| - 1]
  }

  /** The metrics of one key, in order. */
  function Group(metrics: seq<ScoredMetric>, key: Key): (group: seq<ScoredMetric>)
    ensures forall m :: m in group <==> m in metrics && KeyOf(m) == key
  {
    if metrics == [] then []
    else
      var front, last := metrics[..|metrics| - 1], metrics[|metrics| - 1];
      assert metrics == front + [last];
      Group(front, key) + if KeyOf(last) == key then [last] else []
  }

  function Numerators(metrics: seq<ScoredMetric>): nat {
    if metrics == [] then 0 else Numerators(metrics[..|metrics| - 1]) + metrics[|metrics| - 1].numerator
  }

  function Denominators(metrics: seq<ScoredMetric>): nat {
    if metrics == [] then 0 else Denominators(metrics[..|metrics| - 1]) + metrics[|metrics| - 1].denominator
  }

  predicate PositiveDenominators(metrics: seq<ScoredMetric>) {
    forall m :: m in metrics ==> m.denominator >= 1
  }

  lemma {:induction false} PositiveSum(metrics: seq<ScoredMetric>)
    requires PositiveDenominators(metrics)
    ensures Denominators(metrics) >= |metrics|
  {
    if metrics != [] {
      PositiveSum(metrics[..|metrics| - 1]);
    }
  }

  /** `row` is the micro-average of `metrics` for its own key. */
  predicate Averages(row: ScoredMetric, metrics: seq<ScoredMetric>) {
    var group := Group(metrics, KeyOf(row));
    && Denominators(group) >= 1
    && row.numerator == Numerators(group) && row.denominator == Denominators(group)
    && row.value == Ratio(row.numerator, row.denominator)
  }

  method AggregateMetrics(cases: seq<seq<ScoredMetric>>) returns (rows: seq<ScoredMetric>)
    requires PositiveDenominators(AllMetrics(cases))
    ensures Keys(rows) == Dedup(Keys(AllMetrics(cases)))
    ensures forall i :: 0 <= i < |rows| ==> Averages(rows[i], AllMetrics(cases))
  {
    var order: seq<Key> := [];
    var grouped: map<Key, seq<ScoredMetric>> := map[];
    for i := 0 to |cases|
      invariant Grouped(AllMetrics(cases[..i]), order, grouped)
    {
      hide Grouped;
      assert cases[..i + 1][..i] == cases[..i];
      order, grouped := GroupCase(AllMetrics(cases[..i]), cases[i], order, grouped);
    }
    assert cases[..|cases|] == cases;
    rows := AverageGroups(AllMetrics(cases), order, grouped);
  }

  /** The ordered dictionary holds every key once, in order of first appearance, with its metrics. */
  predicate Grouped(metrics: seq<ScoredMetric>, order: seq<Key>, grouped: map<Key, seq<ScoredMetric>>) {
    && order == Dedup(Keys(metrics)) && grouped.Keys == Elements(order)
    && forall key :: key in grouped ==> grouped[key] == Group(metrics, key)
  }

  /** The inner loop: files the metrics of one case. */
  method GroupCase(ghost before: seq<ScoredMetric>, metrics: seq<ScoredMetric>, order0: seq<Key>,
                   grouped0: map<Key, seq<ScoredMetric>>) returns (order: seq<Key>, grouped: map<Key, seq<ScoredMetric>>)
    requires Grouped(before, order0, grouped0)
    ensures Grouped(before + metrics, order, grouped)
  {
    hide *;
    order, grouped := order0, grouped0;
    assert before + metrics[..0] == before;
    for j := 0 to |metrics|
      invariant Grouped(before + metrics[..j], order, grouped)
    {
      assert before + metrics[..j + 1] == before + metrics[..j] + [metrics[j]];
      order, grouped := FileMetric(before + metrics[..j], metrics[j], order, grouped);
    }
    assert metrics[..|metrics|] == metrics;
  }

  /** `grouped.setdefault(key, []).append(metric)`. */
  method FileMetric(ghost before: seq<ScoredMetric>, m: ScoredMetric, order0: seq<Key>,
                    grouped0: map<Key, seq<ScoredMetric>>) returns (order: seq<Key>, grouped: map<Key, seq<ScoredMetric>>)
    requires Grouped(before, order0, grouped0)
    ensures Grouped(before + [m], order, grouped)
  {
    var key := KeyOf(m);
    hide Grouped, KeyOf;
    order, grouped := order0, grouped0;
    if key !in grouped {
      order, grouped := order + [key], grouped[key := []];
    }
    grouped := grouped[key := grouped[key] + [m]];
    FileOne(before, m, order0, grouped0, order, grouped);
  }

  lemma OrderStep(metrics: seq<ScoredMetric>, m: ScoredMetric)
    ensures var order := Dedup(Keys(metrics));
            Dedup(Keys(metrics + [m])) == if KeyOf(m) in order then order else order + [KeyOf(m)]
  {
    assert Keys(metrics + [m]) == Keys(metrics) + [KeyOf(m)];
    assert (Keys(metrics) + [KeyOf(m)])[..|metrics|] == Keys(metrics);
  }

  lemma FileOne(metrics: seq<ScoredMetric>, m: ScoredMetric, order: seq<Key>, grouped: map<Key, seq<ScoredMetric>>,
                order': seq<Key>, grouped': map<Key, seq<ScoredMetric>>)
    requires Grouped(metrics, order, grouped)
    requires order' == if KeyOf(m) in grouped then order else order + [KeyOf(m)]
    requires grouped'.Keys == grouped.Keys + {KeyOf(m)}
    requires forall key :: key in grouped && key != KeyOf(m) ==> grouped'[key] == grouped[key]
    requires grouped'[KeyOf(m)] == (if KeyOf(m) in grouped then grouped[KeyOf(m)] else []) + [m]
    ensures Grouped(metrics + [m], order', grouped')
  {
    var key := KeyOf(m);
    KnownKeys(metrics, order, grouped, key);
    OrderStep(metrics, m);
    OneMoreElement(order, key, order');
    forall k | k in grouped' ensures grouped'[k] == Group(metrics + [m], k) {
      hide *;
      GroupStep(metrics, m, k);
      GroupOf(metrics, order, grouped, k);
    }
    hide Group, Keys, Dedup, KeyOf, Elements;
  }

  lemma OneMoreElement(order: seq<Key>, key: Key, order': seq<Key>)
    requires order' == if key in order then order else order + [key]
    ensures Elements(order') == Elements(order) + {key}
  {
  }

  lemma GroupOf(metrics: seq<ScoredMetric>, order: seq<Key>, grouped: map<Key, seq<ScoredMetric>>, key: Key)
    requires Grouped(metrics, order, grouped)
    ensures Group(metrics, key) == if key in grouped then grouped[key] else []
  {
    KnownKeys(metrics, order, grouped, key);
    hide Group, Keys;
  }

  lemma KnownKeys(metrics: seq<ScoredMetric>, order: seq<Key>, grouped: map<Key, seq<ScoredMetric>>, key: Key)
    requires Grouped(metrics, order, grouped)
    ensures key in grouped <==> key in order
    ensures key !in grouped ==> Group(metrics, key) == []
  {
    GroupPresent(metrics, key);
    hide Group, Keys;
  }

  lemma GroupStep(metrics: seq<ScoredMetric>, m: ScoredMetric, key: Key)
    ensures Group(metrics + [m], key) == if KeyOf(m) == key then Group(metrics, key) + [m] else Group(metrics, key)
  {
    assert (metrics + [m])[..|metrics|] == metrics;
  }

  lemma GroupPresent(metrics: seq<ScoredMetric>, key: Key)
    ensures key in Keys(metrics) <==> Group(metrics, key) != []
  {
    var group := Group(metrics, key);
    if group != [] {
      assert group[0] in group;
      var i :| 0 <= i < |metrics| && metrics[i] == group[0];
      assert Keys(metrics)[i] == key;
    }
    if key in Keys(metrics) {
      var i :| 0 <= i < |metrics| && Keys(metrics)[i] == key;
      assert metrics[i] in group;
    }
  }

  /** The first keys have their averages. */
  predicate Averaged(rows: seq<ScoredMetric>, order: seq<Key>, metrics: seq<ScoredMetric>) {
    |rows| <= |order| && forall j :: 0 <= j < |rows| ==> KeyOf(rows[j]) == order[j] && Averages(rows[j], metrics)
  }

  lemma OneMoreRow(rows: seq<ScoredMetric>, order: seq<Key>, metrics: seq<ScoredMetric>, row: ScoredMetric)
    requires Averaged(rows, order, metrics) && |rows| < |order| && KeyOf(row) == order[|rows|] && Averages(row, metrics)
    ensures Averaged(rows + [row], order, metrics)
  {
    hide KeyOf, Averages;
  }

  lemma AllAveraged(rows: seq<ScoredMetric>, order: seq<Key>, metrics: seq<ScoredMetric>)
    requires Averaged(rows, order, metrics) && |rows| == |order|
    ensures Keys(rows) == order && forall i :: 0 <= i < |rows| ==> Averages(rows[i], metrics)
  {
    hide KeyOf, Averages;
  }

  /** One row per group. */
  method AverageGroups(ghost metrics: seq<ScoredMetric>, order: seq<Key>, grouped: map<Key, seq<ScoredMetric>>)
    returns (rows: seq<ScoredMetric>)
    requires PositiveDenominators(metrics) && Grouped(metrics, order, grouped)
    ensures Keys(rows) == Dedup(Keys(metrics))
    ensures forall i :: 0 <= i < |rows| ==> Averages(rows[i], metrics)
  {
    assert order == Dedup(Keys(metrics));
    rows := [];
    assert Averaged(rows, order, metrics);
    hide *;
    for i := 0 to |order|
      invariant |rows| == i && Averaged(rows, order, metrics)
    {
      GroupIsPositive(metrics, order, grouped, order[i]);
      var row := AverageRow(metrics, order[i], grouped[order[i]]);
      OneMoreRow(rows, order, metrics, row);
      rows := rows + [row];
    }
    AllAveraged(rows, order, metrics);
  }

  method AverageRow(ghost metrics: seq<ScoredMetric>, key: Key, values: seq<ScoredMetric>) returns (row: ScoredMetric)
    requires values == Group(metrics, key) && values != [] && KeyOf(values[0]) == key && Denominators(values) >= 1
    ensures KeyOf(row) == key && Averages(row, metrics)
  {
    hide Group, Numerators, Denominators;
    var first := values[0];
    var numerator, denominator := Numerators(values), Denominators(values);
    row := ScoredMetric(first.name, first.stage, first.k, numerator, denominator, Ratio(numerator, denominator), first.cohort);
  }

  lemma GroupIsPositive(metrics: seq<ScoredMetric>, order: seq<Key>, grouped: map<Key, seq<ScoredMetric>>, key: Key)
    requires PositiveDenominators(metrics) && Grouped(metrics, order, grouped) && key in order
    ensures key in grouped && grouped[key] == Group(metrics, key) && grouped[key] != []
    ensures KeyOf(grouped[key][0]) == key && Denominators(grouped[key]) >= 1
  {
    var group := Group(metrics, key);
    GroupPresent(metrics, key);
    hide Group, Denominators;
    assert key in Keys(metrics);
    assert group[0] in group;
    PositiveSum(group);
  }
}
