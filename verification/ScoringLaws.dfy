/** What the evaluation scores mean: bounds, behaviour as K grows, one row per key and honest averages. */
module ScoringLaws {
  import opened Prelude
  import opened Anchors
  import opened Scoring

  // ---------------------------------------------------------------- deeper rankings

  lemma {:induction false} RelevantGrows(top: seq<SourceSpan>, more: seq<SourceSpan>, gold: seq<SourceSpan>)
    requires top <= more
    ensures Relevant(top, gold) <= Relevant(more, gold)
  {
    if |top| < |more| {
      RelevantGrows(top, more[..|more| - 1], gold);
    } else {
      assert top == more;
    }
  }

  lemma {:induction false} CoveredGrows(top: seq<SourceSpan>, more: seq<SourceSpan>, gold: seq<SourceSpan>)
    requires forall c :: c in top ==> c in more
    ensures Covered(top, gold) <= Covered(more, gold)
  {
    if gold != [] {
      CoveredGrows(top, more, gold[..|gold| - 1]);
    }
  }

  /** A larger K never loses a relevant passage or a covered label, and past the end of the ranking
      nothing changes any more. */
  lemma DeeperNeverLoses(ranked: seq<SourceSpan>, gold: seq<SourceSpan>, k: nat, deeper: nat)
    requires k <= deeper
    ensures Relevant(Take(ranked, k), gold) <= Relevant(Take(ranked, deeper), gold)
    ensures Covered(Take(ranked, k), gold) <= Covered(Take(ranked, deeper), gold)
    ensures |ranked| <= k ==> Relevant(Take(ranked, k), gold) == Relevant(Take(ranked, deeper), gold)
                              && Covered(Take(ranked, k), gold) == Covered(Take(ranked, deeper), gold)
  {
    var top, more := Take(ranked, k), Take(ranked, deeper);
    RelevantGrows(top, more, gold);
    assert forall c :: c in top ==> c in more by {
      assert more[..|top|] == top;
    }
    CoveredGrows(top, more, gold);
  }

  /** Recall is complete exactly when every label is covered. */
  lemma {:induction false} FullRecall(top: seq<SourceSpan>, gold: seq<SourceSpan>)
    ensures Covered(top, gold) == |gold| <==> forall g :: g in gold ==> IsCovered(g, top)
  {
    if gold != [] {
      FullRecall(top, gold[..|gold| - 1]);
      assert gold == gold[..|gold| - 1] + [gold[|gold| - 1]];
    }
  }

  // ---------------------------------------------------------------- disjoint passages

  predicate Disjoint(a: SourceSpan, b: SourceSpan) {
    a.versionId != b.versionId || a.page != b.page || a.end <= b.start || b.end <= a.start
  }

  predicate PairwiseDisjoint(spans: seq<SourceSpan>) {
    forall i, j :: 0 <= i < j < |spans| ==> Disjoint(spans[i], spans[j])
  }

  /** Three disjoint passages cannot each hold half of one label. */
  lemma NotThreeHalves(a: SourceSpan, b: SourceSpan, c: SourceSpan, gold: SourceSpan)
    requires gold.start < gold.end && Disjoint(a, b) && Disjoint(a, c) && Disjoint(b, c)
    ensures !(Covers(a, gold) && Covers(b, gold) && Covers(c, gold))
  {
  }

  lemma RelevantLast(top: seq<SourceSpan>, gold: SourceSpan)
    requires top != []
    ensures Relevant(top, [gold]) == Relevant(top[..|top| - 1], [gold]) + if Covers(top[|top| - 1], gold) then 1 else 0
  {
    assert gold in [gold];
  }

  lemma {:induction false} FindOne(top: seq<SourceSpan>, gold: SourceSpan) returns (i: nat)
    requires Relevant(top, [gold]) >= 1
    ensures i < |top| && Covers(top[i], gold)
  {
    var n := |top| - 1;
    RelevantLast(top, gold);
    hide Covers;
    if Covers(top[n], gold) {
      i := n;
    } else {
      i := FindOne(top[..n], gold);
    }
  }

  lemma {:induction false} FindTwo(top: seq<SourceSpan>, gold: SourceSpan) returns (i: nat, j: nat)
    requires Relevant(top, [gold]) >= 2
    ensures i < j < |top| && Covers(top[i], gold) && Covers(top[j], gold)
  {
    var n := |top| - 1;
    RelevantLast(top, gold);
    hide Covers;
    if Covers(top[n], gold) {
      i := FindOne(top[..n], gold);
      j := n;
    } else {
      i, j := FindTwo(top[..n], gold);
    }
  }

  lemma {:induction false} AtMostTwo(top: seq<SourceSpan>, gold: SourceSpan)
    requires gold.start < gold.end && PairwiseDisjoint(top)
    ensures Relevant(top, [gold]) <= 2
  {
    if top != [] {
      var n := |top| - 1;
      AtMostTwo(top[..n], gold);
      RelevantLast(top, gold);
      if Relevant(top, [gold]) > 2 {
        var i, j := FindTwo(top[..n], gold);
        NotThreeHalves(top[i], top[j], top[n], gold);
      }
    }
  }

  lemma {:induction false} RelevantSplits(top: seq<SourceSpan>, gold: seq<SourceSpan>, last: SourceSpan)
    ensures Relevant(top, gold + [last]) <= Relevant(top, gold) + Relevant(top, [last])
  {
    if top != [] {
      RelevantSplits(top[..|top| - 1], gold, last);
      assert forall g :: g in gold + [last] <==> g in gold || g == last;
      assert last in [last];
    }
  }

  /** Disjoint passages: at most two relevant ones for each label, so P@K is at most twice the labels over K. */
  lemma {:induction false} DisjointRelevanceBound(top: seq<SourceSpan>, gold: seq<SourceSpan>)
    requires PairwiseDisjoint(top) && forall g :: g in gold ==> IsSpan(g)
    ensures Relevant(top, gold) <= 2 * |gold|
  {
    if gold == [] {
      NothingRelevant(top);
    } else {
      var front, last := gold[..|gold| - 1], gold[|gold| - 1];
      assert last in gold && gold == front + [last];
      DisjointRelevanceBound(top, front);
      AtMostTwo(top, last);
      RelevantSplits(top, front, last);
    }
  }

  lemma {:induction false} NothingRelevant(top: seq<SourceSpan>)
    ensures Relevant(top, []) == 0
  {
    if top != [] {
      NothingRelevant(top[..|top| - 1]);
    }
  }

  /** The bound is reached: the two halves of a label are both relevant to it. */
  lemma HalvesAreBothRelevant(gold: SourceSpan, half: nat)
    requires half >= 1 && gold.end == gold.start + 2 * half
    ensures var top := [gold.(end := gold.start + half), gold.(start := gold.start + half)];
            PairwiseDisjoint(top) && Relevant(top, [gold]) == 2
  {
    var first, second := gold.(end := gold.start + half), gold.(start := gold.start + half);
    RelevantLast([first, second], gold);
    assert [first, second][..1] == [first];
    RelevantLast([first], gold);
    assert [first][..0] == [];
  }

  // ---------------------------------------------------------------- the metrics of one case

  predicate Sound(m: ScoredMetric) {
    m.numerator <= m.denominator && m.denominator >= 1 && m.value == Ratio(m.numerator, m.denominator)
  }

  predicate AllSound(metrics: seq<ScoredMetric>) {
    forall i :: 0 <= i < |metrics| ==> Sound(metrics[i])
  }

  lemma SoundIsAFraction(m: ScoredMetric)
    requires Sound(m)
    ensures 0.0 <= m.value <= 1.0
    ensures m.value == 1.0 <==> m.numerator == m.denominator
  {
    FractionInUnit(m.numerator as real, m.denominator as real, m.value);
  }

  lemma FractionInUnit(n: real, d: real, q: real)
    requires 0.0 <= n <= d && d >= 1.0 && q == n / d
    ensures 0.0 <= q <= 1.0 && (q == 1.0 <==> n == d)
  {
    assert q * d == n;
    Scaled(q, d);
  }

  lemma Scaled(q: real, d: real)
    requires d >= 1.0
    ensures q < 0.0 ==> q * d < 0.0
    ensures q < 1.0 ==> q * d < d
    ensures q > 1.0 ==> q * d > d
  {
    if q > 1.0 {
      assert (q - 1.0) * d > 0.0;
    }
    if q < 1.0 {
      assert (1.0 - q) * d > 0.0;
    }
  }

  predicate Tagged(m: ScoredMetric, stage: string, cohort: Option<Uuid>) {
    m.stage == stage && m.cohort == cohort && m.k.Some? && m.name in {"precision", "recall"}
  }

  lemma DistinctJoin<T>(a: seq<T>, b: seq<T>)
    requires Distinct(a) && Distinct(b) && forall x :: x in a ==> x !in b
    ensures Distinct(a + b)
  {
    forall i, j | 0 <= i < j < |a + b| ensures (a + b)[i] != (a + b)[j] {
      if i < |a| <= j {
        assert (a + b)[i] in a && (a + b)[j] in b;
      }
    }
  }

  predicate KsBelow(metrics: seq<ScoredMetric>, ks: seq<int>) {
    forall i :: 0 <= i < |metrics| ==> metrics[i].k.Some? && metrics[i].k.value in ks
  }

  predicate AllTagged(metrics: seq<ScoredMetric>, stage: string, cohort: Option<Uuid>) {
    forall i :: 0 <= i < |metrics| ==> Tagged(metrics[i], stage, cohort)
  }

  lemma KeysJoin(a: seq<ScoredMetric>, b: seq<ScoredMetric>)
    ensures Keys(a + b) == Keys(a) + Keys(b)
  {
  }

  /** The rows of one K. */
  function RowsAt(ranked: seq<SourceSpan>, gold: seq<SourceSpan>, k: nat, stage: string, complete: bool,
                  cohort: Option<Uuid>): (rows: seq<ScoredMetric>)
    requires k >= 1 && gold != []
    ensures AllTagged(rows, stage, cohort) && AllSound(rows) && Distinct(Keys(rows))
    ensures forall i :: 0 <= i < |rows| ==> rows[i].k == Some(k)
  {
    [Precision(ranked, gold, k, stage, cohort)] + if complete then [Recall(ranked, gold, k, stage, cohort)] else []
  }

  /** The rows of another K join the rows of the K values before it. */
  lemma JoinTagged(before: seq<ScoredMetric>, rows: seq<ScoredMetric>, ks: seq<int>, k: nat, stage: string, cohort: Option<Uuid>)
    requires AllTagged(before, stage, cohort) && AllSound(before) && KsBelow(before, ks) && Distinct(Keys(before))
    requires AllTagged(rows, stage, cohort) && AllSound(rows) && Distinct(Keys(rows)) && k !in ks
    requires forall i :: 0 <= i < |rows| ==> rows[i].k == Some(k)
    ensures AllTagged(before + rows, stage, cohort) && AllSound(before + rows) && KsBelow(before + rows, ks + [k])
    ensures Distinct(Keys(before + rows))
  {
    hide Tagged, Sound;
    assert forall key :: key in Keys(before) ==> key.k.Some? && key.k.value in ks;
    assert forall key :: key in Keys(rows) ==> key.k == Some(k);
    KeysJoin(before, rows);
    DistinctJoin(Keys(before), Keys(rows));
    hide Distinct, Keys;
  }

  lemma LastK(ks: seq<int>)
    requires ks != [] && GoodKs(ks)
    ensures GoodKs(ks[..|ks| - 1]) && ks[|ks| - 1] >= 1 && ks[|ks| - 1] !in ks[..|ks| - 1]
  {
  }

  lemma LastRows(ranked: seq<SourceSpan>, gold: seq<SourceSpan>, ks: seq<int>, stage: string, complete: bool,
                 cohort: Option<Uuid>) returns (before: seq<ScoredMetric>, rows: seq<ScoredMetric>)
    requires gold != [] && ks != [] && GoodKs(ks) && GoodKs(ks[..|ks| - 1]) && ks[|ks| - 1] >= 1
    ensures before == RetrievalRows(ranked, gold, ks[..|ks| - 1], stage, complete, cohort)
    ensures rows == RowsAt(ranked, gold, ks[|ks| - 1], stage, complete, cohort)
    ensures RetrievalRows(ranked, gold, ks, stage, complete, cohort) == before + rows
  {
    hide Precision, Recall, AllTagged, AllSound, Keys, Distinct;
    before := RetrievalRows(ranked, gold, ks[..|ks| - 1], stage, complete, cohort);
    rows := RowsAt(ranked, gold, ks[|ks| - 1], stage, complete, cohort);
  }

  lemma {:induction false} RetrievalRowsAreDistinct(ranked: seq<SourceSpan>, gold: seq<SourceSpan>, ks: seq<int>,
                                                    stage: string, complete: bool, cohort: Option<Uuid>)
    requires gold != [] && GoodKs(ks)
    ensures var rows := RetrievalRows(ranked, gold, ks, stage, complete, cohort);
            AllTagged(rows, stage, cohort) && AllSound(rows) && KsBelow(rows, ks) && Distinct(Keys(rows))
  {
    if ks != [] {
      var front, k := ks[..|ks| - 1], ks[|ks| - 1];
      LastK(ks);
      hide *;
      var before, rows := LastRows(ranked, gold, ks, stage, complete, cohort);
      RetrievalRowsAreDistinct(ranked, gold, front, stage, complete, cohort);
      JoinTagged(before, rows, front, k, stage, cohort);
      assert ks == front + [k];
    }
  }

  function Tags(rankings: seq<Ranking>): (tags: seq<(string, Option<Uuid>)>)
    ensures |tags| == |rankings| && forall i :: 0 <= i < |rankings| ==> tags[i] == (rankings[i].stage, rankings[i].cohort)
  {
    seq(|rankings|, i requires 0 <= i < |rankings| => (rankings[i].stage, rankings[i].cohort))
  }

  /** Every row belongs to one of the rankings. */
  predicate FromTags(metrics: seq<ScoredMetric>, tags: seq<(string, Option<Uuid>)>) {
    forall i :: 0 <= i < |metrics| ==> metrics[i].k.Some? && (metrics[i].stage, metrics[i].cohort) in tags
  }

  /** The rows of another ranking join the rows of the rankings before it. */
  lemma JoinFromTags(before: seq<ScoredMetric>, rows: seq<ScoredMetric>, tags: seq<(string, Option<Uuid>)>, stage: string,
                     cohort: Option<Uuid>)
    requires AllSound(before) && FromTags(before, tags) && Distinct(Keys(before)) && (stage, cohort) !in tags
    requires AllTagged(rows, stage, cohort) && AllSound(rows) && Distinct(Keys(rows))
    ensures AllSound(before + rows) && FromTags(before + rows, tags + [(stage, cohort)]) && Distinct(Keys(before + rows))
  {
    hide Sound;
    assert forall key :: key in Keys(before) ==> (key.stage, key.cohort) in tags;
    assert forall key :: key in Keys(rows) ==> key.stage == stage && key.cohort == cohort;
    KeysJoin(before, rows);
    DistinctJoin(Keys(before), Keys(rows));
    hide Distinct, Keys;
  }

  lemma LastTag(rankings: seq<Ranking>)
    requires rankings != [] && Distinct(Tags(rankings))
    ensures var front, last := rankings[..|rankings| - 1], rankings[|rankings| - 1];
            && Tags(rankings) == Tags(front) + [(last.stage, last.cohort)]
            && Distinct(Tags(front)) && (last.stage, last.cohort) !in Tags(front)
  {
    var front, last := rankings[..|rankings| - 1], rankings[|rankings| - 1];
    assert Tags(rankings) == Tags(front) + [(last.stage, last.cohort)];
    assert Tags(rankings)[|front|] == (last.stage, last.cohort);
    assert forall i :: 0 <= i < |front| ==> Tags(rankings)[i] == Tags(front)[i];
  }

  lemma {:induction false} RankingRowsAreDistinct(rankings: seq<Ranking>, gold: seq<SourceSpan>, ks: seq<int>, complete: bool)
    requires Readable(rankings) && (gold == [] || GoodKs(ks)) && Distinct(Tags(rankings))
    ensures var rows := RankingRows(rankings, gold, ks, complete);
            AllSound(rows) && FromTags(rows, Tags(rankings)) && Distinct(Keys(rows))
  {
    if rankings != [] && gold != [] {
      var front, last := rankings[..|rankings| - 1], rankings[|rankings| - 1];
      LastTag(rankings);
      var before := RankingRows(front, gold, ks, complete);
      var rows := RetrievalRows(ParseAll(last.anchors).value, gold, ks, last.stage, complete, last.cohort);
      assert RankingRows(rankings, gold, ks, complete) == before + rows;
      assert Readable(front);
      hide *;
      RankingRowsAreDistinct(front, gold, ks, complete);
      RetrievalRowsAreDistinct(ParseAll(last.anchors).value, gold, ks, last.stage, complete, last.cohort);
      JoinFromTags(before, rows, Tags(front), last.stage, last.cohort);
    }
  }

  /** The per-cohort results are dictionaries. */
  predicate IsResult(result: CaseResult) {
    Distinct(KeysOf(result.lexicalCohorts)) && Distinct(KeysOf(result.vectorCohorts))
  }

  lemma CohortTags(stage: string, cohorts: seq<(Uuid, seq<string>)>)
    requires Distinct(KeysOf(cohorts))
    ensures var tags := Tags(CohortRankings(stage, cohorts));
            Distinct(tags) && forall t :: t in tags ==> t.0 == stage && t.1.Some?
  {
    var tags := Tags(CohortRankings(stage, cohorts));
    forall i, j | 0 <= i < j < |tags| ensures tags[i] != tags[j] {
      assert KeysOf(cohorts)[i] != KeysOf(cohorts)[j];
    }
  }

  lemma TagsJoin(a: seq<Ranking>, b: seq<Ranking>)
    ensures Tags(a + b) == Tags(a) + Tags(b)
  {
  }

  lemma RankingTagsAreDistinct(result: CaseResult)
    requires IsResult(result)
    ensures Distinct(Tags(Rankings(result)))
  {
    var stages, lexical := StageRankings(result), CohortRankings("lexical", result.lexicalCohorts);
    var vector := CohortRankings("vector", result.vectorCohorts);
    StageTags(result);
    CohortTags("lexical", result.lexicalCohorts);
    CohortTags("vector", result.vectorCohorts);
    hide Distinct, Tags, CohortRankings, StageRankings;
    TagsJoin(stages, lexical);
    TagsJoin(stages + lexical, vector);
    DistinctJoin(Tags(stages), Tags(lexical));
    assert "lexical" != "vector" by {
      assert "lexical"[0] != "vector"[0];
    }
    DistinctJoin(Tags(stages) + Tags(lexical), Tags(vector));
  }

  lemma StageTags(result: CaseResult)
    ensures var tags := Tags(StageRankings(result)); Distinct(tags) && forall t :: t in tags ==> t.1.None?
  {
    var tags := Tags(StageRankings(result));
    assert |"lexical"| == 7 && |"vector"| == 6 && |"fused"| == 5 && |"reranked"| == 8;
    assert |tags[0].0| == 7 && |tags[1].0| == 6 && |tags[2].0| == 5 && |tags[3].0| == 8;
  }

  /** Citation rows carry no K. */
  predicate IsCitationRow(m: ScoredMetric) {
    m.k.None? && m.stage == "citation" && Sound(m)
  }

  lemma CitationRowsAreDistinct(citations: seq<SourceSpan>, gold: seq<SourceSpan>, complete: bool)
    ensures var rows := CitationRows(citations, gold, complete);
            (forall m :: m in rows ==> IsCitationRow(m)) && Distinct(Keys(rows))
  {
    hide Relevant, Covered;
    assert |"citation_precision"| == 18 && |"citation_recall"| == 15;
    var rows := CitationRows(citations, gold, complete);
    forall i, j | 0 <= i < j < |rows| ensures Keys(rows)[i] != Keys(rows)[j] {
      assert |rows[0].name| == 18 && |rows[1].name| == 15;
    }
  }

  /** One case yields every key at most once, and every row is a proper fraction. */
  lemma CaseRowsAreDistinct(labelled: LabelledCase, result: CaseResult, ks: seq<int>)
    requires Scorable(labelled, result, ks) && IsResult(result)
    ensures Distinct(Keys(CaseRows(labelled, result, ks))) && AllSound(CaseRows(labelled, result, ks))
  {
    var gold := ParseAll(labelled.passages).value;
    var ranked := RankingRows(Rankings(result), gold, ks, labelled.complete);
    var cited := CitationRows(ParseAll(result.citations).value, gold, labelled.complete);
    var answer := AnswerRow(labelled, result);
    RankingTagsAreDistinct(result);
    RankingRowsAreDistinct(Rankings(result), gold, ks, labelled.complete);
    CitationRowsAreDistinct(ParseAll(result.citations).value, gold, labelled.complete);
    assert CaseRows(labelled, result, ks) == ranked + cited + [answer];
    AnswerIsSound(labelled, result);
    JoinRows(ranked, cited, answer);
  }

  lemma AnswerIsSound(labelled: LabelledCase, result: CaseResult)
    ensures var answer := AnswerRow(labelled, result); answer.k.None? && Sound(answer) && answer.stage != "citation"
  {
    assert |"answer"| == 6 && |"citation"| == 8;
  }

  lemma JoinRows(ranked: seq<ScoredMetric>, cited: seq<ScoredMetric>, answer: ScoredMetric)
    requires AllSound(ranked) && Distinct(Keys(ranked)) && forall i :: 0 <= i < |ranked| ==> ranked[i].k.Some?
    requires Distinct(Keys(cited)) && forall m :: m in cited ==> IsCitationRow(m)
    requires answer.k.None? && Sound(answer) && answer.stage != "citation"
    ensures Distinct(Keys(ranked + cited + [answer])) && AllSound(ranked + cited + [answer])
  {
    hide Sound;
    assert forall i :: 0 <= i < |cited| ==> IsCitationRow(cited[i]);
    assert forall key :: key in Keys(cited) ==> key.k.None? && key.stage == "citation";
    assert forall key :: key in Keys(ranked) ==> key.k.Some?;
    DistinctJoin(Keys(ranked), Keys(cited));
    KeysJoin(ranked, cited);
    forall key | key in Keys(ranked + cited) ensures key != KeyOf(answer) {
      assert key in Keys(ranked) || key in Keys(cited);
    }
    assert Keys([answer]) == [KeyOf(answer)];
    DistinctJoin(Keys(ranked + cited), Keys([answer]));
    KeysJoin(ranked + cited, [answer]);
  }

  lemma SameRelevance(citations: seq<SourceSpan>, repeated: seq<SourceSpan>, gold: seq<SourceSpan>)
    requires Distinct(citations) && Distinct(repeated) && forall c :: c in repeated <==> c in citations
    ensures Relevant(repeated, gold) == Relevant(citations, gold) && |repeated| == |citations|
  {
    DistinctCount(citations);
    DistinctCount(repeated);
    assert Elements(repeated) == Elements(citations);
    hide CoversAny, Relevant, Distinct;
    RelevantCounts(citations, gold);
    RelevantCounts(repeated, gold);
    assert RelevantSet(repeated, gold) == RelevantSet(citations, gold);
  }

  /** Repeating or reordering citations changes neither citation recall nor citation precision. */
  lemma RepeatedCitationsCountOnce(citations: seq<SourceSpan>, repeated: seq<SourceSpan>, gold: seq<SourceSpan>)
    requires forall c :: c in repeated <==> c in citations
    ensures Covered(Dedup(repeated), gold) == Covered(citations, gold)
    ensures |Dedup(repeated)| == |Dedup(citations)|
    ensures Relevant(Dedup(repeated), gold) == Relevant(Dedup(citations), gold)
  {
    hide Covered, Relevant, Dedup, Distinct;
    CoveredGrows(Dedup(repeated), citations, gold);
    CoveredGrows(citations, Dedup(repeated), gold);
    SameRelevance(Dedup(citations), Dedup(repeated), gold);
  }
}
