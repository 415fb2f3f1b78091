/** The query pipeline after retrieval: fuse, rerank, select evidence, generate a cited answer. The
    providers' replies are arbitrary inputs; scores are reals. */
module Query {
  import opened Prelude
  import opened Fusion
  import opened FusionLaws

  datatype QueryError = ProviderUnavailable | InvalidGrounding

  // ---------------------------------------------------------------- the reranker adapter

  /** A float from the provider. */
  datatype Float = Finite(value: real) | NotFinite

  datatype RerankReply = RerankUnavailable | Scores(scores: seq<Float>)

  predicate InUnit(score: Float) {
    score.Finite? && 0.0 <= score.value <= 1.0
  }

  function RetainedScore(index: nat): (score: real)
    ensures 0.0 < score <= 1.0 && score * ((index + 1) as real) == 1.0
  {
    1.0 / ((index + 1) as real)
  }

  /** No reply, or one score for each candidate of which some is outside the unit interval. */
  predicate Unusable(capped: seq<RetrievedChunk>, reply: RerankReply) {
    || reply.RerankUnavailable? || reply.scores == []
    || (|reply.scores| == |capped| && exists i :: 0 <= i < |capped| && !(reply.scores[i].Finite? && 0.0 <= reply.scores[i].value <= 1.0))
  }

  predicate Pairs(items: seq<Scored>, capped: seq<RetrievedChunk>) {
    |items| == |capped| && forall i :: 0 <= i < |capped| ==> items[i].chunk == capped[i]
  }

  function Retained(capped: seq<RetrievedChunk>): (items: seq<Scored>)
    ensures Pairs(items, capped) && forall i :: 0 <= i < |capped| ==> items[i].score == RetainedScore(i)
  {
    seq(|capped|, i requires 0 <= i < |capped| => Scored(capped[i], RetainedScore(i)))
  }

  function Given(capped: seq<RetrievedChunk>, scores: seq<Float>): (items: seq<Scored>)
    requires |scores| == |capped| && forall i :: 0 <= i < |capped| ==> InUnit(scores[i])
    ensures Pairs(items, capped) && forall i :: 0 <= i < |capped| ==> InUnit(scores[i]) && items[i].score == scores[i].value
  {
    seq(|capped|, i requires 0 <= i < |capped| && InUnit(scores[i]) => Scored(capped[i], scores[i].value))
  }

  predicate ScoresInUnit(items: seq<Scored>) {
    forall i :: 0 <= i < |items| ==> 0.0 <= items[i].score <= 1.0
  }

  lemma RetainedInUnit(capped: seq<RetrievedChunk>)
    ensures ScoresInUnit(Retained(capped))
  {
  }

  lemma GivenInUnit(capped: seq<RetrievedChunk>, scores: seq<Float>)
    requires |scores| == |capped| && forall i :: 0 <= i < |capped| ==> InUnit(scores[i])
    ensures ScoresInUnit(Given(capped, scores))
  {
    var items := Given(capped, scores);
    forall i | 0 <= i < |items| ensures 0.0 <= items[i].score <= 1.0 {
      assert InUnit(scores[i]) && items[i].score == scores[i].value;
    }
  }

  /** Each candidate with its score: the provider's, or, when the count is wrong, one that retains the
      order and needs no range check. A reply without scores breaks the output schema and counts as no reply. */
  function Score(capped: seq<RetrievedChunk>, reply: RerankReply): (r: Result<seq<Scored>, QueryError>)
    ensures r.Err? <==> Unusable(capped, reply)
    ensures r.Err? ==> r.error == ProviderUnavailable
    ensures r.Ok? ==> Pairs(r.value, capped) && ScoresInUnit(r.value)
    ensures r.Ok? && |reply.scores| == |capped| ==> forall i :: 0 <= i < |capped| ==> Finite(r.value[i].score) == reply.scores[i]
    ensures r.Ok? && |reply.scores| != |capped| ==> forall i :: 0 <= i < |capped| ==> r.value[i].score == RetainedScore(i)
  {
    if reply.RerankUnavailable? || reply.scores == [] then Err(ProviderUnavailable)
    else if |reply.scores| != |capped| then
      RetainedInUnit(capped);
      Ok(Retained(capped))
    else if forall i :: 0 <= i < |capped| ==> InUnit(reply.scores[i]) then
      GivenInUnit(capped, reply.scores);
      Ok(Given(capped, reply.scores))
    else Err(ProviderUnavailable)
  }

  // ---------------------------------------------------------------- reranking

  datatype Scored = Scored(chunk: RetrievedChunk, score: real)

  function ScoredIds(items: seq<Scored>): (ids: seq<Uuid>)
    ensures |ids| == |items|
    ensures forall i :: 0 <= i < |items| ==> ids[i] == items[i].chunk.chunkId
  {
    seq(|items|, i requires 0 <= i < |items| => items[i].chunk.chunkId)
  }

  function Chunks(items: seq<Scored>): (chunks: seq<RetrievedChunk>)
    ensures |chunks| == |items|
    ensures forall i :: 0 <= i < |items| ==> chunks[i] == items[i].chunk
  {
    seq(|items|, i requires 0 <= i < |items| => items[i].chunk)
  }

  /** Best score first, ties by ascending identifier. */
  ghost predicate Outranks(a: Scored, b: Scored) {
    a.score > b.score || (a.score == b.score && a.chunk.chunkId < b.chunk.chunkId)
  }

  predicate Before(a: Scored, b: Scored): (r: bool)
    ensures r <==> Outranks(a, b)
  {
    Precedes(a.score, a.chunk.chunkId, b.score, b.chunk.chunkId)
  }

  ghost predicate InOrder(items: seq<Scored>) {
    forall i, j :: 0 <= i < j < |items| ==> Outranks(items[i], items[j])
  }

  /** `order` holds each of `items` once, best score first, ties by identifier. */
  ghost predicate IsReranked(order: seq<Scored>, items: seq<Scored>) {
    |order| == |items| && InOrder(order) && forall s :: s in order <==> s in items
  }

  method Rerank(fused: seq<RetrievedChunk>, limit: nat, reply: RerankReply) returns (r: Result<seq<Scored>, QueryError>)
    requires Distinct(ChunkIds(fused))
    ensures Take(fused, limit) == [] ==> r == Ok([])
    ensures Take(fused, limit) != [] ==>
      match Score(Take(fused, limit), reply)
      case Err(e) => r == Err(e)
      case Ok(items) => r.Ok? && IsReranked(r.value, items)
  {
    var capped := Take(fused, limit);
    if capped == [] {
      return Ok([]);
    }
    match Score(capped, reply) {
      case Err(e) => return Err(e);
      case Ok(items) =>
        assert Distinct(ScoredIds(items)) by {
          forall i, j | 0 <= i < j < |items| ensures ScoredIds(items)[i] != ScoredIds(items)[j] {
            assert ChunkIds(fused)[i] != ChunkIds(fused)[j];
          }
        }
        var order := SortScored(items);
        return Ok(order);
    }
  }

  /** Stands for `sorted(items, key=…)`, by repeated insertion. */
  method SortScored(items: seq<Scored>) returns (order: seq<Scored>)
    requires Distinct(ScoredIds(items))
    ensures IsReranked(order, items)
  {
    order := [];
    for n := 0 to |items|
      invariant IsReranked(order, items[..n])
    {
      hide IsReranked;
      order := Insert(order, items, n);
    }
    assert items[..|items|] == items;
  }

  method Insert(before: seq<Scored>, items: seq<Scored>, n: nat) returns (after: seq<Scored>)
    requires n < |items| && Distinct(ScoredIds(items)) && IsReranked(before, items[..n])
    ensures IsReranked(after, items[..n + 1])
  {
    hide Precedes;
    var at := 0;
    while at < |before| && Before(before[at], items[n])
      invariant 0 <= at <= |before|
      invariant forall i :: 0 <= i < at ==> Outranks(before[i], items[n])
    {
      at := at + 1;
    }
    after := before[..at] + [items[n]] + before[at..];
    forall i | at <= i < |before| ensures Outranks(items[n], before[i]) {
      OthersDiffer(items, n, before, at);
      Flip(before[at], items[n]);
      if at < i {
        BeforeJoins(items[n], before[at], before[i]);
      }
    }
    hide Outranks;
    assert items[..n + 1] == items[..n] + [items[n]];
    assert before == before[..at] + before[at..];
    forall s ensures s in after <==> s in items[..n + 1] {
    }
  }

  lemma OthersDiffer(items: seq<Scored>, n: nat, before: seq<Scored>, at: nat)
    requires n < |items| && Distinct(ScoredIds(items)) && IsReranked(before, items[..n]) && at < |before|
    ensures before[at].chunk.chunkId != items[n].chunk.chunkId
  {
    assert before[at] in items[..n];
    var i :| 0 <= i < n && items[..n][i] == before[at];
    assert ScoredIds(items)[i] != ScoredIds(items)[n];
  }

  lemma Flip(a: Scored, b: Scored)
    requires a.chunk.chunkId != b.chunk.chunkId && !Outranks(a, b)
    ensures Outranks(b, a)
  {
  }

  lemma BeforeJoins(a: Scored, b: Scored, c: Scored)
    requires Outranks(a, b) && Outranks(b, c)
    ensures Outranks(a, c)
  {
  }

  /** The scores and identifiers leave only one order. */
  lemma {:induction false} RerankingIsDetermined(a: seq<Scored>, b: seq<Scored>)
    requires InOrder(a) && InOrder(b) && forall s :: s in a <==> s in b
    ensures a == b
    decreases |a|
  {
    BothEmpty(a, b);
    if a != [] {
      SameHead(a, b);
      forall s ensures s in a[1..] <==> s in b[1..] {
        NotAgain(a, s);
        NotAgain(b, s);
      }
      RerankingIsDetermined(a[1..], b[1..]);
      assert a == [a[0]] + a[1..] && b == [b[0]] + b[1..];
    }
  }

  lemma BothEmpty(a: seq<Scored>, b: seq<Scored>)
    requires forall s :: s in a <==> s in b
    ensures a == [] <==> b == []
  {
    if a != [] {
      assert a[0] in b;
    }
    if b != [] {
      assert b[0] in a;
    }
  }

  lemma SameHead(a: seq<Scored>, b: seq<Scored>)
    requires a != [] && b != [] && InOrder(a) && InOrder(b) && forall s :: s in a <==> s in b
    ensures a[0] == b[0]
  {
    assert a[0] in b && b[0] in a;
    FirstIsBest(a, b[0]);
    FirstIsBest(b, a[0]);
  }

  lemma FirstIsBest(a: seq<Scored>, s: Scored)
    requires InOrder(a) && s in a
    ensures s == a[0] || Outranks(a[0], s)
  {
    hide Outranks;
    var i :| 0 <= i < |a| && a[i] == s;
  }

  lemma NotAgain(a: seq<Scored>, s: Scored)
    requires a != [] && InOrder(a)
    ensures s in a[1..] <==> s in a && s != a[0]
  {
    if s in a && s != a[0] {
      var i :| 0 <= i < |a| && a[i] == s;
      assert a[1..][i - 1] == s;
    }
  }

  lemma EarlierScoresMore(i: nat, j: nat)
    requires i < j
    ensures RetainedScore(i) > RetainedScore(j)
  {
    LaterRankWeighsLess(1, i, j);
  }

  /** A reply with the wrong number of scores leaves the fused order as it was. */
  lemma WrongCountKeepsTheOrder(capped: seq<RetrievedChunk>, scores: seq<Float>, order: seq<Scored>)
    requires scores != [] && |scores| != |capped| && Score(capped, Scores(scores)).Ok?
    requires IsReranked(order, Score(capped, Scores(scores)).value)
    ensures Chunks(order) == capped
  {
    var items := Score(capped, Scores(scores)).value;
    assert InOrder(items) by {
      forall i, j | 0 <= i < j < |items| ensures Outranks(items[i], items[j]) {
        EarlierScoresMore(i, j);
      }
    }
    RerankingIsDetermined(order, items);
  }

  // ---------------------------------------------------------------- the generator adapter

  const MAX_ANSWER := 16_000

  /** `shown` is the text without internal citation markers and outer whitespace. */
  datatype GenerationReply = GenerationUnavailable | Answer(text: string, shown: string, indices: seq<int>)

  datatype GroundedAnswer = GroundedAnswer(text: string, citedIds: seq<Uuid>)

  /** The reply parses against the output schema. */
  ghost predicate WellFormed(reply: GenerationReply) {
    reply.Answer? && 1 <= |reply.text| <= 16_000 && |reply.indices| >= 1
  }

  /** Some cited position names no passage. */
  ghost predicate PointsOutside(reply: GenerationReply, count: nat)
    requires reply.Answer?
  {
    exists i :: 0 <= i < |reply.indices| && !(1 <= reply.indices[i] <= count)
  }

  /** The reply that counts: the second one only when the first cites a position that does not exist. */
  ghost function ReplyUsed(replies: seq<GenerationReply>, count: nat): GenerationReply
    requires |replies| == 2
  {
    if WellFormed(replies[0]) && PointsOutside(replies[0], count) then replies[1] else replies[0]
  }

  /** Position `indices[i]`, counted from one, names the passage `id`. */
  ghost predicate Names(passages: seq<Uuid>, indices: seq<int>, i: nat, id: Uuid) {
    i < |indices| && 1 <= indices[i] <= |passages| && passages[indices[i] - 1] == id
  }

  /** `ids` are the passages at the cited positions: each once, none else, in the order in which they are
      first cited. */
  ghost predicate CitesInOrder(ids: seq<Uuid>, passages: seq<Uuid>, indices: seq<int>) {
    && Distinct(ids) && |ids| >= 1 && Names(passages, indices, 0, ids[0])
    && (forall id :: id in ids <==> exists i: nat :: Names(passages, indices, i, id))
    && (forall a, b :: 0 <= a < b < |ids| ==> CitedBefore(passages, indices, ids[a], ids[b]))
  }

  /** Some position names `id` before any names `other`. */
  ghost predicate CitedBefore(passages: seq<Uuid>, indices: seq<int>, id: Uuid, other: Uuid) {
    exists i: nat :: Names(passages, indices, i, id) && forall j: nat :: j <= i ==> !Names(passages, indices, j, other)
  }

  /** The identifiers at the cited positions, counted from one. */
  function AtIndices(passages: seq<Uuid>, indices: seq<int>): (ids: seq<Uuid>)
    requires forall i :: 0 <= i < |indices| ==> 1 <= indices[i] <= |passages|
    ensures |ids| == |indices| && forall i :: 0 <= i < |ids| ==> Names(passages, indices, i, ids[i])
  {
    seq(|indices|, i requires 0 <= i < |indices| => passages[indices[i] - 1])
  }

  lemma DedupCitesInOrder(passages: seq<Uuid>, indices: seq<int>)
    requires |indices| >= 1 && forall i :: 0 <= i < |indices| ==> 1 <= indices[i] <= |passages|
    ensures CitesInOrder(Dedup(AtIndices(passages, indices)), passages, indices)
  {
    var all := AtIndices(passages, indices);
    var ids := Dedup(all);
    assert Names(passages, indices, 0, all[0]);
    hide Dedup, AtIndices, Names, CitedBefore;
    forall id ensures id in ids <==> exists i: nat :: Names(passages, indices, i, id) {
      NamedIffListed(passages, indices, id);
    }
    forall a, b | 0 <= a < b < |ids| ensures CitedBefore(passages, indices, ids[a], ids[b]) {
      DedupKeepsOrder(all, a, b);
      EarlierIsCitedBefore(passages, indices, ids[a], ids[b]);
    }
  }

  lemma EarlierIsCitedBefore(passages: seq<Uuid>, indices: seq<int>, id: Uuid, other: Uuid)
    requires forall i :: 0 <= i < |indices| ==> 1 <= indices[i] <= |passages|
    requires id in AtIndices(passages, indices) && other in AtIndices(passages, indices)
    requires FirstAt(AtIndices(passages, indices), id) < FirstAt(AtIndices(passages, indices), other)
    ensures CitedBefore(passages, indices, id, other)
  {
    var all := AtIndices(passages, indices);
    hide AtIndices, FirstAt;
    var i := FirstAt(all, id);
    assert Names(passages, indices, i, all[i]);
    forall j: nat | j <= i ensures !Names(passages, indices, j, other) {
      assert Names(passages, indices, j, all[j]) && all[j] == all[..FirstAt(all, other)][j];
    }
  }

  lemma NamedIffListed(passages: seq<Uuid>, indices: seq<int>, id: Uuid)
    requires forall i :: 0 <= i < |indices| ==> 1 <= indices[i] <= |passages|
    ensures id in AtIndices(passages, indices) <==> exists i: nat :: Names(passages, indices, i, id)
  {
    var all := AtIndices(passages, indices);
    hide AtIndices;
    if i: nat :| Names(passages, indices, i, id) {
      assert Names(passages, indices, i, all[i]);
    }
    if id in all {
      var i :| 0 <= i < |all| && all[i] == id;
      assert Names(passages, indices, i, all[i]);
    }
  }

  /** Two attempts at most; the cited positions name the passages they count to. */
  method Generate(passages: seq<Uuid>, replies: seq<GenerationReply>) returns (r: Result<GroundedAnswer, QueryError>)
    requires |replies| == 2
    ensures var used := ReplyUsed(replies, |passages|);
            if !WellFormed(used) then r == Err(ProviderUnavailable)
            else if PointsOutside(used, |passages|) then r == Err(InvalidGrounding)
            else r.Ok? && r.value.text == used.shown && CitesInOrder(r.value.citedIds, passages, used.indices)
  {
    hide CitesInOrder;
    var attempt := 0;
    var accepted := false;
    var reply := replies[0];
    while attempt < 2 && !accepted
      invariant 0 <= attempt <= 2 && (accepted ==> attempt >= 1) && (attempt >= 1 ==> reply == replies[attempt - 1])
      invariant forall i :: 0 <= i < attempt ==> WellFormed(replies[i])
      invariant forall i :: 0 <= i < attempt - (if accepted then 1 else 0) ==> PointsOutside(replies[i], |passages|)
      invariant accepted ==> !PointsOutside(reply, |passages|)
    {
      reply := replies[attempt];
      if reply.GenerationUnavailable? || |reply.text| < 1 || |reply.text| > MAX_ANSWER || reply.indices == [] {
        return Err(ProviderUnavailable);
      }
      accepted := forall i :: 0 <= i < |reply.indices| ==> 1 <= reply.indices[i] <= |passages|;
      attempt := attempt + 1;
    }
    if !accepted {
      return Err(InvalidGrounding);
    }
    DedupCitesInOrder(passages, reply.indices);
    r := Ok(GroundedAnswer(reply.shown, Dedup(AtIndices(passages, reply.indices))));
  }

  // ---------------------------------------------------------------- evidence selection

  datatype Retrieval = Retrieval(rrfK: nat, entityBoost: real, rerankLimit: nat, evidenceThreshold: real, minCitation: real)

  datatype Reason = BelowEvidenceThreshold | BelowCitationThreshold | Ungrounded

  datatype Citation = Citation(documentId: Uuid, versionId: Uuid, chunkId: Uuid, pageNumber: Option<nat>, text: string,
      score: real)

  datatype QueryResult =
    | Grounded(answer: string, confidence: real, citations: seq<Citation>)
    | Insufficient(reason: Reason)
    | Unavailable

  datatype Trace = Trace(fused: seq<RetrievedChunk>, reranked: seq<RetrievedChunk>, citedIds: seq<Uuid>)

  function Citable(selected: seq<Scored>, minCitation: real): (citable: seq<Scored>)
    ensures forall s :: s in citable <==> s in selected && s.score >= minCitation
  {
    if selected == [] then []
    else
      var front, last := selected[..|selected| - 1], selected[|selected| - 1];
      assert selected == front + [last];
      Citable(front, minCitation) + if last.score >= minCitation then [last] else []
  }

  function ToCitation(item: Scored): Citation {
    Citation(item.chunk.documentId, item.chunk.versionId, item.chunk.chunkId, item.chunk.pageNumber, item.chunk.text,
        item.score)
  }

  /** The citable passages are a prefix of the selection, so a position the generator cites is a rank. */
  lemma {:induction false} CitableIsAPrefix(selected: seq<Scored>, minCitation: real)
    requires InOrder(selected)
    ensures Citable(selected, minCitation) <= selected
    ensures |Citable(selected, minCitation)| < |selected| ==> selected[|Citable(selected, minCitation)|].score < minCitation
  {
    if selected != [] {
      var n := |selected| - 1;
      var front, last := selected[..n], selected[n];
      assert InOrder(front);
      LaterScoresLess(selected, |Citable(front, minCitation)|);
      CitableStep(selected, minCitation);
      assert selected == front + [last];
      hide *;
      CitableIsAPrefix(front, minCitation);
      PrefixStep(Citable(front, minCitation), front, last, minCitation);
    }
  }

  lemma CitableStep(selected: seq<Scored>, minCitation: real)
    requires selected != []
    ensures var front, last := selected[..|selected| - 1], selected[|selected| - 1];
            Citable(selected, minCitation)
            == if last.score >= minCitation then Citable(front, minCitation) + [last] else Citable(front, minCitation)
  {
  }

  lemma PrefixStep(part: seq<Scored>, front: seq<Scored>, last: Scored, minCitation: real)
    requires part <= front
    requires |part| < |front| ==> last.score <= front[|part|].score < minCitation
    ensures var after := if last.score >= minCitation then part + [last] else part;
            && after <= front + [last]
            && (|after| < |front| + 1 ==> (front + [last])[|after|].score < minCitation)
  {
    if |part| == |front| {
      assert part == front;
    }
  }

  lemma LaterScoresLess(order: seq<Scored>, i: nat)
    requires InOrder(order)
    ensures i < |order| ==> order[|order| - 1].score <= order[i].score
  {
    if i < |order| - 1 {
      assert Outranks(order[i], order[|order| - 1]);
    }
  }

  /** The best score decides: the evidence threshold refuses exactly when no selected passage reaches it. */
  lemma RefusedIffNothingReaches(order: seq<Scored>, topK: nat, threshold: real)
    requires InOrder(order)
    ensures (Take(order, topK) == [] || Take(order, topK)[0].score < threshold)
        <==> forall s :: s in Take(order, topK) ==> s.score < threshold
  {
    var selected := Take(order, topK);
    if selected != [] && selected[0].score < threshold {
      forall s | s in selected ensures s.score < threshold {
        var i :| 0 <= i < |selected| && selected[i] == s;
        assert i > 0 ==> Outranks(order[0], order[i]);
      }
    }
    assert selected != [] ==> selected[0] in selected;
  }

  /** The citation repeats the passage's fields and score. */
  ghost predicate Quotes(c: Citation, s: Scored) {
    && c.documentId == s.chunk.documentId && c.versionId == s.chunk.versionId && c.chunkId == s.chunk.chunkId
    && c.pageNumber == s.chunk.pageNumber && c.text == s.chunk.text && c.score == s.score
  }

  /** The first `n` selected passages are those that reach the citation score. */
  ghost predicate Cutoff(selected: seq<Scored>, minCitation: real, n: nat) {
    && n <= |selected|
    && (forall i :: 0 <= i < n ==> selected[i].score >= minCitation)
    && (forall i :: n <= i < |selected| ==> selected[i].score < minCitation)
  }

  /** What the generator's replies make of the citable passages, in rank order. A grounded answer cites the
      passages at the positions of the reply that counts, in the order in which they are first cited, with
      their own fields and scores; its confidence is the best of those scores. */
  ghost predicate AnsweredFrom(citable: seq<Scored>, replies: seq<GenerationReply>, result: QueryResult)
    requires |replies| == 2
  {
    var used := ReplyUsed(replies, |citable|);
    if !WellFormed(used) then result == Unavailable
    else if PointsOutside(used, |citable|) then result == Insufficient(Ungrounded)
    else result.Grounded? && result.answer == used.shown && Cites(result, citable, used.indices)
  }

  ghost predicate Cites(result: QueryResult, citable: seq<Scored>, indices: seq<int>)
    requires result.Grounded?
  {
    && CitesInOrder(CitedIds(result.citations), ScoredIds(citable), indices)
    && (forall i :: 0 <= i < |result.citations| ==> QuotesSome(result.citations[i], citable))
    && (forall i :: 0 <= i < |result.citations| ==> result.citations[i].score <= result.confidence)
    && (exists i :: 0 <= i < |result.citations| && result.citations[i].score == result.confidence)
  }

  ghost predicate QuotesSome(c: Citation, citable: seq<Scored>) {
    exists s :: s in citable && Quotes(c, s)
  }

  /** What the pipeline answers, given the reranked candidates. */
  ghost predicate Decided(order: seq<Scored>, topK: nat, config: Retrieval, replies: seq<GenerationReply>, result: QueryResult)
    requires |replies| == 2
  {
    var selected := Take(order, topK);
    if forall s :: s in selected ==> s.score < config.evidenceThreshold then result == Insufficient(BelowEvidenceThreshold)
    else if forall s :: s in selected ==> s.score < config.minCitation then result == Insufficient(BelowCitationThreshold)
    else exists n: nat :: Cutoff(selected, config.minCitation, n) && AnsweredFrom(Take(selected, n), replies, result)
  }

  function CitedIds(citations: seq<Citation>): (ids: seq<Uuid>)
    ensures |ids| == |citations|
    ensures forall i :: 0 <= i < |citations| ==> ids[i] == citations[i].chunkId
  {
    seq(|citations|, i requires 0 <= i < |citations| => citations[i].chunkId)
  }

  /** The dictionary from identifiers to selected passages; a later passage replaces an earlier one. */
  function ById(items: seq<Scored>): (byId: map<Uuid, Scored>)
    ensures forall id :: id in byId ==> byId[id] in items && byId[id].chunk.chunkId == id
    ensures forall s :: s in items ==> s.chunk.chunkId in byId
  {
    if items == [] then map[]
    else
      var front, last := items[..|items| - 1], items[|items| - 1];
      assert items == front + [last];
      ById(front)[last.chunk.chunkId := last]
  }

  /** The passages of those identifiers that the dictionary holds. */
  function Lookup(byId: map<Uuid, Scored>, ids: seq<Uuid>): (found: seq<Scored>)
    ensures (forall i :: 0 <= i < |ids| ==> ids[i] in byId) ==>
              |found| == |ids| && forall i :: 0 <= i < |ids| ==> found[i] == byId[ids[i]]
  {
    if ids == [] then []
    else
      var last := ids[|ids| - 1];
      Lookup(byId, ids[..|ids| - 1]) + if last in byId then [byId[last]] else []
  }

  method Best(cited: seq<Scored>) returns (best: real)
    requires cited != []
    ensures forall i :: 0 <= i < |cited| ==> cited[i].score <= best
    ensures exists i :: 0 <= i < |cited| && cited[i].score == best
  {
    best := cited[0].score;
    for n := 1 to |cited|
      invariant forall i :: 0 <= i < n ==> cited[i].score <= best
      invariant exists i :: 0 <= i < n && cited[i].score == best
    {
      if cited[n].score > best {
        best := cited[n].score;
      }
    }
  }

  /** From the reranked candidates to the result. */
  method Conclude(order: seq<Scored>, topK: nat, config: Retrieval, replies: seq<GenerationReply>)
    returns (result: QueryResult, citedIds: seq<Uuid>)
    requires |replies| == 2 && InOrder(order)
    ensures Decided(order, topK, config, replies, result)
    ensures citedIds == if result.Grounded? then CitedIds(result.citations) else []
  {
    hide InOrder, AnsweredFrom;
    citedIds := [];
    var selected := Take(order, topK);
    RefusedIffNothingReaches(order, topK, config.evidenceThreshold);
    if selected == [] || selected[0].score < config.evidenceThreshold {
      return Insufficient(BelowEvidenceThreshold), citedIds;
    }
    var citable := Citable(selected, config.minCitation);
    NothingCitable(selected, config.minCitation);
    if citable == [] {
      return Insufficient(BelowCitationThreshold), citedIds;
    }
    CitableIsTheCutoff(order, topK, config.minCitation);
    result, citedIds := AnswerFrom(citable, replies);
  }

  /** Generation and citation over the citable passages. */
  method AnswerFrom(citable: seq<Scored>, replies: seq<GenerationReply>) returns (result: QueryResult, citedIds: seq<Uuid>)
    requires |replies| == 2
    ensures AnsweredFrom(citable, replies, result)
    ensures citedIds == if result.Grounded? then CitedIds(result.citations) else []
  {
    hide CitesInOrder, PointsOutside, ReplyUsed;
    citedIds := [];
    var reply := Generate(ScoredIds(citable), replies);
    match reply {
      case Err(ProviderUnavailable) => result := Unavailable;
      case Err(InvalidGrounding) => result := Insufficient(Ungrounded);
      case Ok(answer) =>
        result, citedIds := Cite(answer, citable, ReplyUsed(replies, |citable|).indices);
    }
  }

  lemma CitableIsTheCutoff(order: seq<Scored>, topK: nat, minCitation: real)
    requires InOrder(order)
    ensures var selected := Take(order, topK);
            var n := |Citable(selected, minCitation)|;
            Cutoff(selected, minCitation, n) && Take(selected, n) == Citable(selected, minCitation)
  {
    var selected := Take(order, topK);
    var citable := Citable(selected, minCitation);
    assert InOrder(selected);
    CitableIsAPrefix(selected, minCitation);
    forall i | |citable| <= i < |selected| ensures selected[i].score < minCitation {
      if i > |citable| {
        assert Outranks(selected[|citable|], selected[i]);
      }
    }
    assert forall i :: 0 <= i < |citable| ==> citable[i] in citable;
  }

  lemma NothingCitable(selected: seq<Scored>, minCitation: real)
    ensures Citable(selected, minCitation) == [] <==> forall s :: s in selected ==> s.score < minCitation
  {
    var citable := Citable(selected, minCitation);
    assert citable != [] ==> citable[0] in citable;
  }

  method Cite(answer: GroundedAnswer, citable: seq<Scored>, ghost indices: seq<int>)
    returns (result: QueryResult, citedIds: seq<Uuid>)
    requires CitesInOrder(answer.citedIds, ScoredIds(citable), indices)
    ensures result.Grounded? && result.answer == answer.text && Cites(result, citable, indices)
    ensures citedIds == CitedIds(result.citations) == answer.citedIds
  {
    var byId := ById(citable);
    CitedAreNonempty(answer.citedIds, ScoredIds(citable), indices);
    EveryIdIsFound(citable, answer.citedIds);
    hide CitesInOrder, ById, Cites, InOrder, Precedes;
    var cited := Lookup(byId, answer.citedIds);
    hide Lookup;
    var citations := seq(|cited|, i requires 0 <= i < |cited| => ToCitation(cited[i]));
    var confidence := Best(cited);
    result := Grounded(answer.text, confidence, citations);
    citedIds := CitedIds(citations);
    assert citedIds == answer.citedIds;
    hide ToCitation;
    FoundAreCited(result, cited, citable, indices);
  }

  lemma FoundAreCited(result: QueryResult, cited: seq<Scored>, citable: seq<Scored>, indices: seq<int>)
    requires result.Grounded? && |result.citations| == |cited|
    requires forall i :: 0 <= i < |cited| ==> cited[i] in citable && result.citations[i] == ToCitation(cited[i])
    requires forall i :: 0 <= i < |cited| ==> cited[i].score <= result.confidence
    requires exists i :: 0 <= i < |cited| && cited[i].score == result.confidence
    requires CitesInOrder(CitedIds(result.citations), ScoredIds(citable), indices)
    ensures Cites(result, citable, indices)
  {
    hide CitesInOrder, Quotes;
    forall i | 0 <= i < |cited| ensures QuotesSome(result.citations[i], citable) && result.citations[i].score == cited[i].score {
      CitationQuotes(cited[i]);
    }
    var i :| 0 <= i < |cited| && cited[i].score == result.confidence;
    assert result.citations[i].score == result.confidence;
  }

  lemma CitationQuotes(s: Scored)
    ensures Quotes(ToCitation(s), s)
  {
  }

  lemma CitedAreNonempty(ids: seq<Uuid>, passages: seq<Uuid>, indices: seq<int>)
    requires CitesInOrder(ids, passages, indices)
    ensures ids != [] && forall id :: id in ids ==> id in passages
  {
    forall id | id in ids ensures id in passages {
      var i :| Names(passages, indices, i, id);
    }
  }

  lemma EveryIdIsFound(citable: seq<Scored>, ids: seq<Uuid>)
    requires forall id :: id in ids ==> id in ScoredIds(citable)
    ensures forall i :: 0 <= i < |ids| ==> ids[i] in ById(citable)
  {
    forall i | 0 <= i < |ids| ensures ids[i] in ById(citable) {
      assert ids[i] in ids;
      var j :| 0 <= j < |citable| && ScoredIds(citable)[j] == ids[i];
      assert citable[j] in citable;
    }
  }

  /** The evaluation's lookup of a citation in the fused candidates finds the cited passage itself. */
  ghost predicate InFused(c: Citation, fused: seq<RetrievedChunk>) {
    exists i :: 0 <= i < |fused| && Quotes(c, Scored(fused[i], c.score))
  }

  lemma RerankedAreFused(fused: seq<RetrievedChunk>, limit: nat, reply: RerankReply, order: seq<Scored>, s: Scored)
    requires Score(Take(fused, limit), reply).Ok? && IsReranked(order, Score(Take(fused, limit), reply).value)
    requires s in order
    ensures exists i :: 0 <= i < |fused| && fused[i] == s.chunk
  {
    hide InOrder;
    var items := Score(Take(fused, limit), reply).value;
    var i :| 0 <= i < |items| && items[i] == s;
    assert items[i].chunk == Take(fused, limit)[i] == fused[i];
  }

  lemma CitationsAreFused(fused: seq<RetrievedChunk>, limit: nat, reply: RerankReply, order: seq<Scored>, topK: nat,
                          n: nat, result: QueryResult, indices: seq<int>)
    requires Score(Take(fused, limit), reply).Ok? && IsReranked(order, Score(Take(fused, limit), reply).value)
    requires result.Grounded? && Cites(result, Take(Take(order, topK), n), indices)
    ensures forall c :: c in result.citations ==> InFused(c, fused)
  {
    hide Score, IsReranked, CitesInOrder;
    forall c | c in result.citations ensures InFused(c, fused) {
      var i :| 0 <= i < |result.citations| && result.citations[i] == c;
      assert QuotesSome(result.citations[i], Take(Take(order, topK), n));
      var s :| s in Take(Take(order, topK), n) && Quotes(c, s);
      assert s in order;
      RerankedAreFused(fused, limit, reply, order, s);
      CitationFound(fused, c, s);
    }
  }

  lemma CitationFound(fused: seq<RetrievedChunk>, c: Citation, s: Scored)
    requires Quotes(c, s) && exists i :: 0 <= i < |fused| && fused[i] == s.chunk
    ensures InFused(c, fused)
  {
    var i :| 0 <= i < |fused| && fused[i] == s.chunk;
    assert Quotes(c, Scored(fused[i], c.score));
  }

  /** The pipeline from the ranked lists to the result; the trace records how far it came. */
  method Answer(lists: seq<seq<RetrievedChunk>>, entityVersions: set<Uuid>, config: Retrieval, topK: nat,
                rerankReply: RerankReply, replies: seq<GenerationReply>)
    returns (result: QueryResult, trace: Trace, ghost order: seq<Scored>)
    requires config.rrfK >= 1 && |replies| == 2
    ensures IsFused(trace.fused, lists, entityVersions, config.rrfK, config.entityBoost)
    ensures var capped := Take(trace.fused, config.rerankLimit);
            match (if capped == [] then Ok([]) else Score(capped, rerankReply))
            case Err(_) => result == Unavailable && trace.reranked == []
            case Ok(items) =>
              && IsReranked(order, items) && trace.reranked == Chunks(order)
              && Decided(order, topK, config, replies, result)
    ensures trace.citedIds == if result.Grounded? then CitedIds(result.citations) else []
    ensures result.Grounded? ==> forall c :: c in result.citations ==> InFused(c, trace.fused)
  {
    hide Score, Decided, InFused, IsFused;
    var fused := Fuse(lists, entityVersions, config.rrfK, config.entityBoost);
    FusionIsDetermined(lists, entityVersions, config.rrfK, config.entityBoost, fused, fused);
    trace, order := Trace(fused, [], []), [];
    var reranked := Rerank(fused, config.rerankLimit, rerankReply);
    if reranked.Err? {
      return Unavailable, trace, order;
    }
    order := reranked.value;
    trace := trace.(reranked := Chunks(reranked.value));
    var citedIds;
    result, citedIds := Conclude(reranked.value, topK, config, replies);
    trace := trace.(citedIds := citedIds);
    if result.Grounded? {
      NoCandidatesNoAnswer(order, topK, config, replies, result);
      GroundedAreFused(fused, config.rerankLimit, rerankReply, order, topK, config, replies, result);
    }
  }

  lemma NoCandidatesNoAnswer(order: seq<Scored>, topK: nat, config: Retrieval, replies: seq<GenerationReply>, result: QueryResult)
    requires |replies| == 2 && result.Grounded? && Decided(order, topK, config, replies, result)
    ensures order != []
  {
  }

  lemma GroundedAreFused(fused: seq<RetrievedChunk>, limit: nat, reply: RerankReply, order: seq<Scored>, topK: nat,
                         config: Retrieval, replies: seq<GenerationReply>, result: QueryResult)
    requires |replies| == 2 && Take(fused, limit) != []
    requires Score(Take(fused, limit), reply).Ok? && IsReranked(order, Score(Take(fused, limit), reply).value)
    requires result.Grounded? && Decided(order, topK, config, replies, result)
    ensures forall c :: c in result.citations ==> InFused(c, fused)
  {
    hide Score, IsReranked, Cites, InFused, PointsOutside;
    var selected := Take(order, topK);
    var n: nat :| Cutoff(selected, config.minCitation, n) && AnsweredFrom(Take(selected, n), replies, result);
    CitationsAreFused(fused, limit, reply, order, topK, n, result, ReplyUsed(replies, |Take(selected, n)|).indices);
  }

  /** A grounded answer's citations are nonempty, distinct and each a selected passage at or above the
      citation score, and the first of them is the passage at the first position cited. */
  lemma GroundedAnswersAreSound(order: seq<Scored>, topK: nat, config: Retrieval, replies: seq<GenerationReply>, result: QueryResult)
    requires |replies| == 2 && result.Grounded? && Decided(order, topK, config, replies, result)
    ensures |result.citations| >= 1 && Distinct(CitedIds(result.citations))
    ensures forall c :: c in result.citations ==>
              c.score >= config.minCitation && c.score <= result.confidence && QuotesSome(c, Take(order, topK))
    ensures exists n: nat :: var used := ReplyUsed(replies, n);
              && Cutoff(Take(order, topK), config.minCitation, n) && used.Answer? && used.indices != []
              && 1 <= used.indices[0] <= n && result.citations[0].chunkId == Take(order, topK)[used.indices[0] - 1].chunk.chunkId
  {
    hide *;
    var selected := Take(order, topK);
    var n := CitableOfGrounded(order, topK, config, replies, result);
    var citable, used := Take(selected, n), ReplyUsed(replies, n);
    CitesUnfold(result, citable, used.indices);
    assert citable[used.indices[0] - 1] == selected[used.indices[0] - 1];
    forall c | c in result.citations
      ensures c.score >= config.minCitation && c.score <= result.confidence && QuotesSome(c, selected) {
      QuotedAreSelected(selected, config.minCitation, n, c);
    }
  }

  lemma CitableOfGrounded(order: seq<Scored>, topK: nat, config: Retrieval, replies: seq<GenerationReply>, result: QueryResult)
    returns (n: nat)
    requires |replies| == 2 && result.Grounded? && Decided(order, topK, config, replies, result)
    ensures var selected := Take(order, topK);
            && Cutoff(selected, config.minCitation, n) && n <= |selected| && ReplyUsed(replies, n).Answer?
            && Cites(result, Take(selected, n), ReplyUsed(replies, n).indices)
  {
    hide Cites, PointsOutside, ReplyUsed;
    n :| Cutoff(Take(order, topK), config.minCitation, n) && AnsweredFrom(Take(Take(order, topK), n), replies, result);
  }

  lemma CitesUnfold(result: QueryResult, citable: seq<Scored>, indices: seq<int>)
    requires result.Grounded? && Cites(result, citable, indices)
    ensures |result.citations| >= 1 && Distinct(CitedIds(result.citations))
    ensures |indices| >= 1 && 1 <= indices[0] <= |citable|
    ensures citable[indices[0] - 1].chunk.chunkId == result.citations[0].chunkId
    ensures forall c :: c in result.citations ==> c.score <= result.confidence && QuotesSome(c, citable)
  {
    hide QuotesSome;
    assert Names(ScoredIds(citable), indices, 0, CitedIds(result.citations)[0]);
    forall c | c in result.citations ensures c.score <= result.confidence && QuotesSome(c, citable) {
      var i :| 0 <= i < |result.citations| && result.citations[i] == c;
      assert QuotesSome(result.citations[i], citable);
    }
  }

  lemma QuotedAreSelected(selected: seq<Scored>, minCitation: real, n: nat, c: Citation)
    requires Cutoff(selected, minCitation, n) && QuotesSome(c, Take(selected, n))
    ensures c.score >= minCitation && QuotesSome(c, selected)
  {
    var s :| s in Take(selected, n) && Quotes(c, s);
    assert s in selected;
  }
}
