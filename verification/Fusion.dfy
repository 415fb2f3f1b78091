/** Reciprocal-rank fusion of ranked candidate lists with a soft entity boost. Scores are reals. */
module Fusion {
  import opened Prelude

  datatype RetrievedChunk = RetrievedChunk(
    chunkId: Uuid, documentId: Uuid, versionId: Uuid, text: string,
    pageNumber: Option<nat>, startOffset: nat, endOffset: nat)

  /** One appearance of a candidate: its rank in the list that holds it, counted from one. */
  datatype Hit = Hit(rank: nat, chunk: RetrievedChunk)

  function Hits(list: seq<RetrievedChunk>): (hits: seq<Hit>)
    ensures |hits| == |list|
  {
    seq(|list|, i requires 0 <= i < |list| => Hit(i + 1, list[i]))
  }

  /** All appearances, list by list. */
  function AllHits(lists: seq<seq<RetrievedChunk>>): seq<Hit> {
    if lists == [] then [] else AllHits(lists[..|lists| - 1]) + Hits(lists[|lists| - 1])
  }

  function Term(k: nat, rank: nat): (term: real)
    requires k >= 1
    ensures term > 0.0 && term * ((k + rank) as real) == 1.0
  {
    1.0 / ((k + rank) as real)
  }

  /** The reciprocal-rank score of a chunk: one term for each of its appearances. */
  function Score(hits: seq<Hit>, k: nat, id: Uuid): (score: real)
    requires k >= 1
    ensures score >= 0.0
  {
    if hits == [] then 0.0
    else
      var last := hits[|hits| - 1];
      Score(hits[..|hits| - 1], k, id) + if last.chunk.chunkId == id then Term(k, last.rank) else 0.0
  }

  function Ids(hits: seq<Hit>): set<Uuid> {
    set h | h in hits :: h.chunk.chunkId
  }

  /** The last appearance of a chunk, whose row stands for it. */
  function Latest(hits: seq<Hit>, id: Uuid): (chunk: RetrievedChunk)
    requires id in Ids(hits)
    ensures chunk.chunkId == id
  {
    if hits[|hits| - 1].chunk.chunkId == id then hits[|hits| - 1].chunk
    else
      assert id in Ids(hits[..|hits| - 1]);
      Latest(hits[..|hits| - 1], id)
  }

  function Boost(chunk: RetrievedChunk, entityVersions: set<Uuid>, boost: real): real {
    if chunk.versionId in entityVersions then boost else 0.0
  }

  /** What fusion sorts by. */
  function Total(hits: seq<Hit>, entityVersions: set<Uuid>, k: nat, boost: real, id: Uuid): real
    requires k >= 1 && id in Ids(hits)
  {
    Score(hits, k, id) + Boost(Latest(hits, id), entityVersions, boost)
  }

  /** Higher totals first, equal totals by identifier. */
  predicate Precedes(total: real, id: Uuid, total': real, id': Uuid) {
    total > total' || (total == total' && id < id')
  }

  /** `ids` lists exactly `keys`, each once, in the order of `totals`. */
  ghost predicate SortedKeys(keys: set<Uuid>, totals: map<Uuid, real>, ids: seq<Uuid>) {
    && keys <= totals.Keys
    && (forall id :: id in ids <==> id in keys)
    && (forall i, j :: 0 <= i < j < |ids| ==> Precedes(totals[ids[i]], ids[i], totals[ids[j]], ids[j]))
  }

  function Totals(hits: seq<Hit>, entityVersions: set<Uuid>, k: nat, boost: real): (totals: map<Uuid, real>)
    requires k >= 1
    ensures totals.Keys == Ids(hits)
  {
    map id | id in Ids(hits) :: Total(hits, entityVersions, k, boost, id)
  }

  function ChunkIds(chunks: seq<RetrievedChunk>): (ids: seq<Uuid>)
    ensures |ids| == |chunks|
    ensures forall i :: 0 <= i < |chunks| ==> ids[i] == chunks[i].chunkId
  {
    seq(|chunks|, i requires 0 <= i < |chunks| => chunks[i].chunkId)
  }

  /** The declarative meaning of fusion: the union of the lists, each chunk once, in sorted order. */
  ghost predicate IsFused(fused: seq<RetrievedChunk>, lists: seq<seq<RetrievedChunk>>, entityVersions: set<Uuid>, k: nat,
                          boost: real)
    requires k >= 1
  {
    var hits := AllHits(lists);
    && SortedKeys(Ids(hits), Totals(hits, entityVersions, k, boost), ChunkIds(fused))
    && forall i :: 0 <= i < |fused| ==> fused[i].chunkId in Ids(hits) && fused[i] == Latest(hits, fused[i].chunkId)
  }

  // ---------------------------------------------------------------- the fusion loop

  method Fuse(lists: seq<seq<RetrievedChunk>>, entityVersions: set<Uuid>, k: nat, boost: real)
    returns (fused: seq<RetrievedChunk>)
    requires k >= 1
    ensures IsFused(fused, lists, entityVersions, k, boost)
  {
    var scores: map<Uuid, real> := map[];
    var chunks: map<Uuid, RetrievedChunk> := map[];
    for i := 0 to |lists|
      invariant Tallied(AllHits(lists[..i]), k, scores, chunks)
    {
      hide Tallied, Hits;
      assert lists[..i + 1][..i] == lists[..i];
      scores, chunks := TallyList(lists[i], k, scores, chunks, AllHits(lists[..i]));
    }
    assert lists[..|lists|] == lists;
    fused := SortTallied(scores, chunks, entityVersions, boost, AllHits(lists), k);
  }

  /** The inner loop: adds one ranked list to the dictionaries. */
  method TallyList(list: seq<RetrievedChunk>, k: nat, scores0: map<Uuid, real>, chunks0: map<Uuid, RetrievedChunk>,
                   ghost before: seq<Hit>) returns (scores: map<Uuid, real>, chunks: map<Uuid, RetrievedChunk>)
    requires k >= 1 && Tallied(before, k, scores0, chunks0)
    ensures Tallied(before + Hits(list), k, scores, chunks)
  {
    hide Tallied, Term, Hits;
    scores, chunks := scores0, chunks0;
    assert before + Hits(list)[..0] == before;
    for j := 0 to |list|
      invariant Tallied(before + Hits(list)[..j], k, scores, chunks)
    {
      var candidate := list[j];
      HitsStep(before, list, j);
      TallyStep(before + Hits(list)[..j], k, scores, chunks, Hit(j + 1, candidate));
      chunks := chunks[candidate.chunkId := candidate];
      var soFar := if candidate.chunkId in scores then scores[candidate.chunkId] else 0.0;
      scores := scores[candidate.chunkId := soFar + Term(k, j + 1)];
    }
    assert Hits(list)[..|list|] == Hits(list);
  }

  lemma HitsStep(before: seq<Hit>, list: seq<RetrievedChunk>, j: nat)
    requires j < |list|
    ensures before + Hits(list)[..j + 1] == before + Hits(list)[..j] + [Hit(j + 1, list[j])]
  {
    assert Hits(list)[..j + 1] == Hits(list)[..j] + [Hits(list)[j]];
  }

  /** The return expression: the rows in the order of their totals. */
  method SortTallied(scores: map<Uuid, real>, chunks: map<Uuid, RetrievedChunk>, entityVersions: set<Uuid>, boost: real,
                     ghost hits: seq<Hit>, ghost k: nat) returns (fused: seq<RetrievedChunk>)
    requires k >= 1 && Tallied(hits, k, scores, chunks)
    ensures SortedKeys(Ids(hits), Totals(hits, entityVersions, k, boost), ChunkIds(fused))
    ensures forall i :: 0 <= i < |fused| ==> fused[i].chunkId in Ids(hits) && fused[i] == Latest(hits, fused[i].chunkId)
  {
    hide Score, Latest, Ids, Boost;
    var totals := map id | id in chunks :: scores[id] + Boost(chunks[id], entityVersions, boost);
    assert totals == Totals(hits, entityVersions, k, boost);
    var ids := SortIds(chunks.Keys, totals);
    fused := seq(|ids|, i requires 0 <= i < |ids| && ids[i] in chunks => chunks[ids[i]]);
    assert ChunkIds(fused) == ids;
  }

  /** The two dictionaries hold the scores and the latest rows of the appearances so far. */
  predicate Tallied(hits: seq<Hit>, k: nat, scores: map<Uuid, real>, chunks: map<Uuid, RetrievedChunk>)
    requires k >= 1
  {
    && scores.Keys == Ids(hits) && chunks.Keys == Ids(hits)
    && (forall id :: id in Ids(hits) ==> scores[id] == Score(hits, k, id) && chunks[id] == Latest(hits, id))
  }

  lemma {:induction false} AbsentScoresZero(hits: seq<Hit>, k: nat, id: Uuid)
    requires k >= 1 && id !in Ids(hits)
    ensures Score(hits, k, id) == 0.0
  {
    if hits != [] {
      var last := |hits| - 1;
      assert hits[last].chunk.chunkId in Ids(hits);
      assert Ids(hits[..last]) <= Ids(hits);
      AbsentScoresZero(hits[..last], k, id);
    }
  }

  lemma IdsStep(hits: seq<Hit>, hit: Hit)
    ensures Ids(hits + [hit]) == Ids(hits) + {hit.chunk.chunkId}
  {
    assert forall h :: h in hits + [hit] <==> h in hits || h == hit;
    assert hit in hits + [hit];
  }

  lemma TallyStep(hits: seq<Hit>, k: nat, scores: map<Uuid, real>, chunks: map<Uuid, RetrievedChunk>, hit: Hit)
    requires k >= 1 && Tallied(hits, k, scores, chunks)
    ensures var id := hit.chunk.chunkId;
            Tallied(hits + [hit], k, scores[id := (if id in scores then scores[id] else 0.0) + Term(k, hit.rank)],
                chunks[id := hit.chunk])
  {
    hide Term, Ids;
    var id, hits' := hit.chunk.chunkId, hits + [hit];
    IdsStep(hits, hit);
    assert hits'[..|hits'| - 1] == hits;
    if id !in Ids(hits) {
      AbsentScoresZero(hits, k, id);
    }
  }

  /** Stands for `sorted(keys, key=…)`. */
  method SortIds(keys: set<Uuid>, totals: map<Uuid, real>) returns (ids: seq<Uuid>)
    requires keys <= totals.Keys
    ensures SortedKeys(keys, totals, ids)
  {
    ids := [];
    var left := keys;
    while left != {}
      invariant left <= keys
      invariant forall id :: id in keys <==> id in left || id in ids
      invariant forall i, id :: 0 <= i < |ids| && id in left ==> Precedes(totals[ids[i]], ids[i], totals[id], id)
      invariant forall i, j :: 0 <= i < j < |ids| ==> Precedes(totals[ids[i]], ids[i], totals[ids[j]], ids[j])
      decreases |left|
    {
      var best := First(left, totals);
      ids := ids + [best];
      left := left - {best};
    }
  }

  method First(keys: set<Uuid>, totals: map<Uuid, real>) returns (best: Uuid)
    requires keys != {} && keys <= totals.Keys
    ensures best in keys && forall id :: id in keys && id != best ==> Precedes(totals[best], best, totals[id], id)
  {
    best :| best in keys;
    var left := keys - {best};
    while left != {}
      invariant left <= keys && best in keys && best !in left
      invariant forall id :: id in keys && id !in left && id != best ==> Precedes(totals[best], best, totals[id], id)
      decreases |left|
    {
      var id :| id in left;
      if Precedes(totals[id], id, totals[best], best) {
        best := id;
      }
      left := left - {id};
    }
  }
}
