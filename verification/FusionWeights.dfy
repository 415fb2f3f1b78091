/** What decides between two fused chunks: their reciprocal-rank sums over the lists, plus the boost. */
module FusionWeights {
  import opened Prelude
  import opened Fusion
  import opened FusionLaws

  /** `1 / x`, by what it means. */
  ghost predicate IsReciprocal(r: real, x: nat) {
    r * x as real == 1.0
  }

  /** The list holds no chunk twice. */
  ghost predicate NoRepeats(list: seq<RetrievedChunk>) {
    forall i, j :: 0 <= i < j < |list| ==> list[i].chunkId != list[j].chunkId
  }

  ghost predicate AllWithoutRepeats(lists: seq<seq<RetrievedChunk>>) {
    forall i :: 0 <= i < |lists| ==> NoRepeats(lists[i])
  }

  /** What one list contributes to a chunk: nothing when it does not hold it, and otherwise the reciprocal
      of `k` plus its rank, counted from one. */
  ghost predicate Contributes(list: seq<RetrievedChunk>, k: nat, id: Uuid, weight: real) {
    if exists i :: 0 <= i < |list| && list[i].chunkId == id then
      exists i :: 0 <= i < |list| && list[i].chunkId == id && IsReciprocal(weight, k + i + 1)
    else weight == 0.0
  }

  function Sum(weights: seq<real>): real {
    if weights == [] then 0.0 else Sum(weights[..|weights| - 1]) + weights[|weights| - 1]
  }

  /** `weights` are the contributions of the lists to a chunk. */
  ghost predicate AreContributions(lists: seq<seq<RetrievedChunk>>, k: nat, id: Uuid, weights: seq<real>) {
    |weights| == |lists| && forall i :: 0 <= i < |lists| ==> Contributes(lists[i], k, id, weights[i])
  }

  lemma ListContributes(list: seq<RetrievedChunk>, k: nat, id: Uuid)
    requires k >= 1 && NoRepeats(list)
    ensures Contributes(list, k, id, Score(Hits(list), k, id))
  {
    hide Score, Term;
    if i :| 0 <= i < |list| && list[i].chunkId == id {
      assert OnlyAt(list, id, i);
      OneAppearance(list, k, id, i, |list|);
      assert Hits(list)[..|list|] == Hits(list);
      assert IsReciprocal(Term(k, i + 1), k + i + 1);
    } else {
      AbsentFromList(list, k, id);
    }
  }

  /** The score of a chunk is the sum of what the lists contribute to it. */
  lemma {:induction false} ScoreIsTheSum(lists: seq<seq<RetrievedChunk>>, k: nat, id: Uuid) returns (weights: seq<real>)
    requires k >= 1 && AllWithoutRepeats(lists)
    ensures AreContributions(lists, k, id, weights) && Score(AllHits(lists), k, id) == Sum(weights)
  {
    weights := [];
    if lists != [] {
      var last := |lists| - 1;
      var before := ScoreIsTheSum(lists[..last], k, id);
      ListContributes(lists[last], k, id);
      var weight := Score(Hits(lists[last]), k, id);
      assert AllHits(lists) == AllHits(lists[..last]) + Hits(lists[last]);
      ScoreJoins(AllHits(lists[..last]), Hits(lists[last]), k, id);
      hide *;
      weights := before + [weight];
      SumStep(before, weight);
      ContributionsStep(lists, k, id, before, weight);
    }
  }

  lemma SumStep(weights: seq<real>, w: real)
    ensures Sum(weights + [w]) == Sum(weights) + w
  {
    assert (weights + [w])[..|weights|] == weights;
  }

  lemma ContributionsStep(lists: seq<seq<RetrievedChunk>>, k: nat, id: Uuid, before: seq<real>, w: real)
    requires lists != [] && AreContributions(lists[..|lists| - 1], k, id, before) && Contributes(lists[|lists| - 1], k, id, w)
    ensures AreContributions(lists, k, id, before + [w])
  {
    hide Contributes;
    forall i | 0 <= i < |lists| ensures Contributes(lists[i], k, id, (before + [w])[i]) {
      assert i < |lists| - 1 ==> lists[..|lists| - 1][i] == lists[i];
    }
  }

  /** Contributions leave no choice. */
  lemma {:induction false} ContributionsAreUnique(lists: seq<seq<RetrievedChunk>>, k: nat, id: Uuid, a: seq<real>, b: seq<real>)
    requires AllWithoutRepeats(lists)
    requires AreContributions(lists, k, id, a) && AreContributions(lists, k, id, b)
    ensures a == b
  {
    forall i | 0 <= i < |lists| ensures a[i] == b[i] {
      OneContribution(lists[i], k, id, a[i], b[i]);
    }
  }

  lemma OneContribution(list: seq<RetrievedChunk>, k: nat, id: Uuid, a: real, b: real)
    requires NoRepeats(list) && Contributes(list, k, id, a) && Contributes(list, k, id, b)
    ensures a == b
  {
    hide IsReciprocal;
    if exists i :: 0 <= i < |list| && list[i].chunkId == id {
      var i :| 0 <= i < |list| && list[i].chunkId == id && IsReciprocal(a, k + i + 1);
      var j :| 0 <= j < |list| && list[j].chunkId == id && IsReciprocal(b, k + j + 1);
      ReciprocalIsUnique(a, b, k + i + 1);
    }
  }

  lemma ReciprocalIsUnique(a: real, b: real, x: nat)
    requires IsReciprocal(a, x) && IsReciprocal(b, x)
    ensures a == b
  {
    assert a == a * (b * x as real) == b * (a * x as real);
  }

  /** The rows of a chunk agree on whether its version was matched by an entity. */
  ghost predicate Boosted(lists: seq<seq<RetrievedChunk>>, entityVersions: set<Uuid>, id: Uuid) {
    exists i, j :: 0 <= i < |lists| && 0 <= j < |lists[i]| && lists[i][j].chunkId == id && lists[i][j].versionId in entityVersions
  }

  lemma BoostIsOfTheRows(lists: seq<seq<RetrievedChunk>>, entityVersions: set<Uuid>, boost: real, id: Uuid)
    requires Consistent(AllHits(lists)) && id in Ids(AllHits(lists))
    ensures Boost(Latest(AllHits(lists), id), entityVersions, boost) == if Boosted(lists, entityVersions, id) then boost else 0.0
  {
    var hits := AllHits(lists);
    LatestIsAHit(hits, id);
    var h :| h in hits && h.chunk == Latest(hits, id);
    HitsAreRows(lists, h);
    if Boosted(lists, entityVersions, id) {
      var i, j :| 0 <= i < |lists| && 0 <= j < |lists[i]| && lists[i][j].chunkId == id && lists[i][j].versionId in entityVersions;
      RowsAreHits(lists, i, j);
    }
    hide AllHits, Latest;
  }

  lemma {:induction false} HitsAreRows(lists: seq<seq<RetrievedChunk>>, h: Hit)
    requires h in AllHits(lists)
    ensures exists i, j :: 0 <= i < |lists| && 0 <= j < |lists[i]| && lists[i][j] == h.chunk
  {
    var last := |lists| - 1;
    if h in AllHits(lists[..last]) {
      HitsAreRows(lists[..last], h);
      var i, j :| 0 <= i < last && 0 <= j < |lists[..last][i]| && lists[..last][i][j] == h.chunk;
      assert lists[i][j] == h.chunk;
    } else {
      assert h in Hits(lists[last]);
      var j :| 0 <= j < |lists[last]| && Hits(lists[last])[j] == h;
      assert lists[last][j] == h.chunk;
    }
  }

  lemma {:induction false} RowsAreHits(lists: seq<seq<RetrievedChunk>>, i: nat, j: nat)
    requires i < |lists| && j < |lists[i]|
    ensures Hit(j + 1, lists[i][j]) in AllHits(lists)
  {
    var last := |lists| - 1;
    if i < last {
      RowsAreHits(lists[..last], i, j);
    } else {
      assert Hits(lists[last])[j] == Hit(j + 1, lists[i][j]);
    }
  }

  /** The fused order, without reference to the computation: of two chunks the one with the larger sum of
      contributions plus boost stands first, and of equals the one with the smaller identifier. */
  lemma FusedOrderIsDecided(lists: seq<seq<RetrievedChunk>>, entityVersions: set<Uuid>, k: nat, boost: real,
                            fused: seq<RetrievedChunk>, a: Uuid, b: Uuid, wa: seq<real>, wb: seq<real>)
    requires k >= 1 && IsFused(fused, lists, entityVersions, k, boost) && Consistent(AllHits(lists))
    requires AllWithoutRepeats(lists)
    requires a != b && a in ChunkIds(fused) && b in ChunkIds(fused)
    requires AreContributions(lists, k, a, wa) && AreContributions(lists, k, b, wb)
    ensures var ta := Sum(wa) + if Boosted(lists, entityVersions, a) then boost else 0.0;
            var tb := Sum(wb) + if Boosted(lists, entityVersions, b) then boost else 0.0;
            Ahead(ChunkIds(fused), a, b) <==> ta > tb || (ta == tb && a < b)
  {
    var hits := AllHits(lists);
    var va := ScoreIsTheSum(lists, k, a);
    var vb := ScoreIsTheSum(lists, k, b);
    ContributionsAreUnique(lists, k, a, wa, va);
    ContributionsAreUnique(lists, k, b, wb, vb);
    hide Score, Latest, AllHits, AreContributions, NoRepeats, Boosted, Sum, Boost, Consistent;
    BoostIsOfTheRows(lists, entityVersions, boost, a);
    BoostIsOfTheRows(lists, entityVersions, boost, b);
    AheadIffPrecedes(Ids(hits), Totals(hits, entityVersions, k, boost), ChunkIds(fused), a, b);
  }

  // ---------------------------------------------------------------- several lists against one

  lemma {:induction false} SumOfEqual(weights: seq<real>, w: real)
    requires forall i :: 0 <= i < |weights| ==> weights[i] == w
    ensures Sum(weights) == |weights| as real * w
  {
    if weights != [] {
      SumOfEqual(weights[..|weights| - 1], w);
    }
  }

  lemma {:induction false} SumOfOne(weights: seq<real>, at: nat)
    requires at < |weights| && forall i :: 0 <= i < |weights| && i != at ==> weights[i] == 0.0
    ensures Sum(weights) == weights[at]
  {
    var n := |weights| - 1;
    if at < n {
      SumOfOne(weights[..n], at);
    } else {
      SumOfEqual(weights[..n], 0.0);
    }
  }

  /** Every list ranks the chunk at `rank`, counted from one. */
  ghost predicate HeldByEach(lists: seq<seq<RetrievedChunk>>, id: Uuid, rank: nat) {
    rank >= 1 && forall i :: 0 <= i < |lists| ==> rank <= |lists[i]| && lists[i][rank - 1].chunkId == id
  }

  /** List `at` ranks the chunk at `rank`, and no other list holds it. */
  ghost predicate HeldOnlyBy(lists: seq<seq<RetrievedChunk>>, id: Uuid, at: nat, rank: nat) {
    && rank >= 1 && at < |lists| && rank <= |lists[at]| && lists[at][rank - 1].chunkId == id
    && forall i, j :: 0 <= i < |lists| && i != at && 0 <= j < |lists[i]| ==> lists[i][j].chunkId != id
  }

  /** A chunk that each of `n` lists ranks at `r` comes ahead of one that a single list ranks at `s`, with the
      same boost, whenever n·(k + s) > k + r. */
  lemma ManyListsBeatOne(lists: seq<seq<RetrievedChunk>>, entityVersions: set<Uuid>, k: nat, boost: real,
                         fused: seq<RetrievedChunk>, a: Uuid, b: Uuid, r: nat, s: nat, at: nat)
    requires k >= 1 && IsFused(fused, lists, entityVersions, k, boost) && Consistent(AllHits(lists))
    requires AllWithoutRepeats(lists) && a != b && a in ChunkIds(fused) && b in ChunkIds(fused)
    requires Boosted(lists, entityVersions, a) <==> Boosted(lists, entityVersions, b)
    requires HeldByEach(lists, a, r) && HeldOnlyBy(lists, b, at, s) && |lists| * (k + s) > k + r
    ensures Ahead(ChunkIds(fused), a, b)
  {
    hide IsFused, Consistent, HeldByEach, HeldOnlyBy, Ahead, Boosted, Sum, AreContributions, AllHits, AllWithoutRepeats, Term,
         Score;
    var wa := ScoreIsTheSum(lists, k, a);
    var wb := ScoreIsTheSum(lists, k, b);
    FusedOrderIsDecided(lists, entityVersions, k, boost, fused, a, b, wa, wb);
    HeldByAll(lists, k, a, r, wa);
    HeldByOne(lists, k, b, s, at, wb);
    assert r >= 1 && s >= 1 by {
      RanksArePositive(lists, a, b, r, s, at);
    }
    LargerSum(|lists|, k, r, s, Sum(wa), Sum(wb));
  }

  lemma LargerSum(n: nat, k: nat, r: nat, s: nat, sa: real, sb: real)
    requires k >= 1 && r >= 1 && s >= 1 && n * (k + s) > k + r
    requires sa == n as real * Term(k, r) && sb == Term(k, s)
    ensures sa > sb
  {
    MoreThan(n, k + r, k + s, Term(k, r), Term(k, s));
  }

  lemma RanksArePositive(lists: seq<seq<RetrievedChunk>>, a: Uuid, b: Uuid, r: nat, s: nat, at: nat)
    requires HeldByEach(lists, a, r) && HeldOnlyBy(lists, b, at, s)
    ensures r >= 1 && s >= 1
  {
  }

  lemma WeightAt(list: seq<RetrievedChunk>, k: nat, id: Uuid, rank: nat, weight: real)
    requires k >= 1 && NoRepeats(list) && 1 <= rank <= |list| && list[rank - 1].chunkId == id && Contributes(list, k, id, weight)
    ensures weight == Term(k, rank)
  {
    assert IsReciprocal(Term(k, rank), k + (rank - 1) + 1);
    assert Contributes(list, k, id, Term(k, rank));
    OneContribution(list, k, id, weight, Term(k, rank));
  }

  lemma HeldByAll(lists: seq<seq<RetrievedChunk>>, k: nat, id: Uuid, rank: nat, weights: seq<real>)
    requires k >= 1 && AreContributions(lists, k, id, weights) && AllWithoutRepeats(lists) && HeldByEach(lists, id, rank)
    ensures Sum(weights) == |lists| as real * Term(k, rank)
  {
    hide NoRepeats, Contributes, Term;
    forall i | 0 <= i < |lists| ensures weights[i] == Term(k, rank) {
      WeightAt(lists[i], k, id, rank, weights[i]);
    }
    SumOfEqual(weights, Term(k, rank));
  }

  lemma HeldByOne(lists: seq<seq<RetrievedChunk>>, k: nat, id: Uuid, rank: nat, at: nat, weights: seq<real>)
    requires k >= 1 && AreContributions(lists, k, id, weights) && AllWithoutRepeats(lists) && HeldOnlyBy(lists, id, at, rank)
    ensures Sum(weights) == Term(k, rank)
  {
    hide NoRepeats, Term;
    WeightAt(lists[at], k, id, rank, weights[at]);
    forall i | 0 <= i < |lists| && i != at ensures weights[i] == 0.0 {
      assert Contributes(lists[i], k, id, weights[i]);
    }
    SumOfOne(weights, at);
  }

  lemma MoreThan(n: nat, x: nat, y: nat, rx: real, ry: real)
    requires x >= 1 && y >= 1 && n * y > x && rx * x as real == 1.0 && ry * y as real == 1.0
    ensures n as real * rx > ry
  {
    var u, v := x as real, y as real;
    assert (n * y) as real == n as real * v > u;
    assert rx > 0.0 && ry > 0.0;
    assert n as real * rx - ry == (n as real * v - u) * rx * ry;
  }

  // ---------------------------------------------------------------- which row stands for a chunk

  /** The fused row of a chunk is its row in the last list that holds it. */
  lemma LastListSuppliesTheRow(lists: seq<seq<RetrievedChunk>>, entityVersions: set<Uuid>, k: nat, boost: real,
                               fused: seq<RetrievedChunk>, f: nat, i: nat, j: nat)
    requires k >= 1 && IsFused(fused, lists, entityVersions, k, boost) && f < |fused|
    requires i < |lists| && NoRepeats(lists[i]) && j < |lists[i]| && lists[i][j].chunkId == fused[f].chunkId
    requires forall m, n :: i < m < |lists| && 0 <= n < |lists[m]| ==> lists[m][n].chunkId != fused[f].chunkId
    ensures fused[f] == lists[i][j]
  {
    LatestOfLists(lists, i, j);
  }

  lemma {:induction false} LatestOfLists(lists: seq<seq<RetrievedChunk>>, i: nat, j: nat)
    requires i < |lists| && NoRepeats(lists[i]) && j < |lists[i]|
    requires forall m, n :: i < m < |lists| && 0 <= n < |lists[m]| ==> lists[m][n].chunkId != lists[i][j].chunkId
    ensures lists[i][j].chunkId in Ids(AllHits(lists)) && Latest(AllHits(lists), lists[i][j].chunkId) == lists[i][j]
  {
    var last, id := |lists| - 1, lists[i][j].chunkId;
    RowsAreHits(lists, i, j);
    if i < last {
      LatestOfLists(lists[..last], i, j);
      assert forall h :: h in Hits(lists[last]) ==> h.chunk.chunkId != id;
      LatestSkips(AllHits(lists[..last]), Hits(lists[last]), id);
    } else {
      LatestInList(AllHits(lists[..last]), lists[last], j, |lists[last]|);
      assert Hits(lists[last])[..|lists[last]|] == Hits(lists[last]);
    }
  }

  lemma {:induction false} LatestSkips(before: seq<Hit>, after: seq<Hit>, id: Uuid)
    requires id in Ids(before) && forall h :: h in after ==> h.chunk.chunkId != id
    ensures id in Ids(before + after) && Latest(before + after, id) == Latest(before, id)
  {
    IdsJoin(before, after);
    if after == [] {
      assert before + after == before;
    } else {
      var front, last := after[..|after| - 1], after[|after| - 1];
      LatestSkips(before, front, id);
      assert (before + after)[..|before + after| - 1] == before + front && last in after;
    }
  }

  lemma {:induction false} LatestInList(before: seq<Hit>, list: seq<RetrievedChunk>, j: nat, n: nat)
    requires j < n <= |list| && NoRepeats(list)
    ensures list[j].chunkId in Ids(before + Hits(list)[..n]) && Latest(before + Hits(list)[..n], list[j].chunkId) == list[j]
    decreases n
  {
    var all := before + Hits(list)[..n];
    assert all[|all| - 1] == Hit(n, list[n - 1]) && all[..|all| - 1] == before + Hits(list)[..n - 1];
    if j < n - 1 {
      LatestInList(before, list, j, n - 1);
      IdsStep(before + Hits(list)[..n - 1], Hit(n, list[n - 1]));
      assert all == before + Hits(list)[..n - 1] + [Hit(n, list[n - 1])];
    } else {
      assert all[|all| - 1] in all;
    }
  }
}
