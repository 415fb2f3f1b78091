/** What fusion guarantees whatever the candidate lists: one determined order, independent of the order
    of the lists, respectful of unanimous rankings, and only softly touched by the entity boost. */
module FusionLaws {
  import opened Prelude
  import opened Fusion

  // ---------------------------------------------------------------- the order is determined

  /** `a` comes somewhere before `b`. */
  ghost predicate Ahead(ids: seq<Uuid>, a: Uuid, b: Uuid) {
    exists i, j :: 0 <= i < j < |ids| && ids[i] == a && ids[j] == b
  }

  lemma SortedIsDistinct(keys: set<Uuid>, totals: map<Uuid, real>, ids: seq<Uuid>)
    requires SortedKeys(keys, totals, ids)
    ensures Distinct(ids)
  {
    forall i, j | 0 <= i < j < |ids| ensures ids[i] != ids[j] {
      assert Precedes(totals[ids[i]], ids[i], totals[ids[j]], ids[j]);
    }
  }

  /** In a sorted listing, one key comes before another exactly when its total says so. */
  lemma AheadIffPrecedes(keys: set<Uuid>, totals: map<Uuid, real>, ids: seq<Uuid>, a: Uuid, b: Uuid)
    requires SortedKeys(keys, totals, ids) && a in keys && b in keys && a != b
    ensures Ahead(ids, a, b) <==> Precedes(totals[a], a, totals[b], b)
  {
    var i :| 0 <= i < |ids| && ids[i] == a;
    var j :| 0 <= j < |ids| && ids[j] == b;
    if i < j {
      assert Ahead(ids, a, b);
      assert Precedes(totals[ids[i]], ids[i], totals[ids[j]], ids[j]);
    } else {
      assert Precedes(totals[ids[j]], ids[j], totals[ids[i]], ids[i]);
      if Ahead(ids, a, b) {
        var i', j' :| 0 <= i' < j' < |ids| && ids[i'] == a && ids[j'] == b;
        assert Precedes(totals[ids[i']], ids[i'], totals[ids[j']], ids[j']);
      }
    }
  }

  /** There is only one sorted listing. */
  lemma {:induction false} SortedIsUnique(keys: set<Uuid>, totals: map<Uuid, real>, ids: seq<Uuid>, ids': seq<Uuid>)
    requires SortedKeys(keys, totals, ids) && SortedKeys(keys, totals, ids')
    ensures ids == ids'
    decreases |ids|
  {
    SortedIsDistinct(keys, totals, ids);
    SortedIsDistinct(keys, totals, ids');
    EmptyListing(keys, totals, ids);
    EmptyListing(keys, totals, ids');
    if keys != {} {
      SameFirst(keys, totals, ids, ids');
      TailIsSorted(keys, totals, ids);
      TailIsSorted(keys, totals, ids');
      SortedIsUnique(keys - {ids[0]}, totals, ids[1..], ids'[1..]);
      assert ids == [ids[0]] + ids[1..] && ids' == [ids'[0]] + ids'[1..];
    }
  }

  lemma EmptyListing(keys: set<Uuid>, totals: map<Uuid, real>, ids: seq<Uuid>)
    requires SortedKeys(keys, totals, ids)
    ensures ids == [] <==> keys == {}
  {
    if ids != [] {
      assert ids[0] in keys;
    }
  }

  lemma SameFirst(keys: set<Uuid>, totals: map<Uuid, real>, ids: seq<Uuid>, ids': seq<Uuid>)
    requires SortedKeys(keys, totals, ids) && SortedKeys(keys, totals, ids') && ids != [] && ids' != []
    ensures ids[0] == ids'[0]
  {
    assert ids[0] in ids' && ids'[0] in ids;
    var i :| 0 <= i < |ids'| && ids'[i] == ids[0];
    var j :| 0 <= j < |ids| && ids[j] == ids'[0];
    assert i > 0 ==> Precedes(totals[ids'[0]], ids'[0], totals[ids'[i]], ids'[i]);
    assert j > 0 ==> Precedes(totals[ids[0]], ids[0], totals[ids[j]], ids[j]);
  }

  lemma TailIsSorted(keys: set<Uuid>, totals: map<Uuid, real>, ids: seq<Uuid>)
    requires SortedKeys(keys, totals, ids) && ids != [] && Distinct(ids)
    ensures SortedKeys(keys - {ids[0]}, totals, ids[1..])
  {
    forall id ensures id in ids[1..] <==> id in keys - {ids[0]} {
      if id in keys - {ids[0]} {
        var i :| 0 <= i < |ids| && ids[i] == id;
        assert ids[1..][i - 1] == id;
      }
    }
  }

  /** Fusion decides everything: its result is determined by the lists, the boost and `k`, holds the
      union of the lists, and holds no chunk twice. */
  lemma FusionIsDetermined(lists: seq<seq<RetrievedChunk>>, entityVersions: set<Uuid>, k: nat, boost: real,
                           fused: seq<RetrievedChunk>, fused': seq<RetrievedChunk>)
    requires k >= 1 && IsFused(fused, lists, entityVersions, k, boost) && IsFused(fused', lists, entityVersions, k, boost)
    ensures fused == fused' && Distinct(ChunkIds(fused))
    ensures forall id :: id in ChunkIds(fused) <==>
              exists i, j :: 0 <= i < |lists| && 0 <= j < |lists[i]| && lists[i][j].chunkId == id
  {
    hide Score, Latest, Total, Precedes;
    var hits := AllHits(lists);
    SortedIsUnique(Ids(hits), Totals(hits, entityVersions, k, boost), ChunkIds(fused), ChunkIds(fused'));
    SortedIsDistinct(Ids(hits), Totals(hits, entityVersions, k, boost), ChunkIds(fused));
    assert |fused| == |ChunkIds(fused)| == |fused'|;
    forall i | 0 <= i < |fused| ensures fused[i] == fused'[i] {
      assert fused[i].chunkId == ChunkIds(fused)[i] == fused'[i].chunkId;
    }
    forall id ensures id in Ids(hits) <==>
              exists i, j :: 0 <= i < |lists| && 0 <= j < |lists[i]| && lists[i][j].chunkId == id {
      UnionOfLists(lists, id);
    }
  }

  lemma {:induction false} UnionOfLists(lists: seq<seq<RetrievedChunk>>, id: Uuid)
    ensures id in Ids(AllHits(lists)) <==>
              exists i, j :: 0 <= i < |lists| && 0 <= j < |lists[i]| && lists[i][j].chunkId == id
  {
    if lists != [] {
      var last := |lists| - 1;
      UnionOfLists(lists[..last], id);
      IdsJoin(AllHits(lists[..last]), Hits(lists[last]));
      if id in Ids(Hits(lists[last])) {
        var h :| h in Hits(lists[last]) && h.chunk.chunkId == id;
        assert lists[last][h.rank - 1].chunkId == id;
      }
      if j :| 0 <= j < |lists[last]| && lists[last][j].chunkId == id {
        assert Hits(lists[last])[j] in Hits(lists[last]);
      }
    }
  }

  lemma IdsJoin(a: seq<Hit>, b: seq<Hit>)
    ensures Ids(a + b) == Ids(a) + Ids(b)
  {
    assert forall h :: h in a + b <==> h in a || h in b;
  }

  // ---------------------------------------------------------------- the order of the lists

  /** The score of a chunk, as a sum over appearances, adds up over concatenation. */
  lemma {:induction false} ScoreJoins(a: seq<Hit>, b: seq<Hit>, k: nat, id: Uuid)
    requires k >= 1
    ensures Score(a + b, k, id) == Score(a, k, id) + Score(b, k, id)
  {
    if b == [] {
      assert a + b == a;
    } else {
      var last := |b| - 1;
      assert (a + b)[..|a + b| - 1] == a + b[..last];
      ScoreJoins(a, b[..last], k, id);
    }
  }

  /** Appearances may be summed in any order. */
  lemma {:induction false} ScoreIgnoresOrder(a: seq<Hit>, b: seq<Hit>, k: nat, id: Uuid)
    requires k >= 1 && multiset(a) == multiset(b)
    ensures Score(a, k, id) == Score(b, k, id)
    decreases |a|
  {
    if a == [] {
      assert |b| == |multiset(b)| == 0;
    } else {
      var last := a[|a| - 1];
      var i := TakeOut(a, b);
      var without := b[..i] + b[i + 1..];
      assert b == b[..i] + ([last] + b[i + 1..]);
      ScoreIgnoresOrder(a[..|a| - 1], without, k, id);
      ScoreJoins(b[..i], [last] + b[i + 1..], k, id);
      ScoreJoins([last], b[i + 1..], k, id);
      ScoreJoins(b[..i], b[i + 1..], k, id);
      ScoreJoins(a[..|a| - 1], [last], k, id);
      hide Score;
      assert a == a[..|a| - 1] + [last];
    }
  }

  /** Rows of the same chunk agree on the document version it belongs to. */
  ghost predicate Consistent(hits: seq<Hit>) {
    forall g, h :: g in hits && h in hits && g.chunk.chunkId == h.chunk.chunkId ==> g.chunk.versionId == h.chunk.versionId
  }

  lemma {:induction false} LatestIsAHit(hits: seq<Hit>, id: Uuid)
    requires id in Ids(hits)
    ensures exists h :: h in hits && h.chunk == Latest(hits, id)
  {
    var last := |hits| - 1;
    if hits[last].chunk.chunkId != id {
      LatestIsAHit(hits[..last], id);
    }
  }

  lemma SameTotals(a: seq<Hit>, b: seq<Hit>, entityVersions: set<Uuid>, k: nat, boost: real)
    requires k >= 1 && multiset(a) == multiset(b) && Consistent(a)
    ensures Ids(a) == Ids(b) && Totals(a, entityVersions, k, boost) == Totals(b, entityVersions, k, boost)
  {
    assert forall h :: h in a <==> h in multiset(a);
    assert forall h :: h in b <==> h in multiset(b);
    hide Score, Latest;
    assert Ids(a) == Ids(b);
    forall id | id in Ids(a) ensures Total(a, entityVersions, k, boost, id) == Total(b, entityVersions, k, boost, id) {
      ScoreIgnoresOrder(a, b, k, id);
      LatestIsAHit(a, id);
      LatestIsAHit(b, id);
    }
  }

  /** Reordering the lists reorders nothing: the fused order of identifiers stays the same. */
  lemma FusionIgnoresListOrder(lists: seq<seq<RetrievedChunk>>, lists': seq<seq<RetrievedChunk>>,
                               entityVersions: set<Uuid>, k: nat, boost: real, fused: seq<RetrievedChunk>,
                               fused': seq<RetrievedChunk>)
    requires k >= 1 && multiset(lists) == multiset(lists') && Consistent(AllHits(lists))
    requires IsFused(fused, lists, entityVersions, k, boost) && IsFused(fused', lists', entityVersions, k, boost)
    ensures ChunkIds(fused) == ChunkIds(fused')
  {
    HitsIgnoreListOrder(lists, lists');
    SameTotals(AllHits(lists), AllHits(lists'), entityVersions, k, boost);
    hide Totals, Ids, Hits, AllHits, SortedKeys;
    SortedIsUnique(Ids(AllHits(lists)), Totals(AllHits(lists), entityVersions, k, boost), ChunkIds(fused), ChunkIds(fused'));
  }

  lemma {:induction false} HitsJoin(a: seq<seq<RetrievedChunk>>, b: seq<seq<RetrievedChunk>>)
    ensures AllHits(a + b) == AllHits(a) + AllHits(b)
  {
    if b == [] {
      assert a + b == a;
    } else {
      var last := |b| - 1;
      assert (a + b)[..|a + b| - 1] == a + b[..last];
      HitsJoin(a, b[..last]);
    }
  }

  lemma {:induction false} HitsIgnoreListOrder(a: seq<seq<RetrievedChunk>>, b: seq<seq<RetrievedChunk>>)
    requires multiset(a) == multiset(b)
    ensures multiset(AllHits(a)) == multiset(AllHits(b))
    decreases |a|
  {
    if a == [] {
      assert |b| == |multiset(b)| == 0;
    } else {
      var last := a[|a| - 1];
      var i := TakeOut(a, b);
      var without := b[..i] + b[i + 1..];
      assert b == b[..i] + ([last] + b[i + 1..]);
      HitsIgnoreListOrder(a[..|a| - 1], without);
      HitsJoin(b[..i], [last] + b[i + 1..]);
      HitsJoin([last], b[i + 1..]);
      HitsJoin(b[..i], b[i + 1..]);
      assert AllHits([last]) == Hits(last) by {
        assert [last][..0] == [];
      }
    }
  }

  // ---------------------------------------------------------------- unanimous rankings

  /** `id` is at position `i` of a list and nowhere else in it. */
  ghost predicate OnlyAt(list: seq<RetrievedChunk>, id: Uuid, i: nat) {
    i < |list| && list[i].chunkId == id && forall j :: 0 <= j < |list| && j != i ==> list[j].chunkId != id
  }

  ghost predicate Holds(list: seq<RetrievedChunk>, id: Uuid) {
    exists i :: 0 <= i < |list| && list[i].chunkId == id
  }

  /** Every list that holds `b` ranks `a` ahead of it. */
  ghost predicate RanksAhead(list: seq<RetrievedChunk>, a: Uuid, b: Uuid) {
    Holds(list, b) ==> exists i, j :: 0 <= i < j < |list| && OnlyAt(list, a, i) && OnlyAt(list, b, j)
  }

  lemma {:induction false} OneAppearance(list: seq<RetrievedChunk>, k: nat, id: Uuid, i: nat, n: nat)
    requires k >= 1 && OnlyAt(list, id, i) && n <= |list|
    ensures Score(Hits(list)[..n], k, id) == if i < n then Term(k, i + 1) else 0.0
    decreases n
  {
    if n > 0 {
      assert Hits(list)[..n][..n - 1] == Hits(list)[..n - 1];
      OneAppearance(list, k, id, i, n - 1);
    }
  }

  lemma LaterRankWeighsLess(k: nat, rank: nat, later: nat)
    requires k >= 1 && rank < later
    ensures Term(k, rank) > Term(k, later)
  {
    var x, y := (k + rank) as real, (k + later) as real;
    assert 1.0 / x - 1.0 / y == (y - x) / (x * y);
  }

  lemma AbsentFromList(list: seq<RetrievedChunk>, k: nat, id: Uuid)
    requires k >= 1 && !Holds(list, id)
    ensures Score(Hits(list), k, id) == 0.0
  {
    forall h | h in Hits(list) ensures h.chunk.chunkId != id {
      assert list[h.rank - 1].chunkId != id;
    }
    AbsentScoresZero(Hits(list), k, id);
  }

  lemma ListFavours(list: seq<RetrievedChunk>, k: nat, a: Uuid, b: Uuid)
    requires k >= 1 && RanksAhead(list, a, b)
    ensures Score(Hits(list), k, a) >= Score(Hits(list), k, b)
    ensures Holds(list, b) ==> Score(Hits(list), k, a) > Score(Hits(list), k, b)
  {
    hide Score, Term;
    if Holds(list, b) {
      var i, j :| 0 <= i < j < |list| && OnlyAt(list, a, i) && OnlyAt(list, b, j);
      assert Hits(list)[..|list|] == Hits(list);
      hide OnlyAt, Hits;
      OneAppearance(list, k, a, i, |list|);
      OneAppearance(list, k, b, j, |list|);
      LaterRankWeighsLess(k, i + 1, j + 1);
    } else {
      AbsentFromList(list, k, b);
    }
  }

  lemma {:induction false} ListsFavour(lists: seq<seq<RetrievedChunk>>, k: nat, a: Uuid, b: Uuid)
    requires k >= 1 && forall i :: 0 <= i < |lists| ==> RanksAhead(lists[i], a, b)
    ensures Score(AllHits(lists), k, a) >= Score(AllHits(lists), k, b)
    ensures (exists i :: 0 <= i < |lists| && Holds(lists[i], b)) ==>
        Score(AllHits(lists), k, a) > Score(AllHits(lists), k, b)
  {
    if lists != [] {
      var last := |lists| - 1;
      ListsFavour(lists[..last], k, a, b);
      ListFavours(lists[last], k, a, b);
      ScoreJoins(AllHits(lists[..last]), Hits(lists[last]), k, a);
      ScoreJoins(AllHits(lists[..last]), Hits(lists[last]), k, b);
      hide Score, RanksAhead, Hits;
      forall i | 0 <= i < |lists| && Holds(lists[i], b) && i != last ensures Holds(lists[..last][i], b) {
      }
    }
  }

  /** A chunk that every list holding another one ranks ahead of it, with the same boost, comes first. */
  lemma UnanimousRankingWins(lists: seq<seq<RetrievedChunk>>, entityVersions: set<Uuid>, k: nat, boost: real,
                             fused: seq<RetrievedChunk>, a: Uuid, b: Uuid)
    requires k >= 1 && IsFused(fused, lists, entityVersions, k, boost) && a != b
    requires forall i :: 0 <= i < |lists| ==> RanksAhead(lists[i], a, b)
    requires a in ChunkIds(fused) && b in ChunkIds(fused)
    requires Boost(Latest(AllHits(lists), a), entityVersions, boost)
        == Boost(Latest(AllHits(lists), b), entityVersions, boost)
    ensures Ahead(ChunkIds(fused), a, b)
  {
    var hits := AllHits(lists);
    ListsFavour(lists, k, a, b);
    UnionOfLists(lists, b);
    hide Score, Latest, RanksAhead, AllHits, Boost;
    var i, j :| 0 <= i < |lists| && 0 <= j < |lists[i]| && lists[i][j].chunkId == b;
    assert Holds(lists[i], b);
    AheadIffPrecedes(Ids(hits), Totals(hits, entityVersions, k, boost), ChunkIds(fused), a, b);
  }

  // ---------------------------------------------------------------- the soft boost

  /** The boost neither adds nor drops a chunk, and two chunks that are both boosted, or both not, keep
      the order they have without any boost. */
  lemma BoostOnlyMovesClasses(lists: seq<seq<RetrievedChunk>>, entityVersions: set<Uuid>, k: nat, boost: real,
                              fused: seq<RetrievedChunk>, plain: seq<RetrievedChunk>, a: Uuid, b: Uuid)
    requires k >= 1 && IsFused(fused, lists, entityVersions, k, boost) && IsFused(plain, lists, {}, k, boost)
    ensures forall id :: id in ChunkIds(fused) <==> id in ChunkIds(plain)
    ensures a != b && a in ChunkIds(fused) && b in ChunkIds(fused)
            && (Latest(AllHits(lists), a).versionId in entityVersions
                <==> Latest(AllHits(lists), b).versionId in entityVersions)
            ==> (Ahead(ChunkIds(fused), a, b) <==> Ahead(ChunkIds(plain), a, b))
  {
    var hits := AllHits(lists);
    hide Score, Latest, AllHits;
    if a != b && a in ChunkIds(fused) && b in ChunkIds(fused) {
      AheadIffPrecedes(Ids(hits), Totals(hits, entityVersions, k, boost), ChunkIds(fused), a, b);
      AheadIffPrecedes(Ids(hits), Totals(hits, {}, k, boost), ChunkIds(plain), a, b);
    }
  }
}
