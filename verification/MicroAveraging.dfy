/** Aggregation over cases: one row per key, totals conserved, independent of the order of the cases,
    and never outside the range of the averaged values. */
module MicroAveraging {
  import opened Prelude
  import opened Scoring
  import opened ScoringLaws

  /** What the aggregation promises of its rows. */
  ghost predicate IsAggregate(rows: seq<ScoredMetric>, metrics: seq<ScoredMetric>) {
    && Distinct(Keys(rows))
    && Elements(Keys(rows)) == Elements(Keys(metrics))
    && forall i :: 0 <= i < |rows| ==> Averages(rows[i], metrics)
  }

  lemma AggregationIsAggregate(rows: seq<ScoredMetric>, metrics: seq<ScoredMetric>)
    requires Keys(rows) == Dedup(Keys(metrics)) && forall i :: 0 <= i < |rows| ==> Averages(rows[i], metrics)
    ensures IsAggregate(rows, metrics)
  {
    hide Dedup, Averages;
    assert Elements(Dedup(Keys(metrics))) == Elements(Keys(metrics));
  }

  // ---------------------------------------------------------------- conservation

  function Without(metrics: seq<ScoredMetric>, key: Key): (rest: seq<ScoredMetric>)
    ensures forall m :: m in rest <==> m in metrics && KeyOf(m) != key
  {
    if metrics == [] then []
    else
      var front, last := metrics[..|metrics| - 1], metrics[|metrics| - 1];
      assert metrics == front + [last];
      Without(front, key) + if KeyOf(last) == key then [] else [last]
  }

  lemma SumStep(metrics: seq<ScoredMetric>, m: ScoredMetric)
    ensures Numerators(metrics + [m]) == Numerators(metrics) + m.numerator
    ensures Denominators(metrics + [m]) == Denominators(metrics) + m.denominator
  {
    assert (metrics + [m])[..|metrics|] == metrics;
  }

  lemma SplitStep(metrics: seq<ScoredMetric>, m: ScoredMetric, key: Key)
    ensures KeyOf(m) == key ==>
              Group(metrics + [m], key) == Group(metrics, key) + [m] && Without(metrics + [m], key) == Without(metrics, key)
    ensures KeyOf(m) != key ==>
              Group(metrics + [m], key) == Group(metrics, key) && Without(metrics + [m], key) == Without(metrics, key) + [m]
  {
    assert (metrics + [m])[..|metrics|] == metrics;
  }

  lemma {:induction false} SumSplits(metrics: seq<ScoredMetric>, key: Key)
    ensures Numerators(metrics) == Numerators(Group(metrics, key)) + Numerators(Without(metrics, key))
    ensures Denominators(metrics) == Denominators(Group(metrics, key)) + Denominators(Without(metrics, key))
  {
    if metrics != [] {
      var front, last := metrics[..|metrics| - 1], metrics[|metrics| - 1];
      hide *;
      assert metrics == front + [last];
      SumSplits(front, key);
      SplitStep(front, last, key);
      SumStep(front, last);
      SumStep(Group(front, key), last);
      SumStep(Without(front, key), last);
    }
  }

  lemma {:induction false} OtherGroupsStay(metrics: seq<ScoredMetric>, key: Key, other: Key)
    requires key != other
    ensures Group(Without(metrics, key), other) == Group(metrics, other)
  {
    if metrics != [] {
      var front, last := metrics[..|metrics| - 1], metrics[|metrics| - 1];
      hide *;
      assert metrics == front + [last];
      OtherGroupsStay(front, key, other);
      SplitStep(front, last, key);
      SplitStep(front, last, other);
      SplitStep(Without(front, key), last, other);
    }
  }

  lemma WithoutKeys(metrics: seq<ScoredMetric>, key: Key)
    ensures Elements(Keys(Without(metrics, key))) == Elements(Keys(metrics)) - {key}
  {
    forall other ensures other in Keys(Without(metrics, key)) <==> other in Keys(metrics) && other != key {
      GroupPresent(metrics, other);
      GroupPresent(Without(metrics, key), other);
      if other != key {
        OtherGroupsStay(metrics, key, other);
      } else {
        NothingLeft(metrics, key);
      }
    }
  }

  lemma {:induction false} NothingLeft(metrics: seq<ScoredMetric>, key: Key)
    ensures Group(Without(metrics, key), key) == []
  {
    if metrics != [] {
      var front, last := metrics[..|metrics| - 1], metrics[|metrics| - 1];
      hide *;
      assert metrics == front + [last];
      NothingLeft(front, key);
      SplitStep(front, last, key);
      SplitStep(Without(front, key), last, key);
    }
  }

  lemma LastRow(rows: seq<ScoredMetric>, metrics: seq<ScoredMetric>)
    requires IsAggregate(rows, metrics) && rows != []
    ensures IsAggregate(rows[..|rows| - 1], Without(metrics, KeyOf(rows[|rows| - 1])))
  {
    var front, last := rows[..|rows| - 1], rows[|rows| - 1];
    var key := KeyOf(last);
    hide Group, Without, Numerators, Denominators, Ratio;
    assert Keys(rows) == Keys(front) + [key] && forall i :: 0 <= i < |front| ==> Keys(front)[i] == Keys(rows)[i];
    assert Keys(rows)[|front|] == key;
    assert key !in Keys(front);
    WithoutKeys(metrics, key);
    assert Elements(Keys(front)) == Elements(Keys(rows)) - {key};
    forall i | 0 <= i < |front| ensures Averages(front[i], Without(metrics, key)) {
      assert Averages(rows[i], metrics) && KeyOf(rows[i]) == Keys(front)[i] && Keys(front)[i] in Keys(front);
      OtherGroupsStay(metrics, key, KeyOf(rows[i]));
    }
  }

  lemma NoRows(rows: seq<ScoredMetric>, metrics: seq<ScoredMetric>)
    requires IsAggregate(rows, metrics)
    ensures rows == [] ==> metrics == []
  {
    if metrics != [] {
      assert Keys(metrics)[0] in Elements(Keys(rows));
    }
  }

  /** Aggregation neither loses nor invents a count. */
  lemma {:induction false} TotalsAreConserved(rows: seq<ScoredMetric>, metrics: seq<ScoredMetric>)
    requires IsAggregate(rows, metrics)
    ensures Numerators(rows) == Numerators(metrics) && Denominators(rows) == Denominators(metrics)
    decreases |rows|
  {
    NoRows(rows, metrics);
    if rows != [] {
      var last := rows[|rows| - 1];
      LastRow(rows, metrics);
      TotalsAreConserved(rows[..|rows| - 1], Without(metrics, KeyOf(last)));
      SumSplits(metrics, KeyOf(last));
      hide IsAggregate, Group, Without;
      assert Averages(last, metrics);
    }
  }

  // ---------------------------------------------------------------- the number of cases behind a row

  predicate HasKey(metrics: seq<ScoredMetric>, key: Key) {
    exists m :: m in metrics && KeyOf(m) == key
  }

  /** How many cases contribute to a row. */
  function CaseCount(cases: seq<seq<ScoredMetric>>, key: Key): nat {
    if cases == [] then 0
    else CaseCount(cases[..|cases| - 1], key) + if HasKey(cases[|cases| - 1], key) then 1 else 0
  }

  lemma Associates(a: seq<ScoredMetric>, b: seq<ScoredMetric>, c: seq<ScoredMetric>)
    ensures a + (b + c) == (a + b) + c
  {
  }

  lemma GroupJoinsOne(a: seq<ScoredMetric>, b: seq<ScoredMetric>, m: ScoredMetric, key: Key)
    requires Group(a + b, key) == Group(a, key) + Group(b, key)
    ensures Group(a + (b + [m]), key) == Group(a, key) + Group(b + [m], key)
  {
    hide *;
    Associates(a, b, [m]);
    SplitStep(a + b, m, key);
    SplitStep(b, m, key);
    if KeyOf(m) == key {
      Associates(Group(a, key), Group(b, key), [m]);
    }
  }

  lemma {:induction false} GroupJoins(a: seq<ScoredMetric>, b: seq<ScoredMetric>, key: Key)
    ensures Group(a + b, key) == Group(a, key) + Group(b, key)
  {
    if b == [] {
      assert a + b == a;
    } else {
      var front, last := b[..|b| - 1], b[|b| - 1];
      assert b == front + [last];
      hide *;
      GroupJoins(a, front, key);
      GroupJoinsOne(a, front, last, key);
    }
  }

  lemma HasKeyStep(metrics: seq<ScoredMetric>, m: ScoredMetric, key: Key)
    ensures HasKey(metrics + [m], key) <==> HasKey(metrics, key) || KeyOf(m) == key
  {
    assert m in metrics + [m];
  }

  lemma {:induction false} AtMostOne(metrics: seq<ScoredMetric>, key: Key)
    requires Distinct(Keys(metrics))
    ensures |Group(metrics, key)| == if HasKey(metrics, key) then 1 else 0
  {
    if metrics != [] {
      var front, last := metrics[..|metrics| - 1], metrics[|metrics| - 1];
      assert metrics == front + [last];
      NewKey(metrics);
      hide KeyOf, HasKey, Group, Keys, Distinct;
      AtMostOne(front, key);
      SplitStep(front, last, key);
      HasKeyStep(front, last, key);
    }
  }

  lemma NewKey(metrics: seq<ScoredMetric>)
    requires metrics != [] && Distinct(Keys(metrics))
    ensures Distinct(Keys(metrics[..|metrics| - 1])) && !HasKey(metrics[..|metrics| - 1], KeyOf(metrics[|metrics| - 1]))
  {
    var n := |metrics| - 1;
    assert forall i :: 0 <= i < n ==> Keys(metrics[..n])[i] == Keys(metrics)[i];
    forall m | m in metrics[..n] ensures KeyOf(m) != KeyOf(metrics[n]) {
      var i :| 0 <= i < n && metrics[i] == m;
      assert Keys(metrics)[i] != Keys(metrics)[n];
    }
  }

  /** The reported case count is the number of averaged values. */
  lemma {:induction false} CaseCountIsGroupSize(cases: seq<seq<ScoredMetric>>, key: Key)
    requires forall i :: 0 <= i < |cases| ==> Distinct(Keys(cases[i]))
    ensures CaseCount(cases, key) == |Group(AllMetrics(cases), key)|
  {
    if cases != [] {
      var front, last := cases[..|cases| - 1], cases[|cases| - 1];
      CaseCountIsGroupSize(front, key);
      AtMostOne(last, key);
      GroupJoins(AllMetrics(front), last, key);
    }
  }

  // ---------------------------------------------------------------- the order of the cases

  lemma {:induction false} CasesJoin(a: seq<seq<ScoredMetric>>, b: seq<seq<ScoredMetric>>)
    ensures AllMetrics(a + b) == AllMetrics(a) + AllMetrics(b)
  {
    if b == [] {
      assert a + b == a;
    } else {
      assert (a + b)[..|a + b| - 1] == a + b[..|b| - 1];
      CasesJoin(a, b[..|b| - 1]);
    }
  }

  lemma {:induction false} ReorderedCases(a: seq<seq<ScoredMetric>>, b: seq<seq<ScoredMetric>>)
    requires multiset(a) == multiset(b)
    ensures multiset(AllMetrics(a)) == multiset(AllMetrics(b))
    decreases |a|
  {
    if a == [] {
      assert |b| == |multiset(b)| == 0;
    } else {
      var last := a[|a| - 1];
      var i := TakeOut(a, b);
      assert b == b[..i] + ([last] + b[i + 1..]);
      ReorderedCases(a[..|a| - 1], b[..i] + b[i + 1..]);
      CasesJoin(b[..i], [last] + b[i + 1..]);
      CasesJoin([last], b[i + 1..]);
      CasesJoin(b[..i], b[i + 1..]);
      assert AllMetrics([last]) == last by {
        assert [last][..0] == [];
      }
    }
  }

  lemma {:induction false} GroupAsMultiset(metrics: seq<ScoredMetric>, key: Key, m: ScoredMetric)
    ensures multiset(Group(metrics, key))[m] == if KeyOf(m) == key then multiset(metrics)[m] else 0
  {
    if metrics != [] {
      var front, last := metrics[..|metrics| - 1], metrics[|metrics| - 1];
      assert metrics == front + [last];
      GroupAsMultiset(front, key, m);
    }
  }

  lemma {:induction false} SumsIgnoreOrder(a: seq<ScoredMetric>, b: seq<ScoredMetric>)
    requires multiset(a) == multiset(b)
    ensures Numerators(a) == Numerators(b) && Denominators(a) == Denominators(b) && |a| == |b|
    decreases |a|
  {
    assert |multiset(a)| == |multiset(b)|;
    if a != [] {
      var last := a[|a| - 1];
      var i := TakeOut(a, b);
      SumsIgnoreOrder(a[..|a| - 1], b[..i] + b[i + 1..]);
      SumOut(b, i);
    }
  }

  lemma {:induction false} SumOut(b: seq<ScoredMetric>, i: nat)
    requires i < |b|
    ensures Numerators(b) == Numerators(b[..i] + b[i + 1..]) + b[i].numerator
    ensures Denominators(b) == Denominators(b[..i] + b[i + 1..]) + b[i].denominator
  {
    var front, last := b[..|b| - 1], b[|b| - 1];
    if i < |b| - 1 {
      SumOut(front, i);
      SumStep(front[..i] + front[i + 1..], last);
      assert b[..i] + b[i + 1..] == front[..i] + front[i + 1..] + [last];
      assert front[i] == b[i];
    } else {
      assert b[..i] + b[i + 1..] == front;
    }
  }

  /** Reordering the cases changes at most the order of the rows. */
  lemma AggregationIgnoresCaseOrder(cases: seq<seq<ScoredMetric>>, cases': seq<seq<ScoredMetric>>,
                                    rows: seq<ScoredMetric>, rows': seq<ScoredMetric>)
    requires multiset(cases) == multiset(cases')
    requires IsAggregate(rows, AllMetrics(cases)) && IsAggregate(rows', AllMetrics(cases'))
    ensures |rows| == |rows'| && forall row :: row in rows ==> row in rows'
  {
    var a, b := AllMetrics(cases), AllMetrics(cases');
    ReorderedCases(cases, cases');
    hide AllMetrics, Group, Numerators, Denominators, Ratio;
    SameKeys(a, b);
    DistinctCount(Keys(rows));
    DistinctCount(Keys(rows'));
    forall row | row in rows ensures row in rows' {
      var i :| 0 <= i < |rows| && rows[i] == row;
      assert Keys(rows)[i] in Elements(Keys(rows'));
      var j :| 0 <= j < |rows'| && Keys(rows')[j] == KeyOf(row);
      SameGroupSums(a, b, KeyOf(row));
      assert Averages(rows[i], a) && Averages(rows'[j], b);
      assert rows'[j] == row;
    }
  }

  lemma SameKeys(a: seq<ScoredMetric>, b: seq<ScoredMetric>)
    requires multiset(a) == multiset(b)
    ensures Elements(Keys(a)) == Elements(Keys(b))
  {
    forall key ensures key in Keys(a) <==> key in Keys(b) {
      SameGroupSums(a, b, key);
      GroupPresent(a, key);
      GroupPresent(b, key);
    }
  }

  lemma SameGroupSums(a: seq<ScoredMetric>, b: seq<ScoredMetric>, key: Key)
    requires multiset(a) == multiset(b)
    ensures Numerators(Group(a, key)) == Numerators(Group(b, key))
        && Denominators(Group(a, key)) == Denominators(Group(b, key))
    ensures |Group(a, key)| == |Group(b, key)|
  {
    assert multiset(Group(a, key)) == multiset(Group(b, key)) by {
      forall m ensures multiset(Group(a, key))[m] == multiset(Group(b, key))[m] {
        GroupAsMultiset(a, key, m);
        GroupAsMultiset(b, key, m);
      }
    }
    SumsIgnoreOrder(Group(a, key), Group(b, key));
  }

  // ---------------------------------------------------------------- averages stay in range

  ghost function Portion(value: real, count: nat): real {
    value * count as real
  }

  lemma PortionAdds(value: real, a: nat, b: nat)
    ensures Portion(value, a + b) == Portion(value, a) + Portion(value, b) && Portion(value, 0) == 0.0
  {
    assert (a + b) as real == a as real + b as real;
  }

  lemma NoneLeft(group: seq<ScoredMetric>)
    requires group == []
    ensures Numerators(group) == Denominators(group) == 0
  {
  }

  lemma LastIsSound(group: seq<ScoredMetric>)
    requires AllSound(group) && group != []
    ensures AllSound(group[..|group| - 1]) && Sound(group[|group| - 1])
  {
    hide Sound;
  }

  lemma {:induction false} AllAbove(group: seq<ScoredMetric>, value: real)
    requires AllSound(group) && forall i :: 0 <= i < |group| ==> group[i].value > value
    ensures Numerators(group) as real >= Portion(value, Denominators(group))
    ensures group != [] ==> Numerators(group) as real > Portion(value, Denominators(group))
  {
    hide *;
    PortionAdds(value, 0, 0);
    if group == [] {
      NoneLeft(group);
    } else {
      var front, last := group[..|group| - 1], group[|group| - 1];
      assert group == front + [last];
      LastIsSound(group);
      Scale(last, value);
      AllAbove(front, value);
      SumStep(front, last);
      PortionAdds(value, Denominators(front), last.denominator);
    }
  }

  lemma Scale(m: ScoredMetric, value: real)
    requires Sound(m)
    ensures m.value > value ==> m.numerator as real > Portion(value, m.denominator)
    ensures m.value < value ==> (m.numerator as real) < Portion(value, m.denominator)
  {
    assert m.value * m.denominator as real == m.numerator as real;
  }

  lemma {:induction false} AllBelow(group: seq<ScoredMetric>, value: real)
    requires AllSound(group) && forall i :: 0 <= i < |group| ==> group[i].value < value
    ensures (Numerators(group) as real) <= Portion(value, Denominators(group))
    ensures group != [] ==> (Numerators(group) as real) < Portion(value, Denominators(group))
  {
    hide *;
    PortionAdds(value, 0, 0);
    if group == [] {
      NoneLeft(group);
    } else {
      var front, last := group[..|group| - 1], group[|group| - 1];
      assert group == front + [last];
      LastIsSound(group);
      Scale(last, value);
      AllBelow(front, value);
      SumStep(front, last);
      PortionAdds(value, Denominators(front), last.denominator);
    }
  }

  lemma Straddles(group: seq<ScoredMetric>, value: real)
    requires AllSound(group) && group != [] && Numerators(group) as real == Portion(value, Denominators(group))
    ensures exists i :: 0 <= i < |group| && group[i].value <= value
    ensures exists i :: 0 <= i < |group| && group[i].value >= value
  {
    hide *;
    if forall i :: 0 <= i < |group| ==> group[i].value > value {
      AllAbove(group, value);
    }
    if forall i :: 0 <= i < |group| ==> group[i].value < value {
      AllBelow(group, value);
    }
  }

  lemma GroupIsSound(metrics: seq<ScoredMetric>, key: Key)
    requires AllSound(metrics)
    ensures AllSound(Group(metrics, key))
  {
    hide Sound, Group;
    var group := Group(metrics, key);
    forall i | 0 <= i < |group| ensures Sound(group[i]) {
      assert group[i] in group;
    }
  }

  /** A micro-average lies between the smallest and the largest averaged value. */
  lemma AverageIsBetween(row: ScoredMetric, metrics: seq<ScoredMetric>) returns (low: ScoredMetric, high: ScoredMetric)
    requires Averages(row, metrics) && AllSound(metrics)
    ensures low in metrics && high in metrics && KeyOf(low) == KeyOf(high) == KeyOf(row)
    ensures low.value <= row.value <= high.value
  {
    var group := Group(metrics, KeyOf(row));
    GroupIsSound(metrics, KeyOf(row));
    hide Group, Sound, AllSound;
    assert row.value * row.denominator as real == row.numerator as real;
    Straddles(group, row.value);
    var i :| 0 <= i < |group| && group[i].value <= row.value;
    var j :| 0 <= j < |group| && group[j].value >= row.value;
    low, high := group[i], group[j];
    assert low in group && high in group;
  }
}
