/** Types shared by every module. */
module Prelude {
  datatype Option<+T> = None | Some(value: T)

  datatype Result<+T, +E> = Ok(value: T) | Err(error: E)

  /** A UUID as its 128-bit number: the canonical text of UUIDs sorts like the numbers do. */
  type Uuid = nat

  /** A database timestamp, in microseconds. */
  type Time = int

  predicate Distinct<T(==)>(s: seq<T>) {
    forall i, j :: 0 <= i < j < |s| ==> s[i] != s[j]
  }

  /** SQL comparison with a nullable column: a null never satisfies it. */
  predicate AtMost(t: Option<Time>, bound: Time) {
    t.Some? && t.value <= bound
  }

  function Elements<T(==)>(s: seq<T>): set<T> {
    set x | x in s
  }

  /** `s[:n]`. */
  function Take<T>(s: seq<T>, n: nat): (r: seq<T>)
    ensures r <= s && |r| == if |s| <= n then |s| else n
  {
    if |s| <= n then s else s[..n]
  }

  /** The keys of an ordered dictionary. */
  function KeysOf<V>(pairs: seq<(Uuid, V)>): (keys: seq<Uuid>)
    ensures |keys| == |pairs| && forall i :: 0 <= i < |pairs| ==> keys[i] == pairs[i].0
  {
    seq(|pairs|, i requires 0 <= i < |pairs| => pairs[i].0)
  }

  /** A sequence without repeats has as many elements as positions. */
  lemma {:induction false} DistinctCount<T>(s: seq<T>)
    requires Distinct(s)
    ensures |Elements(s)| == |s|
  {
    if s != [] {
      var front, last := s[..|s| - 1], s[|s| - 1];
      DistinctCount(front);
      assert s == front + [last];
      assert last !in front;
      assert Elements(s) == Elements(front) + {last};
    }
  }

  /** A subset of the same size is the whole set. */
  lemma SameSizeSubset<T>(a: set<T>, b: set<T>)
    requires a <= b && |a| >= |b|
    ensures a == b
  {
    assert b == a + (b - a);
    assert |b - a| == 0;
  }

  /** Taking the last element of `a` out of a reordering `b` of it leaves a reordering of the rest. */
  lemma TakeOut<T>(a: seq<T>, b: seq<T>) returns (i: nat)
    requires multiset(a) == multiset(b) && a != []
    ensures i < |b| && b[i] == a[|a| - 1]
    ensures multiset(a[..|a| - 1]) == multiset(b[..i] + b[i + 1..])
  {
    var last := a[|a| - 1];
    assert last in multiset(b);
    i :| 0 <= i < |b| && b[i] == last;
    assert a == a[..|a| - 1] + [last];
    assert b == b[..i] + [last] + b[i + 1..];
    assert multiset(b) == multiset(b[..i] + b[i + 1..]) + multiset{last};
    assert multiset(b[..i] + b[i + 1..]) == multiset(b) - multiset{last};
    assert multiset(a[..|a| - 1]) == multiset(a) - multiset{last};
  }

  /** Where `x` first appears. */
  function FirstAt<T(==)>(s: seq<T>, x: T): (i: nat)
    requires x in s
    ensures i < |s| && s[i] == x && x !in s[..i]
  {
    if s[0] == x then 0 else 1 + FirstAt(s[1..], x)
  }

  /** `dict.fromkeys`: each element once, at its first appearance. */
  function Dedup<T(==,!new)>(s: seq<T>): (r: seq<T>)
    ensures Distinct(r)
    ensures forall x :: x in r <==> x in s
    ensures |r| <= |s| && (s != [] ==> r != [] && r[0] == s[0])
  {
    if s == [] then []
    else
      var front := Dedup(s[..|s| - 1]);
      assert s == s[..|s| - 1] + [s[|s| - 1]];
      if s[|s| - 1] in front then front else front + [s[|s| - 1]]
  }

  lemma {:induction false} FirstAtPrefix<T>(s: seq<T>, more: seq<T>, x: T)
    requires x in s
    ensures x in s + more && FirstAt(s + more, x) == FirstAt(s, x)
  {
    if s[0] != x {
      assert (s + more)[1..] == s[1..] + more;
      FirstAtPrefix(s[1..], more, x);
    }
  }

  /** What is kept stands in the order of first appearance. */
  lemma {:induction false} DedupKeepsOrder<T(!new)>(s: seq<T>, i: nat, j: nat)
    requires i < j < |Dedup(s)|
    ensures Dedup(s)[i] in s && Dedup(s)[j] in s && FirstAt(s, Dedup(s)[i]) < FirstAt(s, Dedup(s)[j])
  {
    var front, last := s[..|s| - 1], s[|s| - 1];
    var kept := Dedup(front);
    assert s == front + [last];
    assert Dedup(s)[i] == kept[i] && kept[i] in front;
    FirstAtPrefix(front, [last], kept[i]);
    if j < |kept| {
      DedupKeepsOrder(front, i, j);
      FirstAtPrefix(front, [last], kept[j]);
    } else {
      assert Dedup(s)[j] == last && last !in front;
      assert FirstAt(s, last) == |front| by {
        assert s[FirstAt(s, last)] == last;
      }
    }
  }
}
