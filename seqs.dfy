/** Sequence helpers shared by the aggregation queries and the dashboard. */
module Seqs {

  /** `s.map(f)` */
  function MapSeq<A, B>(s: seq<A>, f: A -> B): seq<B>
  {
    seq(|s|, i requires 0 <= i < |s| => f(s[i]))
  }

  /** The sum of `f` over the elements of `s`. */
  function SumOf<A>(s: seq<A>, f: A -> int): int
  {
    if s == [] then 0 else f(s[0]) + SumOf(s[1..], f)
  }

  predicate NoDup<T(==)>(s: seq<T>)
  {
    forall i, j :: 0 <= i < j < |s| ==> s[i] != s[j]
  }

  /** The index of the first occurrence of `x` in `s`. */
  function FirstIndex<T(==)>(s: seq<T>, x: T): (k: nat)
    requires x in s
    ensures k < |s| && s[k] == x && x !in s[..k]
  {
    if s[0] == x then 0
    else
      var k := 1 + FirstIndex(s[1..], x);
      assert s[..k] == [s[0]] + s[1..][..k - 1];
      k
  }

  /**
   * The distinct elements of `s` in order of first appearance: what
   * `[...new Set(s)]` builds in JavaScript.
   */
  function Distinct<T(==)>(s: seq<T>): (r: seq<T>)
    ensures NoDup(r)
    ensures forall i :: 0 <= i < |r| ==> r[i] in s
    ensures forall i :: 0 <= i < |s| ==> s[i] in r
    ensures |r| <= |s|
    decreases |s|
  {
    if s == [] then []
    else
      var last := s[|s| - 1];
      var r := Distinct(s[..|s| - 1]);
      assert s == s[..|s| - 1] + [last];
      if last in r then r else r + [last]
  }

  /** The first index of an element of a prefix is the same in the whole sequence. */
  lemma {:induction false} FirstIndexOfPrefix<T>(s: seq<T>, m: nat, x: T)
    requires m <= |s| && x in s[..m]
    ensures FirstIndex(s, x) == FirstIndex(s[..m], x)
  {
    if s[0] != x {
      assert s[..m][0] == s[0];
      assert s[..m][1..] == s[1..][..m - 1];
      FirstIndexOfPrefix(s[1..], m - 1, x);
    }
  }

  /** Appending an element keeps the order of first indices of the elements already present. */
  lemma PrefixOrderKept<T>(s: seq<T>, p: seq<T>, x: T, y: T)
    requires s != [] && p == s[..|s| - 1] && x in p && y in p
    requires FirstIndex(p, x) < FirstIndex(p, y)
    ensures FirstIndex(s, x) < FirstIndex(s, y)
  {
    FirstIndexOfPrefix(s, |s| - 1, x);
    FirstIndexOfPrefix(s, |s| - 1, y);
  }

  /** An element that occurs only at the end of `s` first appears after every earlier element. */
  lemma LastComesLater<T>(s: seq<T>, p: seq<T>, x: T)
    requires s != [] && p == s[..|s| - 1] && x in p && s[|s| - 1] !in p
    ensures FirstIndex(s, x) < FirstIndex(s, s[|s| - 1])
  {
    FirstIndexOfPrefix(s, |s| - 1, x);
  }

  /** How `Distinct` extends when one element is appended. */
  lemma DistinctSnoc<T>(s: seq<T>, p: seq<T>)
    requires s != [] && p == s[..|s| - 1]
    ensures s[|s| - 1] in Distinct(p) <==> s[|s| - 1] in p
    ensures Distinct(s) == if s[|s| - 1] in Distinct(p) then Distinct(p) else Distinct(p) + [s[|s| - 1]]
  {
  }

  /** One pair of positions of `Distinct(s)`, given the order for `s` without its last element. */
  lemma DistinctOrderStep<T>(s: seq<T>, p: seq<T>, i: nat, j: nat)
    requires s != [] && p == s[..|s| - 1] && i < j < |Distinct(s)|
    requires forall a, b :: 0 <= a < b < |Distinct(p)| ==> FirstIndex(p, Distinct(p)[a]) < FirstIndex(p, Distinct(p)[b])
    ensures FirstIndex(s, Distinct(s)[i]) < FirstIndex(s, Distinct(s)[j])
  {
    var r, r' := Distinct(s), Distinct(p);
    DistinctSnoc(s, p);
    assert r[i] == r'[i] && r[i] in p;
    if j < |r'| {
      assert r[j] == r'[j] && r[j] in p;
      PrefixOrderKept(s, p, r[i], r[j]);
    } else {
      assert r[j] == s[|s| - 1];
      LastComesLater(s, p, r[i]);
    }
  }

  /** `Distinct(s)` lists its elements in the order of their first occurrence in `s`. */
  lemma {:induction false} DistinctKeepsFirstAppearanceOrder<T>(s: seq<T>)
    ensures forall i, j :: 0 <= i < j < |Distinct(s)| ==>
      FirstIndex(s, Distinct(s)[i]) < FirstIndex(s, Distinct(s)[j])
  {
    if s != [] {
      var p := s[..|s| - 1];
      DistinctKeepsFirstAppearanceOrder(p);
      forall i, j | 0 <= i < j < |Distinct(s)| ensures FirstIndex(s, Distinct(s)[i]) < FirstIndex(s, Distinct(s)[j]) {
        DistinctOrderStep(s, p, i, j);
      }
    }
  }

  /** A sequence without duplicates has as many distinct elements as it is long. */
  lemma {:induction false} NoDupCardinality<T>(s: seq<T>)
    requires NoDup(s)
    ensures |set x | x in s| == |s|
  {
    if s != [] {
      NoDupCardinality(s[1..]);
      assert (set x | x in s) == {s[0]} + (set x | x in s[1..]);
      assert s[0] !in s[1..];
    }
  }

  /** Deduplicating a sequence that has no duplicates changes nothing. */
  lemma {:induction false} DistinctOfNoDup<T>(s: seq<T>)
    requires NoDup(s)
    ensures Distinct(s) == s
  {
    if s != [] {
      var p := s[..|s| - 1];
      DistinctOfNoDup(p);
      assert s[|s| - 1] !in p;
      assert s == p + [s[|s| - 1]];
    }
  }

  /** Membership in `MapSeq(a, f)` depends only on which elements `a` holds. */
  lemma MapSeqSameElements<A, B>(a: seq<A>, b: seq<A>, f: A -> B)
    requires forall i :: 0 <= i < |a| ==> a[i] in b
    requires forall j :: 0 <= j < |b| ==> b[j] in a
    ensures forall y :: y in MapSeq(a, f) <==> y in MapSeq(b, f)
  {
    forall y | y in MapSeq(a, f) ensures y in MapSeq(b, f) {
      var i :| 0 <= i < |a| && MapSeq(a, f)[i] == y;
      var j :| 0 <= j < |b| && b[j] == a[i];
      assert MapSeq(b, f)[j] == y;
    }
    forall y | y in MapSeq(b, f) ensures y in MapSeq(a, f) {
      var j :| 0 <= j < |b| && MapSeq(b, f)[j] == y;
      var i :| 0 <= i < |a| && a[i] == b[j];
      assert MapSeq(a, f)[i] == y;
    }
  }

  /** Summing after renaming equals summing the renamed quantity directly. */
  lemma {:induction false} SumOfMapSeq<A, B>(s: seq<A>, g: A -> B, f: B -> int, h: A -> int)
    requires forall x :: f(g(x)) == h(x)
    ensures SumOf(MapSeq(s, g), f) == SumOf(s, h)
  {
    if s != [] {
      SumOfMapSeq(s[1..], g, f, h);
      assert MapSeq(s, g)[1..] == MapSeq(s[1..], g);
    }
  }

  /** `SumOf` distributes over concatenation. */
  lemma {:induction false} SumOfAppend<A>(a: seq<A>, b: seq<A>, f: A -> int)
    ensures SumOf(a + b, f) == SumOf(a, f) + SumOf(b, f)
  {
    if a == [] {
      assert a + b == b;
    } else {
      SumOfAppend(a[1..], b, f);
      assert (a + b)[1..] == a[1..] + b;
    }
  }

  function Min(a: int, b: int): int
  {
    if a <= b then a else b
  }

  /** `$limit: n`: the first `n` elements, or all of them when there are fewer. */
  function Take<T>(s: seq<T>, n: nat): (r: seq<T>)
    ensures |r| == Min(n, |s|)
    ensures r == s[..Min(n, |s|)]
  {
    if |s| <= n then s else s[..n]
  }

  /** An element found at index `j` but not among the first `n` lies at or after `n`. */
  lemma NotInPrefix<T>(s: seq<T>, n: nat, j: nat)
    requires n <= |s| && j < |s| && s[j] !in s[..n]
    ensures n <= j
  {
  }
}
