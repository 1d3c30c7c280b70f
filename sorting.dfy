/**
 * Reference semantics of a `$sort` stage: an insertion sort over an arbitrary
 * comparison. MongoDB fixes no order among documents that compare equal, so
 * everything proved about a sort here is "sorted" and "a permutation", never a
 * particular order of ties.
 */
module Sorting {
  import opened Seqs

  /** `le` is total and transitive, so that sorting by it is meaningful. */
  ghost predicate TotalPreorder<T(!new)>(le: (T, T) -> bool)
  {
    && (forall a, b :: le(a, b) || le(b, a))
    && (forall a, b, c :: le(a, b) && le(b, c) ==> le(a, c))
  }

  predicate SortedBy<T>(s: seq<T>, le: (T, T) -> bool)
  {
    forall i, j :: 0 <= i < j < |s| ==> le(s[i], s[j])
  }

  /** No two elements of `s` share the value of `f`. */
  predicate DistinctBy<T, K(==)>(s: seq<T>, f: T -> K)
  {
    forall i, j :: 0 <= i < j < |s| ==> f(s[i]) != f(s[j])
  }

  function Insert<T>(x: T, s: seq<T>, le: (T, T) -> bool): (r: seq<T>)
    ensures multiset(r) == multiset(s) + multiset{x}
    ensures |r| == |s| + 1
  {
    if s == [] then [x]
    else if le(x, s[0]) then [x] + s
    else
      var r' := Insert(x, s[1..], le);
      assert s == [s[0]] + s[1..];
      [s[0]] + r'
  }

  function SortBy<T>(s: seq<T>, le: (T, T) -> bool): (r: seq<T>)
    ensures multiset(r) == multiset(s)
    ensures |r| == |s|
  {
    if s == [] then []
    else
      assert s == [s[0]] + s[1..];
      Insert(s[0], SortBy(s[1..], le), le)
  }

  lemma {:induction false} InsertSorted<T(!new)>(x: T, s: seq<T>, le: (T, T) -> bool)
    requires TotalPreorder(le) && SortedBy(s, le)
    ensures SortedBy(Insert(x, s, le), le)
  {
    if s != [] && !le(x, s[0]) {
      var r' := Insert(x, s[1..], le);
      InsertSorted(x, s[1..], le);
      assert le(s[0], x);
      forall j | 0 <= j < |r'| ensures le(s[0], r'[j]) {
        assert r'[j] in multiset(s[1..]) + multiset{x};
      }
    }
  }

  /** The result of `SortBy` is ordered by `le` whenever `le` is a total preorder. */
  lemma {:induction false} SortBySorted<T(!new)>(s: seq<T>, le: (T, T) -> bool)
    requires TotalPreorder(le)
    ensures SortedBy(SortBy(s, le), le)
  {
    if s != [] {
      SortBySorted(s[1..], le);
      InsertSorted(s[0], SortBy(s[1..], le), le);
    }
  }

  /** Sorting keeps exactly the elements it was given. */
  lemma SortBySameElements<T>(s: seq<T>, le: (T, T) -> bool)
    ensures forall i :: 0 <= i < |s| ==> s[i] in SortBy(s, le)
    ensures forall i :: 0 <= i < |SortBy(s, le)| ==> SortBy(s, le)[i] in s
  {
    var r := SortBy(s, le);
    forall i | 0 <= i < |s| ensures s[i] in r {
      assert s[i] in multiset(r);
    }
    forall i | 0 <= i < |r| ensures r[i] in s {
      assert r[i] in multiset(s);
    }
  }

  lemma {:induction false} InsertDistinctBy<T, K>(x: T, s: seq<T>, le: (T, T) -> bool, f: T -> K)
    requires DistinctBy(s, f)
    requires forall i :: 0 <= i < |s| ==> f(s[i]) != f(x)
    ensures DistinctBy(Insert(x, s, le), f)
  {
    if s != [] && !le(x, s[0]) {
      var r' := Insert(x, s[1..], le);
      InsertDistinctBy(x, s[1..], le, f);
      forall j | 0 <= j < |r'| ensures f(s[0]) != f(r'[j]) {
        assert r'[j] in multiset(s[1..]) + multiset{x};
        if r'[j] != x {
          var k :| 0 <= k < |s[1..]| && s[1..][k] == r'[j];
          assert s[k + 1] == r'[j];
        }
      }
    }
  }

  /** Sorting never makes two elements agree on `f`. */
  lemma {:induction false} SortByDistinctBy<T, K>(s: seq<T>, le: (T, T) -> bool, f: T -> K)
    requires DistinctBy(s, f)
    ensures DistinctBy(SortBy(s, le), f)
  {
    if s != [] {
      SortByDistinctBy(s[1..], le, f);
      var r := SortBy(s[1..], le);
      forall i | 0 <= i < |r| ensures f(r[i]) != f(s[0]) {
        assert r[i] in multiset(s[1..]);
        var k :| 0 <= k < |s[1..]| && s[1..][k] == r[i];
        assert s[k + 1] == r[i];
      }
      InsertDistinctBy(s[0], r, le, f);
    }
  }

  lemma {:induction false} SumOfInsert<T>(x: T, s: seq<T>, le: (T, T) -> bool, f: T -> int)
    ensures SumOf(Insert(x, s, le), f) == f(x) + SumOf(s, f)
  {
    if s != [] && !le(x, s[0]) {
      SumOfInsert(x, s[1..], le, f);
      assert Insert(x, s, le)[1..] == Insert(x, s[1..], le);
    } else if s != [] {
      assert Insert(x, s, le)[1..] == s;
    }
  }

  /** Sorting does not change a sum over the sorted elements. */
  lemma {:induction false} SumOfSortBy<T>(s: seq<T>, le: (T, T) -> bool, f: T -> int)
    ensures SumOf(SortBy(s, le), f) == SumOf(s, f)
  {
    if s != [] {
      SumOfSortBy(s[1..], le, f);
      SumOfInsert(s[0], SortBy(s[1..], le), le, f);
    }
  }
}
