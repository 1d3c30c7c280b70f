/**
 * Reference semantics of a `$group` stage keyed by one expression, with a
 * `$sum` of one numeric expression and a `$sum: 1` count, and of the
 * `$group` + `$sort` pair most queries use.
 */
module Grouping {
  import opened Seqs
  import opened Sorting
  import opened TransactionModel

  /** One `$group` output document: `_id`, a `$sum` accumulator and a `$sum: 1` count. */
  datatype Bucket<K> = Bucket(key: K, sum: int, count: int)

  function KeyOf<K>(b: Bucket<K>): K { b.key }
  function SumField<K>(b: Bucket<K>): int { b.sum }
  function CountField<K>(b: Bucket<K>): int { b.count }

  /** The per-document value of `$sum: 1`. */
  function One(t: Transaction): int { 1 }

  /** The `$sum` of `val` over the transactions whose `key` is `k`. */
  function SumWhere<K(==)>(ts: seq<Transaction>, key: Transaction -> K, k: K, val: Transaction -> int): int
  {
    if ts == [] then 0
    else (if key(ts[0]) == k then val(ts[0]) else 0) + SumWhere(ts[1..], key, k, val)
  }

  /** The sum of `val` over the transactions whose `key` is one of `ks`. */
  function SumWhereIn<K(==)>(ts: seq<Transaction>, key: Transaction -> K, ks: seq<K>, val: Transaction -> int): int
  {
    if ts == [] then 0
    else (if key(ts[0]) in ks then val(ts[0]) else 0) + SumWhereIn(ts[1..], key, ks, val)
  }

  function BucketsFor<K(==)>(ts: seq<Transaction>, ks: seq<K>, key: Transaction -> K, val: Transaction -> int): seq<Bucket<K>>
  {
    seq(|ks|, i requires 0 <= i < |ks| => Bucket(ks[i], SumWhere(ts, key, ks[i], val), SumWhere(ts, key, ks[i], One)))
  }

  /** `$group: { _id: key, sum: { $sum: val }, count: { $sum: 1 } }`, groups in first-appearance order. */
  function GroupBy<K(==)>(ts: seq<Transaction>, key: Transaction -> K, val: Transaction -> int): seq<Bucket<K>>
  {
    BucketsFor(ts, Distinct(MapSeq(ts, key)), key, val)
  }

  /** `$group` followed by `$sort` on the order `le`. */
  function Aggregate<K(==)>(ts: seq<Transaction>, key: Transaction -> K, val: Transaction -> int,
                            le: (Bucket<K>, Bucket<K>) -> bool): seq<Bucket<K>>
  {
    SortBy(GroupBy(ts, key, val), le)
  }

  /** `b` is the group document of its key: its key occurs, and its accumulators sum that key's transactions. */
  predicate Summarises<K(==)>(ts: seq<Transaction>, key: Transaction -> K, val: Transaction -> int, b: Bucket<K>)
  {
    && b.key in MapSeq(ts, key)
    && b.sum == SumWhere(ts, key, b.key, val)
    && b.count == SumWhere(ts, key, b.key, One)
  }

  /** The groups partition the collection: one group per key that occurs, each summarising its key. */
  predicate Partitions<K(==)>(ts: seq<Transaction>, key: Transaction -> K, val: Transaction -> int, r: seq<Bucket<K>>)
  {
    && DistinctBy(r, KeyOf)
    && (forall i :: 0 <= i < |r| ==> Summarises(ts, key, val, r[i]))
    && (forall i :: 0 <= i < |ts| ==> key(ts[i]) in MapSeq(r, KeyOf))
    && |r| == |Distinct(MapSeq(ts, key))|
  }

  lemma {:induction false} SplitFirstKey<K>(ts: seq<Transaction>, key: Transaction -> K, k: K, ks: seq<K>, val: Transaction -> int)
    requires k !in ks
    ensures SumWhereIn(ts, key, [k] + ks, val) == SumWhere(ts, key, k, val) + SumWhereIn(ts, key, ks, val)
  {
    if ts != [] {
      SplitFirstKey(ts[1..], key, k, ks, val);
    }
  }

  lemma {:induction false} SumOfBuckets<K>(ts: seq<Transaction>, ks: seq<K>, key: Transaction -> K, val: Transaction -> int)
    requires NoDup(ks)
    ensures SumOf(BucketsFor(ts, ks, key, val), SumField) == SumWhereIn(ts, key, ks, val)
    ensures SumOf(BucketsFor(ts, ks, key, val), CountField) == SumWhereIn(ts, key, ks, One)
  {
    if ks == [] {
      SumWhereInNone(ts, key, ks, val);
      SumWhereInNone(ts, key, ks, One);
    } else {
      assert BucketsFor(ts, ks, key, val)[1..] == BucketsFor(ts, ks[1..], key, val);
      assert ks == [ks[0]] + ks[1..];
      SumOfBuckets(ts, ks[1..], key, val);
      SplitFirstKey(ts, key, ks[0], ks[1..], val);
      SplitFirstKey(ts, key, ks[0], ks[1..], One);
    }
  }

  lemma {:induction false} SumWhereInNone<K>(ts: seq<Transaction>, key: Transaction -> K, ks: seq<K>, val: Transaction -> int)
    requires ks == []
    ensures SumWhereIn(ts, key, ks, val) == 0
  {
    if ts != [] {
      SumWhereInNone(ts[1..], key, ks, val);
    }
  }

  lemma {:induction false} SumWhereInCovering<K>(ts: seq<Transaction>, key: Transaction -> K, ks: seq<K>, val: Transaction -> int)
    requires forall i :: 0 <= i < |ts| ==> key(ts[i]) in ks
    ensures SumWhereIn(ts, key, ks, val) == SumOf(ts, val)
  {
    if ts != [] {
      SumWhereInCovering(ts[1..], key, ks, val);
    }
  }

  lemma {:induction false} CountIsLength(ts: seq<Transaction>)
    ensures SumOf(ts, One) == |ts|
  {
    if ts != [] {
      CountIsLength(ts[1..]);
    }
  }

  /**
   * Conservation: the groups' sums add up to the collection's sum, and their
   * counts to the number of transactions.
   */
  lemma GroupByConserves<K>(ts: seq<Transaction>, key: Transaction -> K, val: Transaction -> int)
    ensures SumOf(GroupBy(ts, key, val), SumField) == SumOf(ts, val)
    ensures SumOf(GroupBy(ts, key, val), CountField) == |ts|
  {
    var ks := Distinct(MapSeq(ts, key));
    SumOfBuckets(ts, ks, key, val);
    assert forall i :: 0 <= i < |ts| ==> key(ts[i]) in ks by {
      forall i | 0 <= i < |ts| ensures key(ts[i]) in ks {
        assert MapSeq(ts, key)[i] == key(ts[i]);
      }
    }
    SumWhereInCovering(ts, key, ks, val);
    SumWhereInCovering(ts, key, ks, One);
    CountIsLength(ts);
  }

  /** The groups come out with exactly the keys they were built for. */
  lemma BucketsForKeys<K>(ts: seq<Transaction>, ks: seq<K>, key: Transaction -> K, val: Transaction -> int)
    ensures MapSeq(BucketsFor(ts, ks, key, val), KeyOf) == ks
  {
    var r := BucketsFor(ts, ks, key, val);
    assert |MapSeq(r, KeyOf)| == |r| == |ks|;
    forall i | 0 <= i < |ks| ensures MapSeq(r, KeyOf)[i] == ks[i] {
      assert MapSeq(r, KeyOf)[i] == KeyOf(r[i]);
      assert r[i] == Bucket(ks[i], SumWhere(ts, key, ks[i], val), SumWhere(ts, key, ks[i], One));
    }
  }

  /** `$group` yields one document per key occurring in the collection, each summarising that key. */
  lemma GroupByPartitions<K>(ts: seq<Transaction>, key: Transaction -> K, val: Transaction -> int)
    ensures Partitions(ts, key, val, GroupBy(ts, key, val))
  {
    var ks := Distinct(MapSeq(ts, key));
    var r := GroupBy(ts, key, val);
    BucketsForKeys(ts, ks, key, val);
    forall i | 0 <= i < |ts| ensures key(ts[i]) in MapSeq(r, KeyOf) {
      assert MapSeq(ts, key)[i] == key(ts[i]);
    }
  }

  /** Reordering the groups, without duplicating a key, keeps them a partition. */
  lemma PartitionsReordered<K>(ts: seq<Transaction>, key: Transaction -> K, val: Transaction -> int,
                               g: seq<Bucket<K>>, r: seq<Bucket<K>>)
    requires Partitions(ts, key, val, g)
    requires DistinctBy(r, KeyOf) && |r| == |g|
    requires forall i :: 0 <= i < |g| ==> g[i] in r
    requires forall i :: 0 <= i < |r| ==> r[i] in g
    ensures Partitions(ts, key, val, r)
  {
    forall i | 0 <= i < |r| ensures Summarises(ts, key, val, r[i]) {
      var j :| 0 <= j < |g| && g[j] == r[i];
    }
    MapSeqSameElements(g, r, KeyOf);
  }

  /** What a `$group` + `$sort` pair yields, whatever the order. */
  lemma AggregateSpec<K>(ts: seq<Transaction>, key: Transaction -> K, val: Transaction -> int,
                         le: (Bucket<K>, Bucket<K>) -> bool)
    ensures Partitions(ts, key, val, Aggregate(ts, key, val, le))
    ensures SumOf(Aggregate(ts, key, val, le), SumField) == SumOf(ts, val)
    ensures SumOf(Aggregate(ts, key, val, le), CountField) == |ts|
  {
    var g := GroupBy(ts, key, val);
    GroupByPartitions(ts, key, val);
    GroupByConserves(ts, key, val);
    SortByDistinctBy(g, le, KeyOf);
    SortBySameElements(g, le);
    PartitionsReordered(ts, key, val, g, SortBy(g, le));
    SumOfSortBy(g, le, SumField);
    SumOfSortBy(g, le, CountField);
  }
}
