/** Frequency counts over a column, as pandas `value_counts()` computes them (missing
    values are dropped by the caller first). */
module Counting {
  import opened Wrappers
  import opened Seqs

  /** Each of `keys` paired with its number of occurrences in `vals`. */
  function Occurrences<T(==,!new)>(keys: seq<T>, vals: seq<T>): (r: seq<(T, nat)>)
    ensures |r| == |keys|
    ensures forall k :: 0 <= k < |r| ==> r[k] == (keys[k], multiset(vals)[keys[k]])
  {
    seq(|keys|, k requires 0 <= k < |keys| => (keys[k], multiset(vals)[keys[k]]))
  }

  function CountKey<T>(p: (T, nat)): Option<int> {
    Some(p.1)
  }

  /** The values of a frequency table, in its order. */
  function Keys<T>(pairs: seq<(T, nat)>): (r: seq<T>)
    ensures |r| == |pairs|
    ensures forall k :: 0 <= k < |r| ==> r[k] == pairs[k].0
  {
    MapSeq(pairs, (p: (T, nat)) => p.0)
  }

  /** `value_counts()`: every distinct value with its count, most frequent first. The
      order among equal counts is left open, as pandas leaves it. */
  function ValueCounts<T(==,!new)>(vals: seq<T>): (r: seq<(T, nat)>)
    ensures SortedDesc(r, CountKey)
    ensures multiset(r) == multiset(Occurrences(Distinct(vals), vals))
  {
    SortDesc(Occurrences(Distinct(vals), vals), CountKey)
  }

  /** `value_counts().head(n)`. */
  function TopCounts<T(==,!new)>(vals: seq<T>, n: nat): seq<(T, nat)> {
    Take(ValueCounts(vals), n)
  }

  /** Every entry of the full frequency table is a value that occurs, with its exact
      count; no value is listed twice; every value that occurs is listed. */
  lemma ValueCountsExact<T(!new)>(vals: seq<T>)
    ensures var r := ValueCounts(vals);
      forall k :: 0 <= k < |r| ==> r[k].0 in vals && r[k].1 == multiset(vals)[r[k].0]
    ensures NoDup(Keys(ValueCounts(vals)))
    ensures forall v :: v in vals ==> (v, multiset(vals)[v]) in ValueCounts(vals)
  {
    var d := Distinct(vals);
    var occ := Occurrences(d, vals);
    var r := ValueCounts(vals);
    forall k | 0 <= k < |r| ensures r[k].0 in vals && r[k].1 == multiset(vals)[r[k].0] {
      assert r[k] in multiset(occ);
      var j :| 0 <= j < |occ| && occ[j] == r[k];
      assert d[j] in d;
    }
    assert NoDup(occ) by {
      forall i, j | 0 <= i < j < |occ| ensures occ[i] != occ[j] {
        assert d[i] != d[j];
      }
    }
    NoDupPermutation(r, occ);
    var keys := Keys(r);
    forall i, j | 0 <= i < j < |keys| ensures keys[i] != keys[j] {
      assert r[i] != r[j];
    }
    forall v | v in vals ensures (v, multiset(vals)[v]) in r {
      var j := ListedAt(vals, v);
    }
  }

  /** `value_counts().head(n)`: at most `n` entries, counts non-increasing, each count
      exact and positive, no value twice; and a value that occurs but is not listed
      was crowded out: the table is full and every listed count is at least its own. */
  lemma TopCountsProperties<T(!new)>(vals: seq<T>, n: nat)
    ensures |TopCounts(vals, n)| <= n
    ensures var r := TopCounts(vals, n);
      forall i, j :: 0 <= i < j < |r| ==> r[i].1 >= r[j].1
    ensures var r := TopCounts(vals, n);
      forall k :: 0 <= k < |r| ==> r[k].0 in vals && r[k].1 == multiset(vals)[r[k].0] && r[k].1 > 0
    ensures NoDup(Keys(TopCounts(vals, n)))
    ensures var r := TopCounts(vals, n);
      forall v :: v in vals && v !in Keys(r) ==>
        |r| == n && forall k :: 0 <= k < |r| ==> r[k].1 >= multiset(vals)[v]
  {
    var all := ValueCounts(vals);
    var r := TopCounts(vals, n);
    ValueCountsExact(vals);
    assert r == all[..|r|];
    forall i, j | 0 <= i < j < |r| ensures r[i].1 >= r[j].1 {
      assert KeyGe(CountKey(all[i]), CountKey(all[j]));
    }
    forall k | 0 <= k < |r| ensures r[k].0 in vals && r[k].1 == multiset(vals)[r[k].0] && r[k].1 > 0 {
      assert r[k] == all[k];
    }
    var keys := Keys(r);
    forall i, j | 0 <= i < j < |keys| ensures keys[i] != keys[j] {
      assert Keys(all)[i] != Keys(all)[j];
    }
    forall v | v in vals && v !in Keys(r)
      ensures |r| == n && forall k :: 0 <= k < |r| ==> r[k].1 >= multiset(vals)[v]
    {
      CrowdedOut(vals, n, v);
    }
  }

  /** A value left out of the first `n` entries of the frequency table has at most the
      count of each listed entry, and the table holds `n` entries. */
  lemma CrowdedOut<T(!new)>(vals: seq<T>, n: nat, v: T)
    requires v in vals && v !in Keys(TopCounts(vals, n))
    ensures |TopCounts(vals, n)| == n
    ensures var r := TopCounts(vals, n);
      forall k :: 0 <= k < |r| ==> r[k].1 >= multiset(vals)[v]
  {
    var all := ValueCounts(vals);
    var r := TopCounts(vals, n);
    var j := ListedAt(vals, v);
    assert j >= |r| by {
      assert forall k :: 0 <= k < |r| ==> Keys(r)[k] != v;
      assert forall k :: 0 <= k < |r| ==> r[k] == all[k];
    }
    forall k | 0 <= k < |r| ensures r[k].1 >= multiset(vals)[v] {
      assert r[k] == all[k];
      assert KeyGe(CountKey(all[k]), CountKey(all[j]));
    }
  }

  /** Where a value that occurs sits in the frequency table. */
  lemma ListedAt<T(!new)>(vals: seq<T>, v: T) returns (j: nat)
    requires v in vals
    ensures j < |ValueCounts(vals)| && ValueCounts(vals)[j] == (v, multiset(vals)[v])
  {
    var d := Distinct(vals);
    var occ := Occurrences(d, vals);
    assert v in d;
    var i :| 0 <= i < |d| && d[i] == v;
    assert occ[i] in multiset(ValueCounts(vals));
    j :| 0 <= j < |ValueCounts(vals)| && ValueCounts(vals)[j] == occ[i];
  }
}
