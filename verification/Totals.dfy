/**
 Sums of a weight over the values of a finite map.

 The store keeps a running total beside every map it charges; this module gives
 the value those totals have to equal, and the arithmetic a single insertion or
 removal does to it.
 */
module Totals {

  /** The sum of `weight` over every value of `m`, taken in no particular order. */
  ghost function Total<K, V>(m: map<K, V>, weight: V -> nat): (sum: nat)
    ensures m == map[] ==> sum == 0
  {
    if m == map[] then 0 else
    var k :| k in m;
    weight(m[k]) + Total(m - {k}, weight)
  }

  /** Any key can be taken out first, so the order of summation does not matter. */
  lemma {:induction false} TotalSplit<K, V>(m: map<K, V>, weight: V -> nat, k: K)
    requires k in m
    ensures Total(m, weight) == weight(m[k]) + Total(m - {k}, weight)
    decreases |m|
  {
    var j :| j in m && Total(m, weight) == weight(m[j]) + Total(m - {j}, weight);
    if j != k {
      TotalSplit(m - {j}, weight, k);
      TotalSplit(m - {k}, weight, j);
      assert m - {j} - {k} == m - {k} - {j};
    }
  }

  /** What setting one key does to the sum, whether or not the key was there. */
  lemma TotalUpdate<K, V>(m: map<K, V>, weight: V -> nat, k: K, v: V)
    ensures Total(m[k := v], weight) == weight(v) + Total(m - {k}, weight)
    ensures k !in m ==> Total(m[k := v], weight) == weight(v) + Total(m, weight)
    ensures k in m ==> Total(m[k := v], weight) + weight(m[k]) == weight(v) + Total(m, weight)
  {
    TotalSplit(m[k := v], weight, k);
    assert m[k := v] - {k} == m - {k};
    if k in m {
      TotalSplit(m, weight, k);
    } else {
      assert m - {k} == m;
    }
  }

  /** Splitting the keys in two splits the sum. */
  lemma {:induction false} TotalPartition<K, V>(m: map<K, V>, weight: V -> nat, part: set<K>)
    ensures Total(m, weight) == Total(m - part, weight) + Total(m - (m.Keys - part), weight)
    decreases |m|
  {
    if m == map[] {
      assert m - part == map[];
      assert m - (m.Keys - part) == map[];
    } else {
      var k :| k in m;
      TotalSplit(m, weight, k);
      TotalPartition(m - {k}, weight, part);
      PartitionWithout(m, part, k);
      TotalSplit(if k in part then m - (m.Keys - part) else m - part, weight, k);
    }
  }

  lemma PartitionWithout<K, V>(m: map<K, V>, part: set<K>, k: K)
    requires k in m
    ensures var rest := m - {k};
            if k in part then
              rest - part == m - part && rest - (rest.Keys - part) == (m - (m.Keys - part)) - {k}
            else
              rest - (rest.Keys - part) == m - (m.Keys - part) && rest - part == (m - part) - {k}
  {
  }

  /** A sum of bounded weights is bounded by the number of keys on either side. */
  lemma {:induction false} TotalBounds<K, V>(m: map<K, V>, weight: V -> nat, lo: nat, hi: nat)
    requires forall k :: k in m ==> lo <= weight(m[k]) <= hi
    ensures lo * |m| <= Total(m, weight) <= hi * |m|
    decreases |m|
  {
    if m != map[] {
      var k :| k in m;
      TotalSplit(m, weight, k);
      TotalBounds(m - {k}, weight, lo, hi);
      OneMore(lo, |m - {k}|);
      OneMore(hi, |m - {k}|);
      assert |m| == |m - {k}| + 1;
    }
  }

  lemma OneMore(a: nat, n: nat)
    ensures a * (n + 1) == a * n + a
  {
  }
}
