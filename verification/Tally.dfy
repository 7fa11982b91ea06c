/** Sizes of maps and sets, and adding up what several owners hold. */
module Tally {
  lemma {:induction false} ShrinkSize<K, V>(m: map<K, V>, k: K)
    ensures |m - {k}| == if k in m then |m| - 1 else |m|
    ensures |m - {k}| <= |m|
  {
    assert (m - {k}).Keys == m.Keys - {k};
  }

  lemma {:induction false} ShrinkSizes<K, V>(m: map<K, V>, ks: set<K>)
    requires ks <= m.Keys
    ensures |m - ks| == |m| - |ks|
  {
    assert (m - ks).Keys == m.Keys - ks;
  }

  lemma {:induction false} SubsetSize<T>(a: set<T>, b: set<T>)
    requires a <= b
    ensures |a| <= |b|
  {
    assert b == a + (b - a);
  }

  ghost function Sum<K>(m: map<K, nat>): nat {
    if m == map[] then 0
    else
      var k :| k in m;
      m[k] + Sum(m - {k})
  }

  lemma {:induction false} SumSplit<K>(m: map<K, nat>, k: K)
    requires k in m
    ensures Sum(m) == m[k] + Sum(m - {k})
    decreases |m|
  {
    var j :| j in m && Sum(m) == m[j] + Sum(m - {j});
    if j != k {
      SumSplit(m - {j}, k);
      SumSplit(m - {k}, j);
      assert m - {j} - {k} == m - {k} - {j};
    }
  }

  lemma {:induction false} SumPut<K>(m: map<K, nat>, k: K, n: nat)
    ensures Sum(m[k := n]) == Sum(m) + n - (if k in m then m[k] else 0)
  {
    SumSplit(m[k := n], k);
    assert m[k := n] - {k} == m - {k};
    if k in m {
      SumSplit(m, k);
    } else {
      assert m - {k} == m;
    }
  }

  lemma {:induction false} SumDrop<K>(m: map<K, nat>, k: K)
    requires k in m
    ensures Sum(m - {k}) == Sum(m) - m[k]
  {
    SumSplit(m, k);
  }

  /** Two pairs of holdings that match owner by owner match in sum. */
  lemma {:induction false} SumsMatch<K>(a: map<K, nat>, b: map<K, nat>, c: map<K, nat>, d: map<K, nat>)
    requires a.Keys == b.Keys == c.Keys == d.Keys && forall k :: k in a ==> a[k] + b[k] == c[k] + d[k]
    ensures Sum(a) + Sum(b) == Sum(c) + Sum(d)
    decreases |a|
  {
    if a == map[] {
      assert b == map[] && c == map[] && d == map[];
    } else {
      var k :| k in a;
      SumSplit(a, k);
      SumSplit(b, k);
      SumSplit(c, k);
      SumSplit(d, k);
      ShrinkSize(a, k);
      SumsMatch(a - {k}, b - {k}, c - {k}, d - {k});
    }
  }
}
