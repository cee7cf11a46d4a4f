/** Sums over the values of a finite map, independent of any order on its keys. */
module MapSum {

  ghost function Sum<K(!new)>(m: map<K, int>): int
    decreases |m|
  {
    if m == map[] then 0
    else
      var k :| k in m;
      assert |m - {k}| < |m| by { assert (m - {k}).Keys == m.Keys - {k}; assert k in m.Keys; }
      m[k] + Sum(m - {k})
  }

  /** Any key may be taken out first. */
  lemma {:induction false} SumOut<K(!new)>(m: map<K, int>, k: K)
    requires k in m
    ensures Sum(m) == m[k] + Sum(m - {k})
    decreases |m|
  {
    var j :| j in m && Sum(m) == m[j] + Sum(m - {j});
    if j != k {
      assert (m - {j}).Keys == m.Keys - {j} && j in m.Keys;
      assert (m - {k}).Keys == m.Keys - {k} && k in m.Keys;
      SumOut(m - {j}, k);
      SumOut(m - {k}, j);
      assert m - {j} - {k} == m - {k} - {j};
    }
  }

  lemma SumSet<K(!new)>(m: map<K, int>, k: K, v: int)
    ensures Sum(m[k := v]) == Sum(m) - (if k in m then m[k] else 0) + v
  {
    SumOut(m[k := v], k);
    assert m[k := v] - {k} == m - {k};
    if k in m { SumOut(m, k); } else { assert m - {k} == m; }
  }

  /** A sum of non-negative values is at least any one of them, and any two of them. */
  lemma {:induction false} SumAtLeast<K(!new)>(m: map<K, int>)
    requires forall k :: k in m ==> m[k] >= 0
    ensures Sum(m) >= 0
    ensures forall k :: k in m ==> m[k] <= Sum(m)
    decreases |m|
  {
    if m != map[] {
      var j :| j in m;
      assert (m - {j}).Keys == m.Keys - {j} && j in m.Keys;
      SumOut(m, j);
      SumAtLeast(m - {j});
      forall k | k in m ensures m[k] <= Sum(m) {
        SumOut(m, k);
        assert (m - {k}).Keys == m.Keys - {k} && k in m.Keys;
        SumAtLeast(m - {k});
      }
    }
  }

  /** Two maps that differ by one on the keys in `s` have sums that differ by the size of `s`. */
  lemma {:induction false} SumDrop<K(!new)>(m: map<K, int>, n: map<K, int>, s: set<K>)
    requires m.Keys == n.Keys && s <= m.Keys
    requires forall k :: k in m ==> n[k] == m[k] - if k in s then 1 else 0
    ensures Sum(n) == Sum(m) - |s|
    decreases |s|
  {
    if s == {} {
      assert m == n;
    } else {
      var k :| k in s;
      var m' := m[k := m[k] - 1];
      SumSet(m, k, m[k] - 1);
      SumDrop(m', n, s - {k});
    }
  }
}
