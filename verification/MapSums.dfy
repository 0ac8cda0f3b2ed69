/** Adding up the values of a finite map. */
module MapSums {
  function Get<K>(m: map<K, nat>, k: K): nat { if k in m then m[k] else 0 }

  ghost function Sum<K>(m: map<K, nat>): nat
    decreases |m|
  {
    if m == map[] then 0
    else
      var k :| k in m;
      Smaller(m, k);
      m[k] + Sum(m - {k})
  }

  lemma Smaller<K>(m: map<K, nat>, k: K)
    requires k in m
    ensures |m - {k}| == |m| - 1
  {
    assert (m - {k}).Keys == m.Keys - {k};
  }

  /** Whichever key is taken out first. */
  lemma {:induction false} SumTakes<K>(m: map<K, nat>, k: K)
    requires k in m
    ensures Sum(m) == m[k] + Sum(m - {k})
    decreases |m|
  {
    assert m != map[];
    var j :| j in m && Sum(m) == m[j] + Sum(m - {j});
    if j != k {
      Smaller(m, j);
      SumTakes(m - {j}, k);
      Smaller(m, k);
      SumTakes(m - {k}, j);
      assert (m - {j}) - {k} == (m - {k}) - {j};
    }
  }

  lemma SumUpdate<K>(m: map<K, nat>, k: K, v: nat)
    ensures Sum(m[k := v]) + Get(m, k) == Sum(m) + v
  {
    SumTakes(m[k := v], k);
    if k in m {
      SumTakes(m, k);
      assert m[k := v] - {k} == m - {k};
    } else {
      assert m[k := v] - {k} == m;
    }
  }

  function Within<K>(m: map<K, nat>, keys: set<K>): map<K, nat> { map k | k in m && k in keys :: m[k] }

  lemma WithinTakes<K>(m: map<K, nat>, keys: set<K>, k: K)
    requires k in m && k in keys
    ensures Within(m, keys) - {k} == Within(m - {k}, keys) && m - keys == (m - {k}) - keys
  {}

  lemma WithoutTakes<K>(m: map<K, nat>, keys: set<K>, k: K)
    requires k in m && k !in keys
    ensures Within(m, keys) == Within(m - {k}, keys) && (m - keys) - {k} == (m - {k}) - keys
  {}

  /** A map in two parts adds up to both. */
  lemma {:induction false} SumSplit<K>(m: map<K, nat>, keys: set<K>)
    ensures Sum(m) == Sum(Within(m, keys)) + Sum(m - keys)
    decreases |m|
  {
    if m == map[] {
      assert Within(m, keys) == map[] && m - keys == map[];
    } else {
      var k :| k in m;
      SumTakes(m, k);
      Smaller(m, k);
      SumSplit(m - {k}, keys);
      if k in keys {
        WithinTakes(m, keys, k);
        SumTakes(Within(m, keys), k);
      } else {
        WithoutTakes(m, keys, k);
        SumTakes(m - keys, k);
      }
    }
  }

  lemma {:induction false} SumMonotone<K>(m: map<K, nat>, n: map<K, nat>)
    requires forall k :: k in m ==> k in n && m[k] <= n[k]
    ensures Sum(m) <= Sum(n)
    decreases |m|
  {
    if m == map[] {
    } else {
      var k :| k in m;
      SumTakes(m, k);
      SumTakes(n, k);
      Smaller(m, k);
      SumMonotone(m - {k}, n - {k});
    }
  }
}
