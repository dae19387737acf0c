/** Sums over the values of a finite map. */
module Sums {
  ghost function Sum<K>(m: map<K, nat>): nat {
    if m == map[] then 0
    else
      var k :| k in m;
      m[k] + Sum(m - {k})
  }

  lemma {:induction false} SumWithout<K>(m: map<K, nat>, k: K)
    requires k in m
    ensures Sum(m) == m[k] + Sum(m - {k})
    decreases |m|
  {
    var c :| c in m && Sum(m) == m[c] + Sum(m - {c});
    if c != k {
      SumWithout(m - {c}, k);
      SumWithout(m - {k}, c);
      assert m - {c} - {k} == m - {k} - {c};
    }
  }

  lemma SumUpdate<K>(m: map<K, nat>, k: K, v: nat)
    ensures Sum(m[k := v]) == v + Sum(m - {k})
  {
    SumWithout(m[k := v], k);
    assert m[k := v] - {k} == m - {k};
  }

  /** Removing entries does not increase the sum. */
  lemma {:induction false} SumSubmap<K>(m: map<K, nat>, sub: map<K, nat>)
    requires forall k :: k in sub ==> k in m && sub[k] == m[k]
    ensures Sum(sub) <= Sum(m)
    decreases |sub|
  {
    if sub != map[] {
      var k :| k in sub;
      SumWithout(sub, k);
      SumWithout(m, k);
      SumSubmap(m - {k}, sub - {k});
    }
  }
}
