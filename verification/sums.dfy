/** Sums over the values of a map. */
module Sums {

  ghost function SumValues<K>(m: map<K, int>): int
    decreases m.Keys
  {
    if m == map[] then 0
    else
      var k :| k in m;
      m[k] + SumValues(m - {k})
  }

  lemma {:induction false} SumWithout<K>(m: map<K, int>, k: K)
    requires k in m
    ensures SumValues(m) == m[k] + SumValues(m - {k})
    decreases m.Keys
  {
    var c :| c in m && SumValues(m) == m[c] + SumValues(m - {c});
    if c != k {
      SumWithout(m - {c}, k);
      SumWithout(m - {k}, c);
      assert m - {c} - {k} == m - {k} - {c};
    }
  }

  lemma SumUpdate<K>(m: map<K, int>, k: K, v: int)
    ensures SumValues(m[k := v]) == SumValues(m) + v - (if k in m then m[k] else 0)
  {
    SumWithout(m[k := v], k);
    assert m[k := v] - {k} == m - {k};
    if k in m {
      SumWithout(m, k);
    } else {
      assert m - {k} == m;
    }
  }

  lemma {:induction false} SumNonNegative<K>(m: map<K, int>)
    requires forall k :: k in m ==> m[k] >= 0
    ensures SumValues(m) >= 0
    decreases m.Keys
  {
    if m == map[] {
    } else {
      var c :| c in m && SumValues(m) == m[c] + SumValues(m - {c});
      SumNonNegative(m - {c});
    }
  }
}
