/** The sum of a finite map's values, independent of any iteration order. */
module MapSums {

  ghost function Sum<K>(m: map<K, real>): real
    decreases m.Keys
  {
    if m == map[] then
      0.0
    else
      var k :| k in m;
      m[k] + Sum(m - {k})
  }

  lemma {:induction false} SumRemove<K>(m: map<K, real>, k: K)
    requires k in m
    ensures Sum(m) == m[k] + Sum(m - {k})
    decreases m.Keys
  {
    var j :| j in m && Sum(m) == m[j] + Sum(m - {j});
    if j != k {
      SumRemove(m - {j}, k);
      SumRemove(m - {k}, j);
      assert m - {j} - {k} == m - {k} - {j};
    }
  }

  lemma SumInsert<K>(m: map<K, real>, k: K, v: real)
    ensures Sum(m[k := v]) == v + Sum(m - {k})
    ensures k !in m ==> Sum(m[k := v]) == v + Sum(m)
    ensures k in m ==> Sum(m[k := v]) == v + Sum(m) - m[k]
  {
    SumRemove(m[k := v], k);
    assert m[k := v] - {k} == m - {k};
    if k in m {
      SumRemove(m, k);
    } else {
      assert m - {k} == m;
    }
  }

  ghost predicate NonNegative<K>(m: map<K, real>) {
    forall k :: k in m ==> m[k] >= 0.0
  }

  /** Dropping entries of a non-negative map lowers its sum, and an entry never exceeds the sum. */
  lemma {:induction false} SumMonotone<K>(small: map<K, real>, big: map<K, real>)
    requires NonNegative(big)
    requires forall k :: k in small ==> k in big && small[k] == big[k]
    ensures 0.0 <= Sum(small) <= Sum(big)
    decreases big.Keys
  {
    if big != map[] {
      var k :| k in big;
      SumRemove(big, k);
      if k in small {
        SumRemove(small, k);
        SumMonotone(small - {k}, big - {k});
      } else {
        SumMonotone(small, big - {k});
      }
    }
  }
}
