/** Totals over finite maps. */
module Sums {
  type Key = nat

  ghost function SumMap(m: map<Key, nat>): nat {
    if m == map[] then 0
    else
      var k :| k in m;
      m[k] + SumMap(m - {k})
  }

  /** The order of summation does not matter: any key can be taken out first. */
  lemma {:induction false} TakeOut(m: map<Key, nat>, k: Key)
    requires k in m
    ensures SumMap(m) == m[k] + SumMap(m - {k})
    decreases |m|
  {
    var j :| j in m && SumMap(m) == m[j] + SumMap(m - {j});
    if j != k {
      TakeOut(m - {j}, k);
      TakeOut(m - {k}, j);
      assert m - {j} - {k} == m - {k} - {j};
    }
  }

  lemma Update(m: map<Key, nat>, k: Key, v: nat)
    ensures SumMap(m[k := v]) == v + SumMap(m - {k})
    ensures SumMap(m[k := v]) == SumMap(m) - (if k in m then m[k] else 0) + v
  {
    TakeOut(m[k := v], k);
    assert m[k := v] - {k} == m - {k};
    if k in m {
      TakeOut(m, k);
    } else {
      assert m - {k} == m;
    }
  }

  lemma Remove(m: map<Key, nat>, k: Key)
    ensures SumMap(m - {k}) == SumMap(m) - if k in m then m[k] else 0
  {
    if k in m {
      TakeOut(m, k);
    } else {
      assert m - {k} == m;
    }
  }
}
