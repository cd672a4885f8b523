/** Sums over maps. */
module Sums {

  ghost function Sum<K(!new)>(m: map<K, nat>): nat {
    if m == map[] then 0
    else
      var k :| k in m;
      m[k] + Sum(m - {k})
  }

  lemma {:induction false} SumRemove<K(!new)>(m: map<K, nat>, k: K)
    requires k in m
    ensures Sum(m) == m[k] + Sum(m - {k})
    decreases |m|
  {
    var j :| j in m && Sum(m) == m[j] + Sum(m - {j});
    if j != k {
      SumRemove(m - {j}, k);
      SumRemove(m - {k}, j);
      assert m - {j} - {k} == m - {k} - {j};
    }
  }

  lemma SumPut<K(!new)>(m: map<K, nat>, k: K, n: nat)
    ensures Sum(m[k := n]) == n + Sum(m - {k})
    ensures k in m ==> Sum(m) == m[k] + Sum(m - {k})
    ensures k !in m ==> m - {k} == m
  {
    SumRemove(m[k := n], k);
    assert m[k := n] - {k} == m - {k};
    if k in m {
      SumRemove(m, k);
    }
  }

  lemma SumEmpty<K(!new)>(m: map<K, nat>)
    requires forall k :: k !in m
    ensures Sum(m) == 0 && |m| == 0
  {
    assert m == map[];
  }
}
