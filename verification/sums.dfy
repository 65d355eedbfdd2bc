/** Sums over maps. */
module Sums {

  ghost function Sum(m: map<nat, nat>): nat
    decreases |m|
  {
    if m == map[] then 0
    else
      var k :| k in m;
      m[k] + Sum(m - {k})
  }

  lemma {:induction false} SumRemove(m: map<nat, nat>, k: nat)
    requires k in m
    ensures Sum(m) == m[k] + Sum(m - {k})
    decreases |m|
  {
    var j :| j in m && Sum(m) == m[j] + Sum(m - {j});
    if j != k {
      SumRemove(m - {j}, k);
      SumRemove(m - {k}, j);
      assert m - {j} - {k} == m - {k} - {j};
    }
  }

  function Get(m: map<nat, nat>, k: nat): nat { if k in m then m[k] else 0 }

  lemma SumUpdate(m: map<nat, nat>, k: nat, v: nat)
    ensures Sum(m[k := v]) + Get(m, k) == Sum(m) + v
    ensures Get(m, k) <= Sum(m)
  {
    SumRemove(m[k := v], k);
    if k in m {
      SumRemove(m, k);
      assert m[k := v] - {k} == m - {k};
    } else {
      assert m[k := v] - {k} == m;
    }
  }

  lemma {:induction false} SumAdds(total: map<nat, nat>, m: map<nat, nat>, n: map<nat, nat>)
    requires total.Keys == m.Keys == n.Keys && forall k :: k in total ==> total[k] == m[k] + n[k]
    ensures Sum(total) == Sum(m) + Sum(n)
    decreases |total|
  {
    if total == map[] {
      assert m == map[] && n == map[];
    } else {
      var k :| k in total;
      SumRemove(total, k);
      SumRemove(m, k);
      SumRemove(n, k);
      SumAdds(total - {k}, m - {k}, n - {k});
    }
  }
}
