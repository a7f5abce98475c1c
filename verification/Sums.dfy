/** Sums over the values of a finite map. The keys have no order: the lemmas say that none matters. */
module Sums {

  ghost function Sum<K(!new)>(m: map<K, int>): int
    decreases |m|
  {
    if m == map[] then 0
    else
      var k :| k in m;
      m[k] + Sum(m - {k})
  }

  lemma {:induction false} SumRemove<K(!new)>(m: map<K, int>, k: K)
    requires k in m
    ensures Sum(m) == m[k] + Sum(m - {k})
    decreases |m|
  {
    var j :| j in m && Sum(m) == m[j] + Sum(m - {j});
    if j != k {
      SumRemove(m - {j}, k);
      SumRemove(m - {k}, j);
      assert m - {j} - {k} == m - {k} - {j};
    }
  }

  lemma SumPut<K(!new)>(m: map<K, int>, k: K, v: int)
    ensures Sum(m[k := v]) == Sum(m - {k}) + v
  {
    SumRemove(m[k := v], k);
    assert m[k := v] - {k} == m - {k};
  }

  lemma {:induction false} SumAdd<K(!new)>(m: map<K, int>, n: map<K, int>, both: map<K, int>)
    requires m.Keys == n.Keys == both.Keys
    requires forall k :: k in m ==> both[k] == m[k] + n[k]
    ensures Sum(both) == Sum(m) + Sum(n)
    decreases |m|
  {
    if m == map[] {
      assert n == map[] && both == map[];
    } else {
      var k :| k in m;
      SumRemove(m, k);
      SumRemove(n, k);
      SumRemove(both, k);
      SumAdd(m - {k}, n - {k}, both - {k});
    }
  }

  lemma {:induction false} SumMonotone<K(!new)>(m: map<K, int>, n: map<K, int>)
    requires m.Keys == n.Keys
    requires forall k :: k in m ==> m[k] <= n[k]
    ensures Sum(m) <= Sum(n)
    decreases |m|
  {
    if m == map[] {
      assert n == map[];
    } else {
      var k :| k in m;
      SumRemove(m, k);
      SumRemove(n, k);
      SumMonotone(m - {k}, n - {k});
    }
  }

  /** Renaming the keys one to one leaves the sum unchanged. */
  lemma {:induction false} SumReindex<K(!new), L(!new)>(m: map<K, int>, n: map<L, int>, rename: map<K, L>)
    requires rename.Keys == m.Keys
    requires forall k :: k in m ==> rename[k] in n && n[rename[k]] == m[k]
    requires forall j, k :: j in m && k in m && rename[j] == rename[k] ==> j == k
    requires forall l :: l in n ==> exists k :: k in m && rename[k] == l
    ensures Sum(m) == Sum(n)
    decreases |m|
  {
    if m == map[] {
      assert n == map[];
    } else {
      var k :| k in m;
      var l := rename[k];
      SumRemove(m, k);
      SumRemove(n, l);
      forall l' | l' in n - {l} ensures exists k' :: k' in m - {k} && (rename - {k})[k'] == l' {
        var k' :| k' in m && rename[k'] == l';
        assert k' in m - {k} && (rename - {k})[k'] == l';
      }
      SumReindex(m - {k}, n - {l}, rename - {k});
    }
  }

  lemma {:induction false} SumSplit<K(!new)>(whole: map<K, int>, left: map<K, int>, right: map<K, int>)
    requires forall k :: k in whole ==> k in left || k in right
    requires forall k :: k in left ==> k in whole && whole[k] == left[k] && k !in right
    requires forall k :: k in right ==> k in whole && whole[k] == right[k]
    ensures Sum(whole) == Sum(left) + Sum(right)
    decreases |right|
  {
    if right == map[] {
      assert whole == left;
    } else {
      var k :| k in right;
      SumRemove(right, k);
      SumRemove(whole, k);
      assert k !in left;
      SumSplit(whole - {k}, left, right - {k});
    }
  }

  lemma {:induction false} SumNegate<K(!new)>(m: map<K, int>, n: map<K, int>)
    requires m.Keys == n.Keys
    requires forall k :: k in m ==> n[k] == -m[k]
    ensures Sum(n) == -Sum(m)
  {
    var zero := map k | k in m :: 0;
    SumAdd(m, n, zero);
    SumZero(zero);
  }

  lemma {:induction false} SumZero<K(!new)>(m: map<K, int>)
    requires forall k :: k in m ==> m[k] == 0
    ensures Sum(m) == 0
    decreases |m|
  {
    if m != map[] {
      var k :| k in m;
      SumRemove(m, k);
      SumZero(m - {k});
    }
  }

  /** One more key taken from those left to sum. */
  lemma SumTake<K(!new)>(m: map<K, int>, left: set<K>, k: K)
    requires k in m && k in left
    ensures Sum(m - (left - {k})) == Sum(m - left) + m[k]
  {
    SumPut(m - left, k, m[k]);
    assert (m - left)[k := m[k]] == m - (left - {k});
    assert (m - left) - {k} == m - left;
  }
}
