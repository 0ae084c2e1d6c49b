/** Sums over the values of a finite map, independent of any order. */
module Sums {

  ghost function Pick<K>(s: set<K>): (k: K)
    requires s != {}
    ensures k in s
  {
    var k :| k in s; k
  }

  ghost function Total<K>(m: map<K, int>): int
    decreases m.Keys
  {
    if m == map[] then 0
    else
      assert m.Keys != {};
      var k := Pick(m.Keys);
      m[k] + Total(m - {k})
  }

  lemma {:induction false} TotalRemove<K>(m: map<K, int>, k: K)
    requires k in m
    ensures Total(m) == m[k] + Total(m - {k})
    decreases m.Keys
  {
    var p := Pick(m.Keys);
    if p != k {
      TotalRemove(m - {p}, k);
      TotalRemove(m - {k}, p);
      assert m - {p} - {k} == m - {k} - {p};
    }
  }

  lemma {:induction false} TotalNonNegative<K>(m: map<K, int>)
    requires forall k :: k in m ==> m[k] >= 0
    ensures Total(m) >= 0
    decreases m.Keys
  {
    if m != map[] {
      assert m.Keys != {};
      TotalNonNegative(m - {Pick(m.Keys)});
    }
  }

  lemma TotalInsert<K>(m: map<K, int>, k: K, v: int)
    requires k !in m
    ensures Total(m[k := v]) == v + Total(m)
  {
    TotalRemove(m[k := v], k);
    assert m[k := v] - {k} == m;
  }

  lemma {:induction false} TotalUnion<K>(a: map<K, int>, b: map<K, int>)
    requires a.Keys !! b.Keys
    ensures Total(a + b) == Total(a) + Total(b)
    decreases b.Keys
  {
    if b == map[] {
      assert a + b == a;
    } else {
      assert b.Keys != {};
      var k := Pick(b.Keys);
      TotalRemove(a + b, k);
      assert (a + b) - {k} == a + (b - {k});
      TotalUnion(a, b - {k});
    }
  }

  /** Renaming the keys of a map one to one keeps its total. */
  lemma {:induction false} TotalRename<K, L>(m: map<K, int>, n: map<L, int>, f: map<K, L>)
    requires f.Keys == m.Keys
    requires forall k :: k in m ==> f[k] in n && n[f[k]] == m[k]
    requires forall j, k :: j in m && k in m && f[j] == f[k] ==> j == k
    requires forall l :: l in n ==> exists k :: k in m && f[k] == l
    ensures Total(m) == Total(n)
    decreases m.Keys
  {
    if m == map[] {
      assert n == map[];
    } else {
      assert m.Keys != {};
      var k := Pick(m.Keys);
      TotalRemove(n, f[k]);
      forall l | l in n - {f[k]} ensures exists j :: j in m - {k} && (f - {k})[j] == l {
        var j :| j in m && f[j] == l;
        assert j in m - {k} && (f - {k})[j] == l;
      }
      TotalRename(m - {k}, n - {f[k]}, f - {k});
    }
  }
}
