/** Sums over the values of a finite map. */
module Totals {
  ghost function Pick<K>(m: map<K, nat>): K
    requires m != map[]
    ensures Pick(m) in m
  {
    assert m.Keys != {};
    var k :| k in m;
    k
  }

  ghost function Total<K>(m: map<K, nat>): nat {
    if m == map[] then 0 else m[Pick(m)] + Total(m - {Pick(m)})
  }

  lemma {:induction false} TotalSplit<K>(m: map<K, nat>, k: K)
    requires k in m
    ensures Total(m) == m[k] + Total(m - {k})
    decreases |m|
  {
    var p := Pick(m);
    if p != k {
      var rest := m - {p};
      assert |rest| < |m| by { assert m.Keys == rest.Keys + {p}; assert rest.Keys < m.Keys; }
      assert |m - {k}| < |m| by { assert m.Keys == (m - {k}).Keys + {k}; }
      TotalSplit(rest, k);
      TotalSplit(m - {k}, p);
      assert rest - {k} == m - {k} - {p};
    }
  }

  lemma TotalUpdate<K>(m: map<K, nat>, k: K, v: nat)
    ensures Total(m[k := v]) == Total(m) + v - (if k in m then m[k] else 0)
  {
    TotalSplit(m[k := v], k);
    if k in m {
      TotalSplit(m, k);
      assert m[k := v] - {k} == m - {k};
    } else {
      assert m[k := v] - {k} == m;
    }
  }

  /** A map that is nowhere above another sums to no more. */
  lemma {:induction false} TotalDominated<K>(m: map<K, nat>, n: map<K, nat>)
    requires forall k :: k in m ==> m[k] <= if k in n then n[k] else 0
    ensures Total(m) <= Total(n)
    decreases |m|
  {
    if m != map[] {
      var k := Pick(m);
      var rest := m - {k};
      assert |rest| < |m| by { assert m.Keys == rest.Keys + {k}; }
      if k in n {
        TotalSplit(n, k);
        TotalDominated(rest, n - {k});
      } else {
        TotalDominated(rest, n);
      }
    }
  }
}
