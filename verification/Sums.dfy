/** Sums over the values of a finite map, independent of the order the keys are visited in. */
module Sums {

  ghost function Total<K>(m: map<K, int>): int
    decreases |m|
  {
    if m == map[] then 0
    else var k :| k in m; m[k] + Total(m - {k})
  }

  lemma {:induction false} TotalRemove<K>(m: map<K, int>, k: K)
    requires k in m
    ensures Total(m) == m[k] + Total(m - {k})
    decreases |m|
  {
    var c :| c in m && Total(m) == m[c] + Total(m - {c});
    if c != k {
      TotalRemove(m - {c}, k);
      TotalRemove(m - {k}, c);
      assert m - {c} - {k} == m - {k} - {c};
    }
  }

  lemma {:induction false} TotalUpdate<K>(m: map<K, int>, k: K, v: int)
    ensures Total(m[k := v]) == Total(m) - (if k in m then m[k] else 0) + v
  {
    TotalRemove(m[k := v], k);
    if k in m {
      TotalRemove(m, k);
      assert m[k := v] - {k} == m - {k};
    } else {
      assert m[k := v] - {k} == m;
    }
  }

  /** A map dominated key by key, on at least its own keys, has no larger sum. */
  lemma {:induction false} TotalMonotone<K>(small: map<K, int>, large: map<K, int>)
    requires small.Keys <= large.Keys
    requires forall k :: k in small ==> small[k] <= large[k]
    requires forall k :: k in large && k !in small ==> 0 <= large[k]
    ensures Total(small) <= Total(large)
    decreases |large|
  {
    if large == map[] {
      assert small == map[];
    } else {
      var k :| k in large;
      TotalRemove(large, k);
      if k in small {
        TotalRemove(small, k);
        TotalMonotone(small - {k}, large - {k});
      } else {
        TotalMonotone(small, large - {k});
      }
    }
  }

  lemma {:induction false} TotalNonNegative<K>(m: map<K, int>)
    requires forall k :: k in m ==> 0 <= m[k]
    ensures 0 <= Total(m)
  {
    TotalMonotone(map[], m);
  }

  lemma {:induction false} TotalAtLeast<K>(m: map<K, int>, k: K)
    requires k in m
    requires forall j :: j in m ==> 0 <= m[j]
    ensures m[k] <= Total(m)
  {
    TotalRemove(m, k);
    TotalNonNegative(m - {k});
  }

  lemma {:induction false} SizeUpdate<K, V>(m: map<K, V>, k: K, v: V)
    ensures |m[k := v]| == |m| + if k in m then 0 else 1
  {
    assert m[k := v].Keys == m.Keys + {k};
    assert |m[k := v].Keys| == |m[k := v]|;
    assert |m.Keys| == |m|;
    if k in m {
      assert m.Keys + {k} == m.Keys;
    } else {
      assert |m.Keys + {k}| == |m.Keys| + 1;
    }
  }

  /** `n` copies of `a`; kept apart from `*` so that sums stay linear. */
  function Times(a: int, n: nat): int {
    if n == 0 then 0 else a + Times(a, n - 1)
  }

  lemma {:induction false} TimesGrow(a: int, j: nat, k: nat)
    requires 0 <= a && j <= k
    ensures 0 <= Times(a, j) <= Times(a, k)
    ensures j < k ==> Times(a, j) + a <= Times(a, k)
    ensures 0 < a ==> k <= Times(a, k)
  {
    if k > 0 {
      TimesGrow(a, if j == k then k - 1 else j, k - 1);
    }
  }

  lemma {:induction false} TimesIsProduct(a: int, n: nat)
    ensures Times(a, n) == a * n
  {
    if n > 0 {
      TimesIsProduct(a, n - 1);
      assert a * n == a * (n - 1) + a;
    }
  }

  /** Adding at most `slack` to each entry adds at most `slack` for every entry. */
  lemma {:induction false} TotalWithinSlack<K>(m: map<K, int>, base: map<K, int>, slack: int)
    requires base.Keys <= m.Keys
    requires forall k :: k in m ==> m[k] <= (if k in base then base[k] else 0) + slack
    ensures Total(m) <= Total(base) + Times(slack, |m|)
    decreases |m|
  {
    if m == map[] {
      assert base == map[];
    } else {
      var k :| k in m;
      var rest, restBase := m - {k}, base - {k};
      TotalWithinSlack(rest, restBase, slack);
      TotalRemove(m, k);
      if k in base {
        TotalRemove(base, k);
      } else {
        assert restBase == base;
      }
    }
  }

  lemma {:induction false} SubsetSize<T>(a: set<T>, b: set<T>)
    requires a <= b
    ensures |a| <= |b|
    ensures a != b ==> |a| < |b|
  {
    assert b == a + (b - a);
    assert |b| == |a| + |b - a|;
  }
}
