/** Totals over the values of a dictionary, independent of its iteration order. */
module Sums {

  ghost function Total(m: map<string, real>): real
    decreases m.Keys
  {
    if m == map[] then 0.0
    else
      var k :| k in m;
      m[k] + Total(m - {k})
  }

  function At(m: map<string, real>, k: string): real {
    if k in m then m[k] else 0.0
  }

  lemma {:induction false} TotalWithout(m: map<string, real>, k: string)
    ensures Total(m) == At(m, k) + Total(m - {k})
    decreases m.Keys
  {
    if k !in m {
      assert m - {k} == m;
    } else {
      var j :| j in m && Total(m) == m[j] + Total(m - {j});
      if j != k {
        TotalWithout(m - {j}, k);
        TotalWithout(m - {k}, j);
        assert m - {j} - {k} == m - {k} - {j};
      }
    }
  }

  lemma TotalUpdate(m: map<string, real>, k: string, v: real)
    ensures Total(m[k := v]) == Total(m) - At(m, k) + v
  {
    TotalWithout(m, k);
    TotalWithout(m[k := v], k);
    assert m[k := v] - {k} == m - {k};
  }

  /** Two dictionaries that agree under `At` have the same total: zero entries do not matter. */
  lemma {:induction false} TotalIsExtensional(a: map<string, real>, b: map<string, real>)
    requires forall k :: At(a, k) == At(b, k)
    ensures Total(a) == Total(b)
    decreases a.Keys + b.Keys
  {
    if a.Keys + b.Keys != {} {
      var k :| k in a.Keys + b.Keys;
      TotalWithout(a, k);
      TotalWithout(b, k);
      assert (a - {k}).Keys + (b - {k}).Keys == a.Keys + b.Keys - {k};
      forall j ensures At(a - {k}, j) == At(b - {k}, j) {
        assert At(a, j) == At(b, j);
      }
      TotalIsExtensional(a - {k}, b - {k});
    } else {
      assert a.Keys == {} && b.Keys == {};
      assert a == map[] && b == map[];
    }
  }

  /** Totals add pointwise. */
  lemma {:induction false} TotalOfSums(a: map<string, real>, b: map<string, real>, c: map<string, real>)
    requires forall k :: At(c, k) == At(a, k) + At(b, k)
    ensures Total(c) == Total(a) + Total(b)
    decreases a.Keys + b.Keys + c.Keys
  {
    if a.Keys + b.Keys + c.Keys != {} {
      var k :| k in a.Keys + b.Keys + c.Keys;
      TotalWithout(a, k);
      TotalWithout(b, k);
      TotalWithout(c, k);
      assert (a - {k}).Keys + (b - {k}).Keys + (c - {k}).Keys == a.Keys + b.Keys + c.Keys - {k};
      forall j ensures At(c - {k}, j) == At(a - {k}, j) + At(b - {k}, j) {
        assert At(c, j) == At(a, j) + At(b, j);
      }
      TotalOfSums(a - {k}, b - {k}, c - {k});
    } else {
      assert a.Keys == {} && b.Keys == {} && c.Keys == {};
      assert a == map[] && b == map[] && c == map[];
    }
  }

  lemma {:induction false} TotalIsNotNegative(m: map<string, real>)
    requires forall k :: k in m ==> 0.0 <= m[k]
    ensures 0.0 <= Total(m)
    ensures forall k :: k in m ==> m[k] <= Total(m)
    decreases m.Keys
  {
    if m == map[] {
      assert Total(m) == 0.0;
    }
    forall k | k in m ensures m[k] <= Total(m) {
      TotalWithout(m, k);
      TotalIsNotNegative(m - {k});
    }
  }

  lemma TotalIsMonotone(a: map<string, real>, b: map<string, real>)
    requires forall k :: At(a, k) <= At(b, k)
    ensures Total(a) <= Total(b)
  {
    var gaps := map k | k in a.Keys + b.Keys :: At(b, k) - At(a, k);
    TotalOfSums(a, gaps, b);
    TotalIsNotNegative(gaps);
  }

  /** `sum(d.values())` */
  method Sum(m: map<string, real>) returns (total: real)
    ensures total == Total(m)
  {
    var rest := m.Keys;
    total := 0.0;
    ghost var seen: map<string, real> := map[];
    while rest != {}
      invariant rest <= m.Keys
      invariant seen == map k | k in m && k !in rest :: m[k]
      invariant total == Total(seen)
      decreases rest
    {
      var k :| k in rest;
      TotalUpdate(seen, k, m[k]);
      seen := seen[k := m[k]];
      total := total + m[k];
      rest := rest - {k};
    }
    assert seen == m;
  }
}
