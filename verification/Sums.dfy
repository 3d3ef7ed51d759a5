/** Finite sums over the rows of a table. */
module Sums {

  ghost function Sum<K, V>(m: map<K, V>, f: (K, V) -> int): int {
    if m == map[] then 0 else
      var k :| k in m;
      f(k, m[k]) + Sum(m - {k}, f)
  }

  // A sum may be opened at any row, not only at the one its definition chose.
  lemma {:induction false} SumOpen<K, V>(m: map<K, V>, f: (K, V) -> int, k: K)
    requires k in m
    ensures Sum(m, f) == f(k, m[k]) + Sum(m - {k}, f)
    decreases |m|
  {
    var c :| c in m && Sum(m, f) == f(c, m[c]) + Sum(m - {c}, f);
    if c != k {
      SumOpen(m - {c}, f, k);
      SumOpen(m - {k}, f, c);
      assert m - {c} - {k} == m - {k} - {c};
    }
  }

  // Writing one row moves the sum by that row's difference.
  lemma SumPut<K, V>(m: map<K, V>, f: (K, V) -> int, k: K, v: V)
    ensures Sum(m[k := v], f) == Sum(m, f) + f(k, v) - (if k in m then f(k, m[k]) else 0)
  {
    SumOpen(m[k := v], f, k);
    assert m[k := v] - {k} == m - {k};
    if k in m {
      SumOpen(m, f, k);
    } else {
      assert m - {k} == m;
    }
  }

  // The sum depends only on the values of the terms.
  lemma {:induction false} SumSame<K, V>(m: map<K, V>, f: (K, V) -> int, g: (K, V) -> int)
    requires forall k | k in m :: f(k, m[k]) == g(k, m[k])
    ensures Sum(m, f) == Sum(m, g)
    decreases |m|
  {
    if m != map[] {
      var k :| k in m;
      SumOpen(m, f, k);
      SumOpen(m, g, k);
      SumSame(m - {k}, f, g);
    }
  }

  lemma {:induction false} SumPlus<K, V>(m: map<K, V>, f: (K, V) -> int, g: (K, V) -> int, h: (K, V) -> int)
    requires forall k | k in m :: h(k, m[k]) == f(k, m[k]) + g(k, m[k])
    ensures Sum(m, h) == Sum(m, f) + Sum(m, g)
    decreases |m|
  {
    if m != map[] {
      var k :| k in m;
      SumOpen(m, f, k);
      SumOpen(m, g, k);
      SumOpen(m, h, k);
      SumPlus(m - {k}, f, g, h);
    }
  }

  lemma {:induction false} SumZero<K, V>(m: map<K, V>, f: (K, V) -> int)
    requires forall k | k in m :: f(k, m[k]) == 0
    ensures Sum(m, f) == 0
    decreases |m|
  {
    if m != map[] {
      var k :| k in m;
      SumOpen(m, f, k);
      SumZero(m - {k}, f);
    }
  }

  // A sum of non-negative terms is non-negative.
  lemma {:induction false} SumNonNegative<K, V>(m: map<K, V>, f: (K, V) -> int)
    requires forall k | k in m :: f(k, m[k]) >= 0
    ensures Sum(m, f) >= 0
    decreases |m|
  {
    if m != map[] {
      var k :| k in m;
      SumOpen(m, f, k);
      SumNonNegative(m - {k}, f);
    }
  }
}
