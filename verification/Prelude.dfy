/** Options, and sums over finite tables. */
module Prelude {
  datatype Option<+T> = None | Some(value: T)

  /** The sum of `f` over the rows of a table. */
  ghost function Sum<K(!new), V(!new)>(m: map<K, V>, f: V -> int): int
    decreases |m|
  {
    if m == map[] then 0 else var k :| k in m; f(m[k]) + Sum(m - {k}, f)
  }

  lemma {:induction false} SumRemove<K(!new), V(!new)>(m: map<K, V>, f: V -> int, k: K)
    requires k in m
    ensures Sum(m, f) == f(m[k]) + Sum(m - {k}, f)
    decreases |m|
  {
    var c :| c in m && Sum(m, f) == f(m[c]) + Sum(m - {c}, f);
    if c != k {
      SumRemove(m - {c}, f, k);
      SumRemove(m - {k}, f, c);
      assert m - {c} - {k} == m - {k} - {c};
    }
  }

  /** Writing one row changes the sum by that row's difference. */
  lemma SumUpdate<K(!new), V(!new)>(m: map<K, V>, f: V -> int, k: K, v: V)
    ensures Sum(m[k := v], f) == Sum(m, f) - (if k in m then f(m[k]) else 0) + f(v)
  {
    SumRemove(m[k := v], f, k);
    if k in m {
      SumRemove(m, f, k);
      assert m[k := v] - {k} == m - {k};
    } else {
      assert m[k := v] - {k} == m;
    }
  }
}
