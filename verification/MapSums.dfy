/** Sums over the values of a finite map, taken in no particular order. */
module MapSums {

  ghost function Sum<K(!new), V>(m: map<K, V>, f: V -> int): int
    decreases |m|
  {
    if m == map[] then 0
    else
      var k :| k in m;
      f(m[k]) + Sum(m - {k}, f)
  }

  /** Any key may be taken out first, whichever key `Sum` happens to choose. */
  lemma {:induction false} SumRemove<K(!new), V>(m: map<K, V>, k: K, f: V -> int)
    requires k in m
    ensures Sum(m, f) == f(m[k]) + Sum(m - {k}, f)
    decreases |m|
  {
    var c :| c in m && Sum(m, f) == f(m[c]) + Sum(m - {c}, f);
    if c != k {
      SumRemove(m - {c}, k, f);
      SumRemove(m - {k}, c, f);
      assert m - {c} - {k} == m - {k} - {c};
    }
  }

  lemma SumInsert<K(!new), V>(m: map<K, V>, k: K, v: V, f: V -> int)
    requires k !in m
    ensures Sum(m[k := v], f) == f(v) + Sum(m, f)
  {
    SumRemove(m[k := v], k, f);
    assert m[k := v] - {k} == m;
  }

  /** Overwriting an entry moves the sum by the difference of the two values. */
  lemma SumReplace<K(!new), V>(m: map<K, V>, k: K, v: V, f: V -> int)
    requires k in m
    ensures Sum(m[k := v], f) == Sum(m, f) - f(m[k]) + f(v)
  {
    SumRemove(m, k, f);
    SumRemove(m[k := v], k, f);
    assert m[k := v] - {k} == m - {k};
  }

  /** Values that lie in `lo..hi` give a sum that lies in `lo*|m| .. hi*|m|`. */
  lemma {:induction false} SumBounds<K(!new), V>(m: map<K, V>, f: V -> int, lo: int, hi: int)
    requires forall k :: k in m ==> lo <= f(m[k]) <= hi
    ensures lo * |m| <= Sum(m, f) <= hi * |m|
    decreases |m|
  {
    if m != map[] {
      var k :| k in m;
      var rest := m - {k};
      SumRemove(m, k, f);
      SumBounds(rest, f, lo, hi);
      assert |m| == |rest| + 1 by {
        assert m == rest[k := m[k]];
      }
      MulSuccessor(lo, |rest|);
      MulSuccessor(hi, |rest|);
    }
  }

  lemma MulSuccessor(x: int, n: int)
    ensures x * (n + 1) == x * n + x
  {}
}
