/** Sums of a weight over the rows of a table, the way SUM(...) reads a table. */
module Sums {

  /** The sum of `w` over all rows of `m`; no order of the rows is fixed. */
  ghost function Sum<K, V>(m: map<K, V>, w: V -> int): int
    decreases |m|
  {
    if m == map[] then 0
    else
      var k :| k in m;
      w(m[k]) + Sum(m - {k}, w)
  }

  /** Any row may be taken out first. */
  lemma {:induction false} SumPick<K, V>(m: map<K, V>, w: V -> int, k: K)
    requires k in m
    ensures Sum(m, w) == w(m[k]) + Sum(m - {k}, w)
    decreases |m|
  {
    var j :| j in m && Sum(m, w) == w(m[j]) + Sum(m - {j}, w);
    if j != k {
      SumPick(m - {j}, w, k);
      SumPick(m - {k}, w, j);
      assert m - {j} - {k} == m - {k} - {j};
    }
  }

  lemma SumInsert<K, V>(m: map<K, V>, w: V -> int, k: K, v: V)
    requires k !in m
    ensures Sum(m[k := v], w) == Sum(m, w) + w(v)
  {
    SumPick(m[k := v], w, k);
    assert m[k := v] - {k} == m;
  }

  lemma SumUpdate<K, V>(m: map<K, V>, w: V -> int, k: K, v: V)
    requires k in m
    ensures Sum(m[k := v], w) == Sum(m, w) - w(m[k]) + w(v)
  {
    SumPick(m, w, k);
    SumPick(m[k := v], w, k);
    assert m[k := v] - {k} == m - {k};
  }

  lemma {:induction false} SumNonNegative<K, V>(m: map<K, V>, w: V -> int)
    requires forall k :: k in m ==> w(m[k]) >= 0
    ensures Sum(m, w) >= 0
    decreases |m|
  {
    if m != map[] {
      var k :| k in m;
      SumPick(m, w, k);
      SumNonNegative(m - {k}, w);
    }
  }

  lemma SumAtLeast<K, V>(m: map<K, V>, w: V -> int, k: K)
    requires k in m
    requires forall j :: j in m ==> w(m[j]) >= 0
    ensures w(m[k]) <= Sum(m, w)
  {
    SumPick(m, w, k);
    SumNonNegative(m - {k}, w);
  }

  lemma {:induction false} SumZero<K, V>(m: map<K, V>, w: V -> int)
    requires forall k :: k in m ==> w(m[k]) == 0
    ensures Sum(m, w) == 0
    decreases |m|
  {
    if m != map[] {
      var k :| k in m;
      SumPick(m, w, k);
      SumZero(m - {k}, w);
    }
  }
}
