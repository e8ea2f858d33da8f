/** Key-value lists written into a table in order, and counting over them. */
module Assoc {
  import opened Sums

  /** The table after writing the entries one by one; a later entry overwrites an earlier one. */
  function ToMap<K, V>(s: seq<(K, V)>): map<K, V> {
    if s == [] then map[] else ToMap(s[..|s| - 1])[s[|s| - 1].0 := s[|s| - 1].1]
  }

  ghost predicate DistinctKeys<K, V>(s: seq<(K, V)>) {
    forall i, j :: 0 <= i < j < |s| ==> s[i].0 != s[j].0
  }

  lemma {:induction false} ToMapLookup<K, V>(s: seq<(K, V)>)
    requires DistinctKeys(s)
    ensures forall i :: 0 <= i < |s| ==> s[i].0 in ToMap(s) && ToMap(s)[s[i].0] == s[i].1
  {
    if s != [] {
      ToMapLookup(s[..|s| - 1]);
    }
  }

  lemma {:induction false} ToMapKeys<K, V>(s: seq<(K, V)>, k: K) returns (i: nat)
    requires k in ToMap(s)
    ensures i < |s| && s[i].0 == k
  {
    if s[|s| - 1].0 == k {
      i := |s| - 1;
    } else {
      i := ToMapKeys(s[..|s| - 1], k);
    }
  }

  lemma {:induction false} ToMapAppend<K, V>(a: seq<(K, V)>, b: seq<(K, V)>)
    ensures ToMap(a + b) == ToMap(a) + ToMap(b)
    decreases |b|
  {
    if b == [] {
      assert a + b == a;
    } else {
      ToMapAppend(a, b[..|b| - 1]);
      assert (a + b)[..|a + b| - 1] == a + b[..|b| - 1];
    }
  }

  function Count<T>(s: seq<T>, p: T -> bool): nat {
    if s == [] then 0 else Count(s[..|s| - 1], p) + if p(s[|s| - 1]) then 1 else 0
  }

  lemma {:induction false} CountAppend<T>(a: seq<T>, b: seq<T>, p: T -> bool)
    ensures Count(a + b, p) == Count(a, p) + Count(b, p)
    decreases |b|
  {
    if b == [] {
      assert a + b == a;
    } else {
      CountAppend(a, b[..|b| - 1], p);
      assert (a + b)[..|a + b| - 1] == a + b[..|b| - 1];
    }
  }

  ghost predicate Selects<T, K>(s: seq<T>, p: T -> bool, key: T -> K, k: K) {
    exists i :: 0 <= i < |s| && p(s[i]) && key(s[i]) == k
  }

  /** SELECT count(*) over distinct keys is the count over the list. */
  lemma {:induction false} CountIsCardinality<T, K>(s: seq<T>, p: T -> bool, key: T -> K, keys: set<K>)
    requires forall i, j :: 0 <= i < j < |s| ==> key(s[i]) != key(s[j])
    requires forall k :: k in keys ==> Selects(s, p, key, k)
    requires forall i :: 0 <= i < |s| && p(s[i]) ==> key(s[i]) in keys
    ensures |keys| == Count(s, p)
    decreases |s|
  {
    if s == [] {
      assert keys == {};
    } else {
      var n := |s| - 1;
      var rest := if p(s[n]) then keys - {key(s[n])} else keys;
      forall k | k in rest ensures Selects(s[..n], p, key, k) {
        assert Selects(s, p, key, k);
        var i :| 0 <= i < |s| && p(s[i]) && key(s[i]) == k;
        assert i != n;
        assert s[..n][i] == s[i];
      }
      CountIsCardinality(s[..n], p, key, rest);
    }
  }

  ghost function Size(): nat -> int {
    (n: nat) => n
  }

  ghost function Fiber<K, C>(e: set<K>, f: K -> C, c: C): set<K> {
    set k | k in e && f(k) == c
  }

  /** A set splits over its classes: the class sizes add up to the size of the set. */
  lemma {:induction false} FibersAddUp<K, C>(e: set<K>, f: K -> C, sizes: map<C, nat>)
    requires forall k :: k in e ==> f(k) in sizes
    requires forall c :: c in sizes ==> sizes[c] == |Fiber(e, f, c)|
    ensures Sum(sizes, Size()) == |e|
    decreases |sizes|
  {
    if sizes == map[] {
      assert e == {};
    } else {
      var c :| c in sizes;
      var fiber, others := Fiber(e, f, c), sizes - {c};
      var rest := e - fiber;
      SumPick(sizes, Size(), c);
      forall k | k in rest ensures f(k) in others { assert f(k) != c; }
      forall d | d in others ensures others[d] == |Fiber(rest, f, d)| { FiberOutside(e, f, c, d); }
      hide Fiber, Sum;
      FibersAddUp(rest, f, others);
      assert |e| == |fiber| + |rest| by { assert e == fiber + rest && fiber !! rest; }
    }
  }

  lemma FiberOutside<K, C>(e: set<K>, f: K -> C, c: C, d: C)
    requires d != c
    ensures Fiber(e - Fiber(e, f, c), f, d) == Fiber(e, f, d)
    ensures Fiber(e, f, c) <= e
  {
  }
}
