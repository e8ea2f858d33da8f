/** Sorting by string keys in byte order. */
module Sorting {
  import opened Text

  ghost predicate SortedBy<T>(s: seq<T>, key: T -> string) {
    forall i, j :: 0 <= i < j < |s| ==> Less(key(s[i]), key(s[j]))
  }

  function Itself(): string -> string {
    (s: string) => s
  }

  ghost predicate DistinctBy<T>(s: seq<T>, key: T -> string) {
    forall i, j :: 0 <= i < j < |s| ==> key(s[i]) != key(s[j])
  }

  lemma SameMembers<T>(a: seq<T>, b: seq<T>)
    requires multiset(a) == multiset(b)
    ensures forall x :: x in a <==> x in b
  {
    forall x ensures x in a <==> x in b {
      assert x in a <==> x in multiset(a);
      assert x in b <==> x in multiset(b);
    }
  }

  lemma HasMember<T>(s: seq<T>)
    ensures s != [] ==> exists x :: x in s
  {
    if s != [] { assert s[0] in s; }
  }

  /** A strictly sorted list is determined by its elements. */
  lemma {:induction false} SortedUnique<T>(a: seq<T>, b: seq<T>, key: T -> string)
    requires SortedBy(a, key) && SortedBy(b, key)
    requires forall x :: x in a <==> x in b
    ensures a == b
    decreases |a|
  {
    if a == [] {
      HasMember(b);
    } else {
      assert a[0] in b && b != [];
      assert b[0] in a;
      var i :| 0 <= i < |a| && a[i] == b[0];
      var j :| 0 <= j < |b| && b[j] == a[0];
      if i > 0 && j > 0 { LessTotal(key(a[0]), key(b[0])); }
      assert a[0] == b[0];
      forall x ensures x in a[1..] <==> x in b[1..] {
        LessIrreflexive(key(a[0]));
        if x in a[1..] { assert x in a && x != a[0]; }
        if x in b[1..] { assert x in b && x != b[0]; }
      }
      SortedUnique(a[1..], b[1..], key);
      assert a == [a[0]] + a[1..] && b == [b[0]] + b[1..];
    }
  }

  /** sort.Strings and sort.Slice on keys that differ. */
  method Sort<T>(s: seq<T>, key: T -> string) returns (r: seq<T>)
    requires DistinctBy(s, key)
    ensures SortedBy(r, key) && multiset(r) == multiset(s)
  {
    r := [];
    for i := 0 to |s|
      invariant SortedBy(r, key) && multiset(r) == multiset(s[..i])
    {
      var x, p := s[i], 0;
      while p < |r| && Less(key(r[p]), key(x))
        invariant p <= |r| && forall k :: 0 <= k < p ==> Less(key(r[k]), key(x))
      {
        p := p + 1;
      }
      SortedInsert(s, i, r, p, key);
      assert s[..i + 1] == s[..i] + [x];
      assert r == r[..p] + r[p..];
      r := r[..p] + [x] + r[p..];
    }
    assert s[..|s|] == s;
  }

  lemma SortedInsert<T>(s: seq<T>, i: nat, r: seq<T>, p: nat, key: T -> string)
    requires i < |s| && DistinctBy(s, key) && SortedBy(r, key) && multiset(r) == multiset(s[..i])
    requires p <= |r| && (forall k :: 0 <= k < p ==> Less(key(r[k]), key(s[i])))
    requires p < |r| ==> !Less(key(r[p]), key(s[i]))
    ensures SortedBy(r[..p] + [s[i]] + r[p..], key)
  {
    var x := s[i];
    var now := r[..p] + [x] + r[p..];
    SameMembers(r, s[..i]);
    forall k | p <= k < |r| ensures Less(key(x), key(r[k])) {
      assert r[p] in s[..i];
      var j :| 0 <= j < i && s[j] == r[p];
      LessTotal(key(r[p]), key(x));
      if k > p { LessTransitive(key(x), key(r[p]), key(r[k])); }
    }
    forall a, b | 0 <= a < b < |now| ensures Less(key(now[a]), key(now[b])) {
      assert now[a] == if a < p then r[a] else if a == p then x else r[a - 1];
      assert now[b] == if b < p then r[b] else if b == p then x else r[b - 1];
    }
  }

  /** The keys of a map, iterated in any order and then sorted. */
  method SortedKeys<V>(m: map<string, V>) returns (names: seq<string>)
    ensures SortedBy(names, Itself())
    ensures forall k :: k in names <==> k in m
  {
    var listed: seq<string> := [];
    var rest := m.Keys;
    while rest != {}
      invariant rest <= m.Keys
      invariant forall k :: k in listed <==> k in m && k !in rest
      invariant forall i, j :: 0 <= i < j < |listed| ==> listed[i] != listed[j]
      decreases |rest|
    {
      var name :| name in rest;
      rest := rest - {name};
      listed := listed + [name];
    }
    names := Sort(listed, Itself());
    SameMembers(names, listed);
  }
}
