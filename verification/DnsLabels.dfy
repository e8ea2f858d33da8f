/** DNS labels, as a regular expression and as a scan: the label form of section 2.1 of RFC 1123. */
module DnsLabels {
  import opened Snapshots

  datatype Regex =
    | Class(allows: char -> bool)
    | Concat(first: Regex, second: Regex)
    | Star(body: Regex)
    | Maybe(body: Regex)

  /** The whole string matches: the expression is anchored at both ends. */
  ghost predicate Matches(r: Regex, s: string)
    decreases r, |s|
  {
    match r
    case Class(allows) => |s| == 1 && allows(s[0])
    case Concat(a, b) => exists i :: 0 <= i <= |s| && Matches(a, s[..i]) && Matches(b, s[i..])
    case Maybe(a) => s == "" || Matches(a, s)
    case Star(a) => s == "" || exists i :: 0 < i <= |s| && Matches(a, s[..i]) && Matches(r, s[i..])
  }

  ghost predicate SplitMatches(a: Regex, b: Regex, s: string, i: int)
  {
    0 <= i <= |s| && Matches(a, s[..i]) && Matches(b, s[i..])
  }

  lemma ClassMatches(p: char -> bool, s: string)
    ensures Matches(Class(p), s) <==> |s| == 1 && p(s[0])
  {
  }

  lemma ConcatMatches(a: Regex, b: Regex, s: string)
    ensures Matches(Concat(a, b), s) <==> exists i :: SplitMatches(a, b, s, i)
  {
    if Matches(Concat(a, b), s) {
      var i :| 0 <= i <= |s| && Matches(a, s[..i]) && Matches(b, s[i..]);
      assert SplitMatches(a, b, s, i);
    }
    if i :| SplitMatches(a, b, s, i) {
      assert Matches(a, s[..i]) && Matches(b, s[i..]);
    }
  }

  lemma MaybeMatches(a: Regex, s: string)
    ensures Matches(Maybe(a), s) <==> s == "" || Matches(a, s)
  {
  }

  function IsAlnum(): char -> bool { (c: char) => Alnum(c) }
  function IsAlnumOrDash(): char -> bool { (c: char) => Alnum(c) || c == '-' }

  /** [a-z0-9]([-a-z0-9]*[a-z0-9])? */
  ghost function LabelPattern(): Regex {
    Concat(Class(IsAlnum()), Maybe(Tail()))
  }

  ghost function Tail(): Regex {
    Concat(Star(Class(IsAlnumOrDash())), Class(IsAlnum()))
  }

  lemma {:induction false} StarOfClass(p: char -> bool, s: string)
    ensures Matches(Star(Class(p)), s) <==> forall i :: 0 <= i < |s| ==> p(s[i])
    decreases |s|
  {
    var star := Star(Class(p));
    if s != "" {
      StarOfClass(p, s[1..]);
      if Matches(star, s) {
        var i :| 0 < i <= |s| && Matches(Class(p), s[..i]) && Matches(star, s[i..]);
        assert i == 1 && p(s[0]);
        assert forall k :: 0 < k < |s| ==> s[k] == s[1..][k - 1];
      }
      if forall i :: 0 <= i < |s| ==> p(s[i]) {
        assert Matches(Class(p), s[..1]) && Matches(star, s[1..]);
      }
    }
  }

  lemma TailMatches(s: string)
    ensures Matches(Tail(), s) <==>
      |s| >= 1 && Alnum(s[|s| - 1]) && forall i :: 0 <= i < |s| - 1 ==> Alnum(s[i]) || s[i] == '-'
  {
    var star, last := Star(Class(IsAlnumOrDash())), Class(IsAlnum());
    ConcatMatches(star, last, s);
    if Matches(Tail(), s) {
      var i :| SplitMatches(star, last, s, i);
      ClassMatches(IsAlnum(), s[i..]);
      assert i == |s| - 1;
      StarOfClass(IsAlnumOrDash(), s[..i]);
      assert forall k :: 0 <= k < i ==> IsAlnumOrDash()(s[..i][k]) && s[..i][k] == s[k];
    }
    if |s| >= 1 && Alnum(s[|s| - 1]) && forall i :: 0 <= i < |s| - 1 ==> Alnum(s[i]) || s[i] == '-' {
      var i := |s| - 1;
      StarOfClass(IsAlnumOrDash(), s[..i]);
      ClassMatches(IsAlnum(), s[i..]);
      assert SplitMatches(star, last, s, i);
    }
  }

  /** The hub's test: a length bound and the regular expression. */
  ghost predicate HubAccepts(s: string) {
    0 < |s| <= 63 && Matches(LabelPattern(), s)
  }

  /** The hub's regular expression and the agent's scan accept the same strings. */
  lemma PatternIsLabel(s: string)
    ensures HubAccepts(s) <==> DnsLabel(s)
  {
    var first, rest := Class(IsAlnum()), Maybe(Tail());
    ConcatMatches(first, rest, s);
    if Matches(LabelPattern(), s) {
      var i :| SplitMatches(first, rest, s, i);
      ClassMatches(IsAlnum(), s[..i]);
      MaybeMatches(Tail(), s[i..]);
      assert i == 1 && Alnum(s[0]);
      TailMatches(s[1..]);
      assert forall k :: 0 < k < |s| ==> s[k] == s[1..][k - 1];
    }
    if DnsLabel(s) {
      TailMatches(s[1..]);
      ClassMatches(IsAlnum(), s[..1]);
      MaybeMatches(Tail(), s[1..]);
      assert SplitMatches(first, rest, s, 1);
    }
  }

  /** The agent's scan. */
  method ValidDnsLabel(s: string) returns (ok: bool)
    ensures ok <==> HubAccepts(s)
  {
    PatternIsLabel(s);
    if |s| == 0 || |s| > 63 || !Alnum(s[0]) || !Alnum(s[|s| - 1]) { return false; }
    for i := 0 to |s|
      invariant forall k :: 0 <= k < i ==> Alnum(s[k]) || s[k] == '-'
    {
      if !Alnum(s[i]) && s[i] != '-' { return false; }
    }
    return true;
  }
}
