/** Line-ending normalisation of migration files, so that checksums do not depend on the checkout. */
module LineEndings {

  /** bytes.ReplaceAll(s, "\r\n", "\n") */
  function ReplaceCrLf(s: string): string {
    if |s| >= 2 && s[0] == '\r' && s[1] == '\n' then ['\n'] + ReplaceCrLf(s[2..])
    else if s == "" then "" else [s[0]] + ReplaceCrLf(s[1..])
  }

  /** bytes.ReplaceAll(s, "\r", "\n") */
  function ReplaceCr(s: string): string {
    if s == "" then "" else [if s[0] == '\r' then '\n' else s[0]] + ReplaceCr(s[1..])
  }

  function Normalize(s: string): string {
    ReplaceCr(ReplaceCrLf(s))
  }

  /** Both passes, as one scan from the front. */
  lemma NormalizeScan(s: string)
    ensures s != "" ==>
      Normalize(s) == (if s[0] == '\r' then ['\n'] + Normalize(if |s| >= 2 && s[1] == '\n' then s[2..] else s[1..])
                       else [s[0]] + Normalize(s[1..]))
  {
    if s != "" {
      var t := ReplaceCrLf(s);
      assert t[1..] == ReplaceCrLf(if |s| >= 2 && s[0] == '\r' && s[1] == '\n' then s[2..] else s[1..]);
    }
  }

  predicate NoCr(s: string) {
    forall i :: 0 <= i < |s| ==> s[i] != '\r'
  }

  /** Nothing is left to normalise: the result has no CR, and normalising again changes nothing. */
  lemma {:induction false} NormalizeRemovesCr(s: string)
    ensures NoCr(Normalize(s)) && |Normalize(s)| <= |s|
    decreases |s|
  {
    NormalizeScan(s);
    if s != "" {
      NormalizeRemovesCr(if |s| >= 2 && s[0] == '\r' && s[1] == '\n' then s[2..] else s[1..]);
    }
  }

  lemma {:induction false} NormalizeKeepsClean(s: string)
    ensures Normalize(s) == s <==> NoCr(s)
    decreases |s|
  {
    NormalizeScan(s);
    if s != "" {
      NormalizeKeepsClean(s[1..]);
      assert s == [s[0]] + s[1..];
    }
  }

  lemma NormalizeIdempotent(s: string)
    ensures Normalize(Normalize(s)) == Normalize(s)
  {
    NormalizeRemovesCr(s);
    NormalizeKeepsClean(Normalize(s));
  }

  // ----- one text, written with different line endings -----

  datatype Style = Lf | CrLf | Cr

  function Ending(style: Style): string {
    match style
    case Lf => "\n"
    case CrLf => "\r\n"
    case Cr => "\r"
  }

  /** The text with line break i written in style `styles[i]`; other entries of `styles` are unused. */
  function Render(text: string, styles: seq<Style>): string
    requires |text| == |styles|
  {
    if text == "" then ""
    else (if text[0] == '\n' then Ending(styles[0]) else [text[0]]) + Render(text[1..], styles[1..])
  }

  /** No CR line break is followed at once by an LF line break, which would read as one CRLF. */
  predicate Separable(text: string, styles: seq<Style>)
    requires |text| == |styles|
  {
    forall i :: 0 <= i < |text| - 1 && text[i] == '\n' && text[i + 1] == '\n' && styles[i] == Cr ==> styles[i + 1] != Lf
  }

  predicate Fused(text: string, styles: seq<Style>)
    requires |text| == |styles|
  {
    |text| >= 2 && text[0] == '\n' && styles[0] == Cr && text[1] == '\n' && styles[1] == Lf
  }

  lemma RenderHead(text: string, styles: seq<Style>)
    requires |text| == |styles| && text != "" && NoCr(text)
    ensures Render(text, styles) != ""
    ensures Render(text, styles)[0] == '\n' <==> text[0] == '\n' && styles[0] == Lf
  {
  }

  /** How normalising undoes one line break. */
  lemma NormalizeRendered(text: string, styles: seq<Style>)
    requires |text| == |styles| && text != "" && NoCr(text)
    ensures Normalize(Render(text, styles)) ==
      [text[0]] + Normalize(if Fused(text, styles) then Render(text[2..], styles[2..])
        else Render(text[1..], styles[1..]))
  {
    var r := Render(text, styles);
    var rest := Render(text[1..], styles[1..]);
    NormalizeScan(r);
    if text[0] == '\n' {
      if styles[0] == CrLf {
        assert r == ['\r', '\n'] + rest && r[2..] == rest;
      } else {
        assert r[1..] == rest;
        if styles[0] == Cr && |text| > 1 {
          RenderHead(text[1..], styles[1..]);
          if Fused(text, styles) {
            assert rest == ['\n'] + Render(text[1..][1..], styles[1..][1..]);
            assert text[1..][1..] == text[2..] && styles[1..][1..] == styles[2..];
            assert r[2..] == rest[1..];
          }
        }
      }
    } else {
      assert r == [text[0]] + rest && r[1..] == rest;
    }
  }

  /**
   Normalising recovers the text exactly when no CR line break is followed at once by an LF line break;
   otherwise line breaks are lost.
   */
  lemma {:induction false} NormalizeRenderIff(text: string, styles: seq<Style>)
    requires |text| == |styles| && NoCr(text)
    ensures Normalize(Render(text, styles)) == text <==> Separable(text, styles)
    ensures |Normalize(Render(text, styles))| <= |text|
    ensures !Separable(text, styles) ==> |Normalize(Render(text, styles))| < |text|
    decreases |text|
  {
    if text != "" {
      NormalizeRendered(text, styles);
      assert text == [text[0]] + text[1..];
      if Fused(text, styles) {
        NormalizeRenderIff(text[2..], styles[2..]);
      } else {
        NormalizeRenderIff(text[1..], styles[1..]);
        SeparableTail(text, styles);
      }
    }
  }

  /** A blank line whose two breaks are written CR and LF: one of them is lost. */
  lemma CrThenLfLosesALine()
    ensures var styles := [Cr, Lf]; !Separable("\n\n", styles) && Normalize(Render("\n\n", styles)) == "\n"
  {
    var text, styles := "\n\n", [Cr, Lf];
    NormalizeRendered(text, styles);
    assert Fused(text, styles) && Render(text[2..], styles[2..]) == "";
  }

  lemma SeparableTail(text: string, styles: seq<Style>)
    requires |text| == |styles| && text != "" && !Fused(text, styles)
    ensures Separable(text, styles) <==> Separable(text[1..], styles[1..])
  {
    var t, st := text[1..], styles[1..];
    if Separable(t, st) {
      forall i | 0 <= i < |text| - 1 && text[i] == '\n' && text[i + 1] == '\n' && styles[i] == Cr
        ensures styles[i + 1] != Lf
      {
        if i > 0 {
          assert t[i - 1] == text[i] && t[i] == text[i + 1] && st[i - 1] == styles[i] && st[i] == styles[i + 1];
        }
      }
    }
    if Separable(text, styles) {
      forall i | 0 <= i < |t| - 1 && t[i] == '\n' && t[i + 1] == '\n' && st[i] == Cr ensures st[i + 1] != Lf {
        assert text[i + 1] == t[i] && text[i + 2] == t[i + 1] && styles[i + 1] == st[i] && styles[i + 2] == st[i + 1];
      }
    }
  }

  /** A file checked out with LF, CRLF or CR throughout normalises to the same bytes. */
  lemma UniformStyle(text: string, style: Style)
    requires NoCr(text)
    ensures Normalize(Render(text, seq(|text|, _ => style))) == text
  {
    NormalizeRenderIff(text, seq(|text|, _ => style));
  }
}
