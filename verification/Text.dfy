/**
Rune-level text helpers: Unicode white space, trimming, line-ending normalisation, and the
projection of a text onto its non-white-space runes. A Go string is modelled as the sequence
of its runes.
*/
module Text {

  // unicode.IsSpace
  predicate IsSpace(c: char) {
    || '\t' <= c <= '\r'
    || c == ' '
    || c == '\U{0085}' || c == '\U{00A0}' || c == '\U{1680}'
    || '\U{2000}' <= c <= '\U{200A}'
    || c == '\U{2028}' || c == '\U{2029}' || c == '\U{202F}' || c == '\U{205F}' || c == '\U{3000}'
  }

  predicate Blank(s: string) {
    forall i | 0 <= i < |s| :: IsSpace(s[i])
  }

  function TrimLeft(s: string): string {
    if s != "" && IsSpace(s[0]) then TrimLeft(s[1..]) else s
  }

  function TrimRight(s: string): string {
    if s != "" && IsSpace(s[|s| - 1]) then TrimRight(s[..|s| - 1]) else s
  }

  // strings.TrimSpace
  function Trim(s: string): (r: string) {
    TrimRight(TrimLeft(s))
  }

  predicate Trimmed(s: string) {
    s != "" ==> !IsSpace(s[0]) && !IsSpace(s[|s| - 1])
  }

  lemma {:induction false} TrimLeftShape(s: string) returns (i: nat)
    ensures i <= |s| && TrimLeft(s) == s[i..] && Blank(s[..i])
    ensures i < |s| ==> !IsSpace(s[i])
  {
    hide IsSpace;
    if s != "" && IsSpace(s[0]) {
      var j := TrimLeftShape(s[1..]);
      i := j + 1;
      assert s[..i] == [s[0]] + s[1..][..j];
    } else {
      i := 0;
    }
  }

  lemma {:induction false} TrimRightShape(s: string)
    ensures |TrimRight(s)| <= |s| && TrimRight(s) == s[..|TrimRight(s)|] && Blank(s[|TrimRight(s)|..])
    ensures TrimRight(s) != "" ==> !IsSpace(s[|TrimRight(s)| - 1])
  {
    hide IsSpace;
    if s != "" && IsSpace(s[|s| - 1]) {
      var init := s[..|s| - 1];
      TrimRightShape(init);
      assert s[|TrimRight(s)|..] == init[|TrimRight(s)|..] + [s[|s| - 1]];
    }
  }

  // Trimming removes a blank prefix and a blank suffix and nothing else.
  lemma TrimShape(s: string) returns (i: nat)
    ensures i + |Trim(s)| <= |s|
    ensures Trim(s) == s[i..i + |Trim(s)|]
    ensures Blank(s[..i]) && Blank(s[i + |Trim(s)|..])
    ensures Trimmed(Trim(s))
    ensures Trim(s) == "" <==> Blank(s)
  {
    i := TrimLeftShape(s);
    var l := TrimLeft(s);
    TrimRightShape(l);
    hide TrimLeft, TrimRight, IsSpace;
    var r := TrimRight(l);
    assert l[|r|..] == s[i + |r|..];
    assert r == s[i..i + |r|];
    if r == "" {
      assert s == s[..i] + l;
    } else {
      assert r[0] == s[i];
    }
  }

  predicate CoreAt(s: string, t: string, i: nat) {
    && i + |t| <= |s| && t == s[i..i + |t|]
    && Blank(s[..i]) && Blank(s[i + |t|..]) && Trimmed(t)
  }

  // t is s without the white space at its ends.
  ghost predicate Core(s: string, t: string) {
    exists i: nat :: CoreAt(s, t, i)
  }

  // Trimming gives that text, and there is no other.
  lemma CoreIsTrim(s: string, t: string)
    ensures Core(s, t) <==> t == Trim(s)
  {
    var j := TrimShape(s);
    assert CoreAt(s, Trim(s), j);
    hide Trim, IsSpace;
    forall i: nat | CoreAt(s, t, i)
      ensures t == Trim(s)
    {
      OneCore(s, t, i, Trim(s), j);
    }
  }

  lemma BlankEnds(s: string, i: nat, j: nat)
    requires i <= j <= |s| && Blank(s[..i]) && Blank(s[j..])
    ensures forall k | 0 <= k < |s| && !(i <= k < j) :: IsSpace(s[k])
  {
    hide IsSpace;
    forall k | 0 <= k < |s| && !(i <= k < j)
      ensures IsSpace(s[k])
    {
      assert if k < i then s[..i][k] == s[k] else s[j..][k - j] == s[k];
    }
  }

  lemma CoreEnds(s: string, t: string, i: nat)
    requires CoreAt(s, t, i)
    ensures t != "" ==> !IsSpace(s[i]) && !IsSpace(s[i + |t| - 1])
  {
    hide IsSpace;
    assert t != "" ==> t[0] == s[i] && t[|t| - 1] == s[i + |t| - 1];
  }

  lemma OneCore(s: string, t: string, i: nat, u: string, j: nat)
    requires CoreAt(s, t, i) && CoreAt(s, u, j)
    ensures t == u
  {
    hide IsSpace;
    CoreEnds(s, t, i);
    CoreEnds(s, u, j);
    BlankEnds(s, i, i + |t|);
    BlankEnds(s, j, j + |u|);
    hide Blank, Trimmed;
    assert t != "" ==> j <= i && i + |t| <= j + |u|;
    assert u != "" ==> i <= j && j + |u| <= i + |t|;
  }

  lemma TrimBlank(s: string)
    ensures Trim(s) == "" <==> Blank(s)
  {
    var _ := TrimShape(s);
  }

  lemma TrimFixed(s: string)
    requires Trimmed(s)
    ensures Trim(s) == s
  {}

  lemma TrimIdempotent(s: string)
    ensures Trim(Trim(s)) == Trim(s)
  {
    var _ := TrimShape(s);
    TrimFixed(Trim(s));
  }

  // The white-space-erased text.
  function NonSpace(s: string): (r: string)
    ensures |r| <= |s|
  {
    if s == "" then ""
    else if IsSpace(s[0]) then NonSpace(s[1..])
    else [s[0]] + NonSpace(s[1..])
  }

  lemma NonSpaceStep(c: char, s: string)
    ensures NonSpace([c] + s) == (if IsSpace(c) then "" else [c]) + NonSpace(s)
  {
    assert ([c] + s)[1..] == s;
    hide IsSpace;
  }

  lemma NonSpaceOfNothing()
    ensures NonSpace("") == ""
  {}

  lemma {:induction false} NonSpaceConcat(a: string, b: string)
    ensures NonSpace(a + b) == NonSpace(a) + NonSpace(b)
  {
    hide *;
    if a == "" {
      NonSpaceOfNothing();
      assert a + b == b;
    } else {
      var rest := a[1..];
      NonSpaceConcat(rest, b);
      NonSpaceStep(a[0], rest);
      NonSpaceStep(a[0], rest + b);
      assert a == [a[0]] + rest && a + b == [a[0]] + (rest + b);
    }
  }

  lemma {:induction false} NonSpaceBlank(s: string)
    ensures NonSpace(s) == "" <==> Blank(s)
  {
    if s != "" {
      NonSpaceBlank(s[1..]);
      assert s == [s[0]] + s[1..];
    }
  }

  lemma NonSpaceOfCore(left: string, core: string, right: string)
    requires Blank(left) && Blank(right)
    ensures NonSpace(left + core + right) == NonSpace(core)
  {
    NonSpaceConcat(left + core, right);
    NonSpaceConcat(left, core);
    NonSpaceBlank(left);
    NonSpaceBlank(right);
  }

  lemma NonSpaceTrim(s: string)
    ensures NonSpace(Trim(s)) == NonSpace(s)
  {
    var i := TrimShape(s);
    hide *;
    NonSpaceOfCore(s[..i], Trim(s), s[i + |Trim(s)|..]);
    assert s == s[..i] + Trim(s) + s[i + |Trim(s)|..];
  }

  // strings.ReplaceAll(text, "\r\n", "\n")
  function JoinCrLf(s: string): string {
    if |s| >= 2 && s[0] == '\r' && s[1] == '\n' then ['\n'] + JoinCrLf(s[2..])
    else if s == "" then ""
    else [s[0]] + JoinCrLf(s[1..])
  }

  // strings.ReplaceAll(text, "\r", "\n")
  function CrToLf(s: string): string {
    if s == "" then "" else [if s[0] == '\r' then '\n' else s[0]] + CrToLf(s[1..])
  }

  // Both replacements: every line ends in "\n".
  function UnixLines(s: string): string {
    CrToLf(JoinCrLf(s))
  }

  function NormalizeText(s: string): string {
    Trim(UnixLines(s))
  }

  lemma {:induction false} NoCrFixed(s: string)
    requires '\r' !in s
    ensures JoinCrLf(s) == s && CrToLf(s) == s
  {
    if s != "" {
      NoCrFixed(s[1..]);
    }
  }

  lemma {:induction false} NoCrLeft(s: string)
    ensures '\r' !in CrToLf(s) && |CrToLf(s)| == |s|
  {
    if s != "" {
      NoCrLeft(s[1..]);
    }
  }

  lemma {:induction false} JoinCrLfShortens(s: string)
    ensures |JoinCrLf(s)| <= |s|
  {
    if |s| >= 2 && s[0] == '\r' && s[1] == '\n' {
      JoinCrLfShortens(s[2..]);
    } else if s != "" {
      JoinCrLfShortens(s[1..]);
    }
  }

  lemma {:induction false} CrToLfConcat(a: string, b: string)
    ensures CrToLf(a + b) == CrToLf(a) + CrToLf(b)
  {
    if a == "" {
      assert a + b == b;
    } else {
      CrToLfConcat(a[1..], b);
      assert (a + b)[1..] == a[1..] + b;
    }
  }

  // A cut that does not go through a "\r\n".
  predicate CleanCut(a: string, b: string) {
    a != "" && b != "" ==> a[|a| - 1] != '\r' || b[0] != '\n'
  }

  lemma JoinOther(c: char, s: string)
    requires CleanCut([c], s)
    ensures JoinCrLf([c] + s) == [c] + JoinCrLf(s)
  {
    assert ([c] + s)[1..] == s;
  }

  lemma JoinPair(s: string)
    ensures JoinCrLf("\r\n" + s) == "\n" + JoinCrLf(s)
  {
    assert ("\r\n" + s)[2..] == s;
  }

  lemma JoinNothing()
    ensures JoinCrLf("") == ""
  {}

  lemma {:induction false} JoinCrLfConcat(a: string, b: string)
    requires CleanCut(a, b)
    ensures JoinCrLf(a + b) == JoinCrLf(a) + JoinCrLf(b)
  {
    hide JoinCrLf;
    if a == "" {
      JoinNothing();
      assert a + b == b;
    } else if |a| >= 2 && a[0] == '\r' && a[1] == '\n' {
      var rest := a[2..];
      JoinPair(rest);
      JoinPair(rest + b);
      JoinCrLfConcat(rest, b);
      assert a == "\r\n" + rest && a + b == "\r\n" + (rest + b);
    } else {
      var rest := a[1..];
      JoinOther(a[0], rest);
      JoinOther(a[0], rest + b);
      JoinCrLfConcat(rest, b);
      assert a == [a[0]] + rest && a + b == [a[0]] + (rest + b);
    }
  }

  lemma UnixLinesConcat(a: string, b: string)
    requires CleanCut(a, b)
    ensures UnixLines(a + b) == UnixLines(a) + UnixLines(b)
  {
    JoinCrLfConcat(a, b);
    CrToLfConcat(JoinCrLf(a), JoinCrLf(b));
  }

  lemma OneBreak(ending: string)
    requires ending == "\r\n" || ending == "\r"
    ensures UnixLines(ending) == "\n"
  {
    assert ending[|ending|..] == "" && JoinCrLf("") == "";
    assert JoinCrLf("\r") == "\r" + JoinCrLf("\r"[1..]);
    assert JoinCrLf("\r\n") == "\n" + JoinCrLf("\r\n"[2..]);
    assert CrToLf("\n") == "\n" && CrToLf("\r") == "\n";
  }

  // Each line ending, "\r\n" or a "\r" that no "\n" follows, becomes one "\n"; text without "\r"
  // stays as it is. Applied from ending to ending, this determines the result.
  lemma LineEndings(a: string, ending: string, b: string)
    requires '\r' !in a && (ending == "\r\n" || (ending == "\r" && (b == "" || b[0] != '\n')))
    ensures UnixLines(a + ending + b) == a + "\n" + UnixLines(b)
    ensures UnixLines(a) == a
    ensures '\r' !in UnixLines(b)
  {
    NoCrFixed(a);
    OneBreak(ending);
    NoCrLeft(JoinCrLf(b));
    hide CrToLf, JoinCrLf;
    UnixLinesConcat(a + ending, b);
    UnixLinesConcat(a, ending);
  }

  lemma UnixLinesShape(s: string)
    ensures '\r' !in UnixLines(s) && |UnixLines(s)| <= |s|
  {
    NoCrLeft(JoinCrLf(s));
    JoinCrLfShortens(s);
    hide CrToLf, JoinCrLf;
  }

  lemma NormalizeTextIdempotent(s: string)
    ensures NormalizeText(NormalizeText(s)) == NormalizeText(s)
    ensures Trimmed(NormalizeText(s))
  {
    var u := UnixLines(s);
    UnixLinesShape(s);
    var i := TrimShape(u);
    NoCrFixed(Trim(u));
    TrimIdempotent(u);
    hide Trim, CrToLf, JoinCrLf;
  }

  lemma {:induction false} CrToLfErased(s: string)
    ensures NonSpace(CrToLf(s)) == NonSpace(s)
  {
    if s != "" {
      CrToLfErased(s[1..]);
    }
  }

  lemma {:induction false} JoinCrLfErased(s: string)
    ensures NonSpace(JoinCrLf(s)) == NonSpace(s)
  {
    if |s| >= 2 && s[0] == '\r' && s[1] == '\n' {
      JoinCrLfErased(s[2..]);
      assert s[1..][1..] == s[2..];
    } else if s != "" {
      JoinCrLfErased(s[1..]);
    }
  }

  lemma UnixLinesErased(s: string)
    ensures NonSpace(UnixLines(s)) == NonSpace(s)
  {
    JoinCrLfErased(s);
    CrToLfErased(JoinCrLf(s));
  }

  // Normalisation keeps every non-white-space rune, in order.
  lemma NormalizeTextErased(s: string)
    ensures NonSpace(NormalizeText(s)) == NonSpace(s)
    ensures NormalizeText(s) == "" <==> Blank(s)
    ensures |NormalizeText(s)| <= |s|
  {
    UnixLinesErased(s);
    UnixLinesShape(s);
    hide Trim, NonSpace, UnixLines;
    NonSpaceTrim(UnixLines(s));
    NonSpaceBlank(s);
    NonSpaceBlank(NormalizeText(s));
    var _ := TrimShape(UnixLines(s));
  }
}
