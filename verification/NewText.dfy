/**
When a chunk holds new text. A window repeats the overlap of the one before it, so a run of white
space inside a paragraph can leave a chunk that is overlap alone. How long a run that takes is exact.
*/
module NewText {
  import opened Text
  import opened Windows
  import opened Splitter
  import opened SplitTheorems

  // What window k adds to the stream's processed part.
  function Added(s: string, ws: seq<Window>, k: nat): string
    requires Advancing(s, ws) && k < |ws|
  {
    s[PrevHi(ws, k)..ws[k].hi]
  }

  // If window k yields a chunk, it adds a rune that is not white space.
  predicate NewTextAt(s: string, ws: seq<Window>, k: nat)
    requires Advancing(s, ws) && k < |ws|
  {
    !Blank(View(s, ws[k])) ==> !Blank(Added(s, ws, k))
  }

  predicate NewTextInEach(s: string, ws: seq<Window>)
    requires Advancing(s, ws)
  {
    forall k | 0 <= k < |ws| :: NewTextAt(s, ws, k)
  }

  predicate BlankRunAt(p: string, i: nat, n: nat) {
    i + n <= |p| && Blank(p[i..i + n])
  }

  // No n runes in a row are white space.
  predicate NoBlankRun(p: string, n: nat) {
    forall i: nat | i <= |p| :: !BlankRunAt(p, i, n)
  }

  predicate ShortGaps(ps: seq<string>, n: nat) {
    forall p | p in ps :: NoBlankRun(p, n)
  }

  ghost predicate AlwaysNewText(size: nat, overlap: nat, n: nat) {
    forall text, chunks, stream, ws, glued |
      Explains(text, size, overlap, chunks, stream, ws, glued) && ShortGaps(Kept(Parts(NormalizeText(text))), n) ::
      Advancing(stream, ws) && NewTextInEach(stream, ws)
  }

  // ---- Short runs always leave new text ----

  lemma LaidAdvances(size: nat, overlap: nat, stream: string, ws: seq<Window>, ps: seq<string>, glued: seq<bool>)
    requires Laid(size, overlap, stream, ws, ps, glued)
    ensures Advancing(stream, ws)
  {
    hide Tiles, Advancing, InBounds, Joined, GlueRule, IsParagraph;
    TilesCover(stream, size, overlap, ws);
  }

  // A window in which a paragraph joins the stream adds that paragraph's first rune.
  lemma BoundaryIsNew(size: nat, overlap: nat, stream: string, ws: seq<Window>, ps: seq<string>, glued: seq<bool>,
                      i: nat, k: nat)
    requires Laid(size, overlap, stream, ws, ps, glued) && i < |ps| && k < |ws| && Advancing(stream, ws)
    requires PrevHi(ws, k) <= At(ps, glued, i) < ws[k].hi
    ensures !Blank(Added(stream, ws, k))
  {
    BoundaryInWindow(size, overlap, stream, ws, ps, glued, i, k);
    hide Laid, At, IsSpace;
    var p := At(ps, glued, i) + |Gap(glued, i)|;
    assert Added(stream, ws, k)[p - PrevHi(ws, k)] == stream[p];
  }

  // The last window adds the stream's last rune, the end of a paragraph.
  lemma LastIsNew(size: nat, overlap: nat, stream: string, ws: seq<Window>, ps: seq<string>, glued: seq<bool>)
    requires Laid(size, overlap, stream, ws, ps, glued) && ws != [] && Advancing(stream, ws)
    ensures !Blank(Added(stream, ws, |ws| - 1))
  {
    var k := |ws| - 1;
    NoWindows(stream, size, overlap, ws);
    assert WindowOk(stream, size, overlap, ws, k);
    hide Tiles, GlueRule, Carry, IsSpace;
    var n := |ps| - 1;
    assert ps[n] in ps;
    assert stream[|stream| - 1] == ps[n][|ps[n]| - 1];
    assert Added(stream, ws, k)[ws[k].hi - 1 - PrevHi(ws, k)] == stream[|stream| - 1];
  }

  lemma {:induction false} AtNext(ps: seq<string>, glued: seq<bool>, i: nat)
    requires |ps| == |glued| && i < |ps|
    ensures At(ps, glued, i + 1) == At(ps, glued, i) + |Gap(glued, i)| + |ps[i]|
    ensures At(ps, glued, 0) == 0 && At(ps, glued, |ps|) == |Joined(ps, glued)|
  {
    assert ps[..i + 1][..i] == ps[..i] && glued[..i + 1][..i] == glued[..i];
    assert ps[..|ps|] == ps && glued[..|ps|] == glued;
  }

  // The paragraph that holds a position, as the last one to have joined the stream by then.
  lemma {:induction false} ParagraphAt(ps: seq<string>, glued: seq<bool>, at: nat, n: nat) returns (i: nat)
    requires |ps| == |glued| && 0 < n <= |ps| && at < At(ps, glued, n)
    ensures i < n && At(ps, glued, i) <= at < At(ps, glued, i + 1)
  {
    hide At;
    AtNext(ps, glued, 0);
    if n == 1 || At(ps, glued, n - 1) <= at {
      i := n - 1;
    } else {
      i := ParagraphAt(ps, glued, at, n - 1);
    }
  }

  lemma ParagraphText(ps: seq<string>, glued: seq<bool>, i: nat)
    requires |ps| == |glued| && i < |ps|
    ensures var start := At(ps, glued, i) + |Gap(glued, i)|;
      start + |ps[i]| <= |Joined(ps, glued)| && Joined(ps, glued)[start..start + |ps[i]|] == ps[i]
  {
    JoinedHas(ps, glued, i);
    hide Joined, At;
    var at := At(ps, glued, i);
    var piece := Gap(glued, i) + ps[i];
    assert Joined(ps, glued)[at..at + |piece|] == piece;
    assert piece[|Gap(glued, i)|..] == ps[i];
  }

  // A window taken in before window k took in whole any separator it took in.
  lemma GapBehind(size: nat, overlap: nat, stream: string, ws: seq<Window>, ps: seq<string>, glued: seq<bool>,
                  i: nat, k: nat)
    requires Laid(size, overlap, stream, ws, ps, glued) && i < |ps| && k < |ws|
    requires At(ps, glued, i) < PrevHi(ws, k)
    ensures At(ps, glued, i) + |Gap(glued, i)| < PrevHi(ws, k)
  {
    var at := At(ps, glued, i);
    var j := WindowHolding(stream, size, overlap, ws, at, k);
    BoundaryInWindow(size, overlap, stream, ws, ps, glued, i, j);
    EndsIncrease(stream, size, overlap, ws, j + 1, k);
  }

  // A window that adds only white space adds a piece of the inside of one paragraph.
  lemma BlankInside(size: nat, overlap: nat, stream: string, ws: seq<Window>, ps: seq<string>, glued: seq<bool>,
                    k: nat) returns (i: nat, a: nat)
    requires Laid(size, overlap, stream, ws, ps, glued) && k < |ws| && Advancing(stream, ws)
    requires PrevHi(ws, k) < ws[k].hi && Blank(Added(stream, ws, k))
    ensures i < |ps| && a + |Added(stream, ws, k)| <= |ps[i]|
    ensures ps[i][a..a + |Added(stream, ws, k)|] == Added(stream, ws, k)
  {
    hide Tiles, GlueRule, IsParagraph, Blank, Joined, At, InBounds;
    var from_, till := PrevHi(ws, k), ws[k].hi;
    StreamParagraphs(size, overlap, stream, ws, ps, glued, k);
    i := ParagraphAt(ps, glued, from_, |ps|);
    if At(ps, glued, i) == from_ {
      BoundaryIsNew(size, overlap, stream, ws, ps, glued, i, k);
    }
    GapBehind(size, overlap, stream, ws, ps, glued, i, k);
    AtNext(ps, glued, i);
    if i + 1 < |ps| && At(ps, glued, i + 1) < till {
      BoundaryIsNew(size, overlap, stream, ws, ps, glued, i + 1, k);
    }
    ParagraphText(ps, glued, i);
    var start := At(ps, glued, i) + |Gap(glued, i)|;
    a := from_ - start;
    assert At(ps, glued, i + 1) >= till;
    SliceOfSlice(stream, start, start + |ps[i]|, from_, till);
  }

  lemma SliceOfSlice(s: string, a: nat, b: nat, c: nat, d: nat)
    requires a <= c <= d <= b <= |s|
    ensures s[a..b][c - a..d - a] == s[c..d]
  {
    var l, r := s[a..b][c - a..d - a], s[c..d];
    forall j | 0 <= j < d - c
      ensures l[j] == r[j]
    {
      assert l[j] == s[a..b][c - a + j] == s[c + j];
    }
  }

  lemma StreamParagraphs(size: nat, overlap: nat, stream: string, ws: seq<Window>, ps: seq<string>, glued: seq<bool>, k: nat)
    requires Laid(size, overlap, stream, ws, ps, glued) && k < |ws| && PrevHi(ws, k) < ws[k].hi
    ensures ps != [] && ws[k].hi <= |stream| == At(ps, glued, |ps|)
  {
    hide Tiles, GlueRule, IsParagraph;
    assert ps[..|ps|] == ps && glued[..|ps|] == glued;
  }

  lemma AddedIsView(size: nat, overlap: nat, stream: string, ws: seq<Window>, k: nat)
    requires Tiles(stream, size, overlap, ws) && k < |ws| && Advancing(stream, ws)
    ensures PrevHi(ws, k) < ws[k].hi
    ensures Carry(stream, overlap, ws, k) == 0 ==> Added(stream, ws, k) == View(stream, ws[k])
    ensures Carry(stream, overlap, ws, k) > 0 ==> overlap > 0
    ensures Carry(stream, overlap, ws, k) > 0 && k < |ws| - 1 ==> |Added(stream, ws, k)| == size - overlap
  {
    assert WindowOk(stream, size, overlap, ws, k);
    hide Blank;
  }

  // A chunk without new text comes of a run of exactly size - overlap white-space runes inside one
  // paragraph.
  lemma NoNewText(size: nat, overlap: nat, stream: string, ws: seq<Window>, ps: seq<string>, glued: seq<bool>,
                  k: nat) returns (i: nat, a: nat)
    requires Laid(size, overlap, stream, ws, ps, glued) && k < |ws| && Advancing(stream, ws)
    requires !Blank(View(stream, ws[k])) && Blank(Added(stream, ws, k))
    ensures 0 < overlap < size
    ensures i < |ps| && a + (size - overlap) <= |ps[i]| && Blank(ps[i][a..a + (size - overlap)])
  {
    LastIsNew(size, overlap, stream, ws, ps, glued);
    AddedIsView(size, overlap, stream, ws, k);
    i, a := BlankInside(size, overlap, stream, ws, ps, glued, k);
    hide *;
  }

  lemma BlankPrefix(s: string, n: nat)
    requires Blank(s) && n <= |s|
    ensures Blank(s[..n])
  {
    hide IsSpace;
  }

  lemma PartOfBlank(p: string, a: nat, l: nat, n: nat)
    requires a + l <= |p| && Blank(p[a..a + l]) && n <= l
    ensures !NoBlankRun(p, n)
  {
    BlankPrefix(p[a..a + l], n);
    assert p[a..a + l][..n] == p[a..a + n];
    hide Blank;
    assert BlankRunAt(p, a, n);
  }

  lemma ShortGapsSuffice(size: nat, overlap: nat, n: nat, stream: string, ws: seq<Window>, ps: seq<string>, glued: seq<bool>)
    requires Laid(size, overlap, stream, ws, ps, glued) && Advancing(stream, ws)
    requires ShortGaps(ps, n) && (overlap == 0 || n <= size - overlap)
    ensures NewTextInEach(stream, ws)
  {
    hide Laid, Blank, View, Added, NoBlankRun;
    forall k | 0 <= k < |ws|
      ensures NewTextAt(stream, ws, k)
    {
      if !Blank(View(stream, ws[k])) && Blank(Added(stream, ws, k)) {
        var i, a := NoNewText(size, overlap, stream, ws, ps, glued, k);
        PartOfBlank(ps[i], a, size - overlap, n);
      }
    }
  }

  // ---- Long ones do not ----

  lemma OneParagraph(text: string)
    requires text != "" && Trimmed(text) && '\r' !in text && '\n' !in text
    ensures Kept(Parts(NormalizeText(text))) == [text]
  {
    NoCrFixed(text);
    TrimFixed(text);
    NoBreak(text);
    hide Trim, JoinCrLf, CrToLf, BreakAt;
    assert [text][..0] == [] && Kept([]) == [];
  }

  lemma {:induction false} NoBreak(text: string)
    requires '\n' !in text
    ensures BreakAt(text) == |text|
  {
    if |text| >= 2 {
      NoBreak(text[1..]);
    }
  }

  lemma OneGlue(s: string, size: nat, overlap: nat, ws: seq<Window>)
    requires InBounds(s, ws)
    ensures Joined([s], [false]) == s && GlueRule(s, size, overlap, ws, [s], [false])
  {
    assert [s][..0] == [] && [false][..0] == [];
    hide InBounds, WindowStart, OpenAt;
  }

  // A first window full of letters, as many spaces as the second window adds, and a last letter.
  function Gapped(size: nat, overlap: nat): string
    requires overlap < size
  {
    seq(size, i => 'x') + seq(size - overlap, i => ' ') + "y"
  }

  lemma GappedRunes(size: nat, overlap: nat)
    requires overlap < size
    ensures var t := Gapped(size, overlap);
      && |t| == 2 * size - overlap + 1
      && (forall i | 0 <= i < size :: t[i] == 'x')
      && (forall i | size <= i < |t| - 1 :: t[i] == ' ')
      && t[|t| - 1] == 'y'
  {}

  lemma Letters()
    ensures IsSpace(' ') && !IsSpace('x') && !IsSpace('y')
  {}

  lemma GappedIsOneParagraph(size: nat, overlap: nat, n: nat)
    requires overlap < size && n > size - overlap
    ensures Kept(Parts(NormalizeText(Gapped(size, overlap)))) == [Gapped(size, overlap)]
    ensures ShortGaps([Gapped(size, overlap)], n)
  {
    hide Kept, Parts, NormalizeText, Gapped, Blank;
    var t := Gapped(size, overlap);
    GappedShape(size, overlap);
    OneParagraph(t);
    hide BlankRunAt, Trimmed;
    forall i: nat | i <= |t|
      ensures !BlankRunAt(t, i, n)
    {
      GappedRun(size, overlap, n, i);
    }
  }

  // A run longer than the spaces holds the letter before them or the one after.
  lemma GappedRun(size: nat, overlap: nat, n: nat, i: nat)
    requires overlap < size && n > size - overlap
    ensures !BlankRunAt(Gapped(size, overlap), i, n)
  {
    Letters();
    GappedRunes(size, overlap);
    hide Gapped, IsSpace;
    var t := Gapped(size, overlap);
    if i + n <= |t| {
      assert t[i..i + n][0] == t[i] && t[i..i + n][n - 1] == t[i + n - 1];
    }
  }

  lemma GappedShape(size: nat, overlap: nat)
    requires overlap < size
    ensures var t := Gapped(size, overlap); t != "" && Trimmed(t) && '\r' !in t && '\n' !in t
  {
    Letters();
    GappedRunes(size, overlap);
    hide Gapped, IsSpace;
  }

  function GappedWindows(size: nat, overlap: nat): seq<Window>
    requires overlap < size
  {
    [Window(0, size), Window(size - overlap, 2 * size - overlap), Window(2 * size - 2 * overlap, 2 * size - overlap + 1)]
  }

  lemma GappedTiles(size: nat, overlap: nat)
    requires 0 < overlap < size
    ensures var t := Gapped(size, overlap);
      var ws := GappedWindows(size, overlap);
      && Tiles(t, size, overlap, ws) && InBounds(t, ws)
      && !Blank(View(t, ws[1])) && PrevHi(ws, 1) == size && Blank(t[size..ws[1].hi])
  {
    Letters();
    GappedRunes(size, overlap);
    hide Gapped, IsSpace;
    var t := Gapped(size, overlap);
    var ws := GappedWindows(size, overlap);
    assert View(t, ws[0])[0] == 'x' && View(t, ws[1])[0] == 'x';
    hide Blank, View;
    assert WindowOk(t, size, overlap, ws, 0) && WindowOk(t, size, overlap, ws, 1) && WindowOk(t, size, overlap, ws, 2);
  }

  // With the smallest settings, size 2 and overlap 1, the text is "xx y": its second chunk is "x",
  // the overlap, because all its window adds is the space.
  lemma LongGapsFail(size: nat, overlap: nat, n: nat)
    requires 0 < overlap < size && n > size - overlap
    ensures !AlwaysNewText(size, overlap, n)
  {
    var t := Gapped(size, overlap);
    var ws := GappedWindows(size, overlap);
    GappedExplained(size, overlap);
    GappedIsOneParagraph(size, overlap, n);
    GappedTiles(size, overlap);
    hide Gapped, NormalizeText, Parts, Kept, ShortGaps, Tiles, InBounds, Emitted, Blank, View, Explains, Advancing,
         NewTextInEach, AlwaysNewText;
    OldTextAt(t, ws, 1);
    NotAlways(size, overlap, n, t, Emitted(t, ws), t, ws, [false]);
  }

  lemma NotAlways(size: nat, overlap: nat, n: nat, text: string, chunks: seq<ChunkDraft>,
                  stream: string, ws: seq<Window>, glued: seq<bool>)
    requires Explains(text, size, overlap, chunks, stream, ws, glued)
    requires ShortGaps(Kept(Parts(NormalizeText(text))), n)
    requires !(Advancing(stream, ws) && NewTextInEach(stream, ws))
    ensures !AlwaysNewText(size, overlap, n)
  {
    hide Explains, ShortGaps, Kept, Parts, NormalizeText, Advancing, NewTextInEach;
  }

  lemma GappedExplained(size: nat, overlap: nat)
    requires 0 < overlap < size
    ensures var t := Gapped(size, overlap);
      var ws := GappedWindows(size, overlap);
      InBounds(t, ws) && Explains(t, size, overlap, Emitted(t, ws), t, ws, [false])
  {
    var t := Gapped(size, overlap);
    var ws := GappedWindows(size, overlap);
    GappedIsOneParagraph(size, overlap, size);
    GappedTiles(size, overlap);
    OneGlue(t, size, overlap, ws);
    hide Gapped, NormalizeText, Parts, Kept, ShortGaps, Tiles, InBounds, Joined, GlueRule, Emitted, Blank, View, GappedWindows;
  }

  lemma OldTextAt(s: string, ws: seq<Window>, k: nat)
    requires InBounds(s, ws) && k < |ws| && PrevHi(ws, k) <= ws[k].hi
    requires !Blank(View(s, ws[k])) && Blank(s[PrevHi(ws, k)..ws[k].hi])
    ensures !(Advancing(s, ws) && NewTextInEach(s, ws))
  {
    hide Blank, View;
    assert Advancing(s, ws) ==> !NewTextAt(s, ws, k);
  }

  // On every text whose paragraphs hold no run of n white-space runes each chunk's window adds new
  // text, exactly when there is no overlap or n is at most what a window adds.
  lemma NewTextExactly(size: nat, overlap: nat, n: nat)
    requires overlap < size
    ensures AlwaysNewText(size, overlap, n) <==> overlap == 0 || n <= size - overlap
  {
    hide ShortGaps, Explains, NewTextInEach, Advancing, Laid, NormalizeText, Parts, Kept;
    if overlap == 0 || n <= size - overlap {
      forall text, chunks, stream, ws, glued |
        Explains(text, size, overlap, chunks, stream, ws, glued) && ShortGaps(Kept(Parts(NormalizeText(text))), n)
        ensures Advancing(stream, ws) && NewTextInEach(stream, ws)
      {
        var ps := Kept(Parts(NormalizeText(text)));
        ExplainsLaid(text, size, overlap, chunks, stream, ws, glued);
        LaidAdvances(size, overlap, stream, ws, ps, glued);
        ShortGapsSuffice(size, overlap, n, stream, ws, ps, glued);
      }
    } else {
      LongGapsFail(size, overlap, n);
    }
  }
}
