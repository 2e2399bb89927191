/** What the default splitter guarantees: on every text, every chunk size and every overlap. */
module SplitTheorems {
  import opened Text
  import opened Windows
  import opened Splitter

  lemma ExplainsFacts(text: string, size: nat, overlap: nat, chunks: seq<ChunkDraft>,
                      stream: string, ws: seq<Window>, glued: seq<bool>)
    requires Explains(text, size, overlap, chunks, stream, ws, glued)
    ensures Tiles(stream, size, overlap, ws) && Sliding(stream, size, overlap, ws) && InBounds(stream, ws)
    ensures chunks == Emitted(stream, ws)
  {
    hide Sliding, Parts, Kept, NormalizeText, GlueRule, Joined, Emitted;
    SlidingBounds(stream, size, overlap, ws);
  }

  // ---- Conservation of text ----

  lemma FirstUnglued(text: string, size: nat, overlap: nat, chunks: seq<ChunkDraft>,
                     stream: string, ws: seq<Window>, glued: seq<bool>)
    requires Explains(text, size, overlap, chunks, stream, ws, glued) && glued != []
    ensures !glued[0]
  {
    hide NormalizeText, Parts, Emitted, Carry;
    ExplainsFacts(text, size, overlap, chunks, stream, ws, glued);
    var ps := Kept(Parts(NormalizeText(text)));
    hide Kept;
    assert ps[..0] == [];
    assert GlueOk(stream, size, overlap, ws, At(ps, glued, 0), false, glued[0]);
    assert ws != [] ==> WindowOk(stream, size, overlap, ws, 0);
    assert OpenAt(ws, 0, 0);
  }

  // The stream holds the text's non-white-space runes, all of them, in order, and is no longer
  // than the text.
  lemma StreamConserves(text: string, size: nat, overlap: nat, chunks: seq<ChunkDraft>,
                        stream: string, ws: seq<Window>, glued: seq<bool>)
    requires Explains(text, size, overlap, chunks, stream, ws, glued)
    ensures NonSpace(stream) == NonSpace(text)
    ensures |stream| <= |text|
  {
    var normalized := NormalizeText(text);
    var parts := Parts(normalized);
    var ps := Kept(parts);
    if ps != [] {
      FirstUnglued(text, size, overlap, chunks, stream, ws, glued);
    }
    hide NormalizeText, Parts, Kept, Flatten, NonSpace, Tiles, Emitted, GlueRule;
    NormalizeTextErased(text);
    PartsConserve(normalized);
    KeptConserve(parts);
    JoinedConserves(ps, glued);
  }

  // ---- Windows ----

  predicate Covered(ws: seq<Window>, at: nat) {
    exists k | 0 <= k < |ws| :: ws[k].lo <= at < ws[k].hi
  }

  lemma FirstWindow(s: string, size: nat, overlap: nat, ws: seq<Window>)
    requires Sliding(s, size, overlap, ws) && ws != []
    ensures ws[0].lo == 0
  {
    assert WindowOk(s, size, overlap, ws, 0);
  }

  // The windows start at the beginning, each is followed as above, and they cover the stream.
  lemma SlidingWindows(text: string, size: nat, overlap: nat, chunks: seq<ChunkDraft>,
                       stream: string, ws: seq<Window>, glued: seq<bool>)
    requires Explains(text, size, overlap, chunks, stream, ws, glued)
    ensures InBounds(stream, ws) && (ws != [] ==> ws[0].lo == 0)
    ensures EachFollowed(stream, size, overlap, ws)
    ensures forall at | 0 <= at < |stream| :: Covered(ws, at)
  {
    ExplainsFacts(text, size, overlap, chunks, stream, ws, glued);
    hide *;
    SlidingFollowed(stream, size, overlap, ws);
    if ws != [] {
      FirstWindow(stream, size, overlap, ws);
    }
    forall at | 0 <= at < |stream|
      ensures Covered(ws, at)
    {
      PositionCovered(stream, size, overlap, ws, at);
    }
  }

  lemma PositionCovered(s: string, size: nat, overlap: nat, ws: seq<Window>, at: nat)
    requires Tiles(s, size, overlap, ws) && at < |s|
    ensures Covered(ws, at)
  {
    hide Sliding;
    var k := WindowHolding(s, size, overlap, ws, at, |ws|);
  }

  lemma {:induction false} WindowHolding(s: string, size: nat, overlap: nat, ws: seq<Window>, at: nat, n: nat) returns (k: nat)
    requires Sliding(s, size, overlap, ws) && n <= |ws| && at < PrevHi(ws, n)
    ensures k < n && ws[k].lo <= PrevHi(ws, k) <= at < ws[k].hi
  {
    hide Carry;
    assert WindowOk(s, size, overlap, ws, n - 1);
    if at < PrevHi(ws, n - 1) {
      k := WindowHolding(s, size, overlap, ws, at, n - 1);
    } else {
      k := n - 1;
    }
  }

  // ---- Separators ----

  lemma {:induction false} JoinedHas(ps: seq<string>, glued: seq<bool>, i: nat)
    requires |ps| == |glued| && i < |ps|
    ensures var at := At(ps, glued, i);
      var piece := (if glued[i] then BREAK else "") + ps[i];
      at + |piece| <= |Joined(ps, glued)| && Joined(ps, glued)[at..at + |piece|] == piece
    decreases |ps|
  {
    var n := |ps| - 1;
    var before := Joined(ps[..n], glued[..n]);
    var last := (if glued[n] then BREAK else "") + ps[n];
    assert Joined(ps, glued) == before + last;
    if i < n {
      JoinedHas(ps[..n], glued[..n], i);
      assert ps[..n][..i] == ps[..i] && glued[..n][..i] == glued[..i];
      assert forall a, b | 0 <= a <= b <= |before| :: (before + last)[a..b] == before[a..b];
    } else {
      assert (before + last)[|before|..] == last;
    }
    hide Joined;
  }

  // Everything that is true of a stream laid out from given paragraphs.
  predicate Laid(size: nat, overlap: nat, stream: string, ws: seq<Window>, ps: seq<string>, glued: seq<bool>) {
    && |glued| == |ps| && (forall p | p in ps :: IsParagraph(p))
    && stream == Joined(ps, glued)
    && Tiles(stream, size, overlap, ws) && InBounds(stream, ws)
    && GlueRule(stream, size, overlap, ws, ps, glued)
  }

  lemma ExplainsLaid(text: string, size: nat, overlap: nat, chunks: seq<ChunkDraft>,
                     stream: string, ws: seq<Window>, glued: seq<bool>)
    requires Explains(text, size, overlap, chunks, stream, ws, glued)
    ensures Laid(size, overlap, stream, ws, Kept(Parts(NormalizeText(text))), glued)
  {
    hide NormalizeText, Parts, Kept, Tiles, Joined, GlueRule, IsParagraph, Emitted;
    ExplainsFacts(text, size, overlap, chunks, stream, ws, glued);
    KeptAreParagraphs(Parts(NormalizeText(text)));
  }

  // What joins the stream in front of paragraph i.
  function Gap(glued: seq<bool>, i: nat): string
    requires i < |glued|
  {
    if glued[i] then BREAK else ""
  }

  lemma BoundaryInWindow(size: nat, overlap: nat, stream: string, ws: seq<Window>, ps: seq<string>, glued: seq<bool>,
                         i: nat, k: nat)
    requires Laid(size, overlap, stream, ws, ps, glued) && i < |ps| && k < |ws|
    requires PrevHi(ws, k) <= At(ps, glued, i) < ws[k].hi
    ensures ps[i] != ""
    ensures var at := At(ps, glued, i);
      var gap := Gap(glued, i);
      && at + |gap| < ws[k].hi <= |stream|
      && stream[at..at + |gap|] == gap
      && stream[at + |gap|] == ps[i][0] && !IsSpace(stream[at + |gap|])
  {
    BoundaryFits(size, overlap, stream, ws, ps, glued, i, k);
    BoundaryText(ps, glued, i);
    hide Tiles, GlueRule, InBounds, At, Joined, Trimmed;
    assert IsParagraph(ps[i]);
    FirstOfParagraph(ps[i]);
  }

  lemma FirstOfParagraph(p: string)
    requires IsParagraph(p)
    ensures p != "" && !IsSpace(p[0])
  {}

  lemma BoundaryText(ps: seq<string>, glued: seq<bool>, i: nat)
    requires |glued| == |ps| && i < |ps| && ps[i] != ""
    ensures var at := At(ps, glued, i);
      var gap := Gap(glued, i);
      && at + |gap| < |Joined(ps, glued)|
      && Joined(ps, glued)[at..at + |gap|] == gap && Joined(ps, glued)[at + |gap|] == ps[i][0]
  {
    JoinedHas(ps, glued, i);
    hide Joined, At;
    HeadOfPiece(Joined(ps, glued), At(ps, glued, i), Gap(glued, i), ps[i]);
  }

  lemma HeadOfPiece(s: string, at: nat, gap: string, p: string)
    requires at + |gap + p| <= |s| && s[at..at + |gap + p|] == gap + p && p != ""
    ensures at + |gap| < |s| && s[at..at + |gap|] == gap && s[at + |gap|] == p[0]
  {
    var piece := gap + p;
    assert s[at..at + |gap|] == s[at..at + |piece|][..|gap|];
    assert s[at + |gap|] == s[at..at + |piece|][|gap|];
  }

  // A separator goes in only where the window has room for it and one rune more.
  lemma BoundaryFits(size: nat, overlap: nat, stream: string, ws: seq<Window>, ps: seq<string>, glued: seq<bool>,
                     i: nat, k: nat)
    requires Laid(size, overlap, stream, ws, ps, glued) && i < |ps| && k < |ws|
    requires PrevHi(ws, k) <= At(ps, glued, i) < ws[k].hi
    ensures ps[i] != "" && At(ps, glued, i) + |Gap(glued, i)| < ws[k].hi <= |stream|
  {
    hide Trimmed;
    assert IsParagraph(ps[i]);
    var at := At(ps, glued, i);
    JoinedHas(ps, glued, i);
    assert GlueOk(stream, size, overlap, ws, at, i > 0, glued[i]);
    hide GlueRule, Joined, At;
    assert OpenAt(ws, k, at);
    FullOrLast(stream, size, overlap, ws, k);
    hide Tiles;
  }

  lemma FullOrLast(s: string, size: nat, overlap: nat, ws: seq<Window>, k: nat)
    requires Tiles(s, size, overlap, ws) && k < |ws|
    ensures InBounds(s, ws) && WindowStart(s, overlap, ws, k) == ws[k].lo && ws[k].hi <= |s|
    ensures ws[k].hi == |s| || ws[k].hi == ws[k].lo + size
  {
    hide Carry;
    SlidingBounds(s, size, overlap, ws);
    assert WindowOk(s, size, overlap, ws, k);
  }

  lemma KeptLength(text: string, size: nat, overlap: nat, chunks: seq<ChunkDraft>,
                   stream: string, ws: seq<Window>, glued: seq<bool>)
    requires Explains(text, size, overlap, chunks, stream, ws, glued)
    ensures |glued| == |Kept(Parts(NormalizeText(text)))|
  {
    hide NormalizeText, Parts, Kept, Tiles, Joined, GlueRule, Emitted;
  }

  // The window in which a paragraph joins the stream takes in its separator whole, if it has one,
  // and with it the paragraph's first rune, which is not white space.
  lemma BoundariesAreFollowed(text: string, size: nat, overlap: nat, chunks: seq<ChunkDraft>,
                              stream: string, ws: seq<Window>, glued: seq<bool>, i: nat, k: nat)
    requires Explains(text, size, overlap, chunks, stream, ws, glued) && i < |glued| && k < |ws|
    requires PrevHi(ws, k) <= At(Kept(Parts(NormalizeText(text))), glued, i) < ws[k].hi
    ensures var at := At(Kept(Parts(NormalizeText(text))), glued, i);
      var gap := Gap(glued, i);
      && at + |gap| < ws[k].hi <= |stream|
      && stream[at..at + |gap|] == gap
      && !IsSpace(stream[at + |gap|])
  {
    hide *;
    ExplainsLaid(text, size, overlap, chunks, stream, ws, glued);
    KeptLength(text, size, overlap, chunks, stream, ws, glued);
    BoundaryInWindow(size, overlap, stream, ws, Kept(Parts(NormalizeText(text))), glued, i, k);
  }

  // ---- Chunks ----

  lemma NoWindowTooLarge(s: string, size: nat, overlap: nat, ws: seq<Window>)
    requires Sliding(s, size, overlap, ws)
    ensures forall k | 0 <= k < |ws| :: ws[k].hi - ws[k].lo <= size
  {
    hide Carry;
    forall k | 0 <= k < |ws|
      ensures ws[k].hi - ws[k].lo <= size
    {
      assert WindowOk(s, size, overlap, ws, k);
    }
  }

  lemma TilesEmit(s: string, size: nat, overlap: nat, ws: seq<Window>)
    requires Tiles(s, size, overlap, ws) && InBounds(s, ws) && !Blank(s)
    ensures Emitted(s, ws) != []
  {
    hide Emitted, Sliding, InBounds, Blank;
    assert s[..|s|] == s;
    SomethingEmitted(s, size, overlap, ws);
  }

  lemma SomeChunk(text: string, size: nat, overlap: nat, chunks: seq<ChunkDraft>,
                  stream: string, ws: seq<Window>, glued: seq<bool>)
    requires Explains(text, size, overlap, chunks, stream, ws, glued) && !Blank(text)
    ensures chunks != []
  {
    ExplainsFacts(text, size, overlap, chunks, stream, ws, glued);
    StreamConserves(text, size, overlap, chunks, stream, ws, glued);
    hide *;
    NonSpaceBlank(text);
    NonSpaceBlank(stream);
    TilesEmit(stream, size, overlap, ws);
  }

  // On a text that is not blank there is at least one chunk, ordinals are 0..n-1, and each content
  // is non-empty, trimmed and at most the effective size.
  lemma SplitChunks(text: string, size: nat, overlap: nat, chunks: seq<ChunkDraft>,
                    stream: string, ws: seq<Window>, glued: seq<bool>)
    requires Explains(text, size, overlap, chunks, stream, ws, glued) && !Blank(text)
    ensures chunks != []
    ensures forall i | 0 <= i < |chunks| ::
      chunks[i].ordinal == i && chunks[i].content != "" && Trimmed(chunks[i].content) && |chunks[i].content| <= size
  {
    SomeChunk(text, size, overlap, chunks, stream, ws, glued);
    ExplainsFacts(text, size, overlap, chunks, stream, ws, glued);
    NoWindowTooLarge(stream, size, overlap, ws);
    hide *;
    ChunksWellFormed(stream, size, ws);
  }

  // With overlap zero the chunks spell out the text, white space aside.
  lemma NothingLost(text: string, size: nat, chunks: seq<ChunkDraft>,
                    stream: string, ws: seq<Window>, glued: seq<bool>)
    requires Explains(text, size, 0, chunks, stream, ws, glued)
    ensures NonSpace(Flatten(Contents(chunks))) == NonSpace(text)
  {
    ExplainsFacts(text, size, 0, chunks, stream, ws, glued);
    StreamConserves(text, size, 0, chunks, stream, ws, glued);
    hide *;
    TilesConserve(stream, size, ws);
  }

  // With any overlap the same holds of the windows without what they repeat.
  lemma NothingLostButRepeats(text: string, size: nat, overlap: nat, chunks: seq<ChunkDraft>,
                              stream: string, ws: seq<Window>, glued: seq<bool>)
    requires Explains(text, size, overlap, chunks, stream, ws, glued)
    ensures Advancing(stream, ws) && Flatten(FreshParts(stream, ws)) == stream
    ensures NonSpace(Flatten(FreshParts(stream, ws))) == NonSpace(text)
  {
    ExplainsFacts(text, size, overlap, chunks, stream, ws, glued);
    StreamConserves(text, size, overlap, chunks, stream, ws, glued);
    hide Explains, NonSpace, Flatten, FreshParts, Emitted;
    TilesCover(stream, size, overlap, ws);
  }

  lemma {:induction false} OneChunkPerWindow(s: string, ws: seq<Window>)
    requires InBounds(s, ws) && forall k | 0 <= k < |ws| :: !Blank(View(s, ws[k]))
    ensures |Emitted(s, ws)| == |ws|
  {
    if ws != [] {
      assert forall k | 0 <= k < |ws| - 1 :: ws[..|ws| - 1][k] == ws[k];
      OneChunkPerWindow(s, ws[..|ws| - 1]);
      TrimBlank(View(s, ws[|ws| - 1]));
      hide Trim, View, Blank;
    }
  }

  lemma CeilDivMonotone(a: nat, b: nat, d: nat)
    requires d > 0 && a <= b
    ensures CeilDiv(a, d) <= CeilDiv(b, d)
  {
    var x, y := a + d - 1, b + d - 1;
    assert x == (x / d) * d + x % d;
    DivAtLeast(y, x / d, d);
  }

  function Beyond(length: nat, size: nat): nat {
    if length > size then length - size else 0
  }

  // Never more chunks than one plus the strides it takes to reach the end of the text, and exactly
  // that many over the stream when no window is all white space.
  lemma ChunkCountBound(text: string, size: nat, overlap: nat, chunks: seq<ChunkDraft>,
                        stream: string, ws: seq<Window>, glued: seq<bool>)
    requires Explains(text, size, overlap, chunks, stream, ws, glued) && overlap < size && !Blank(text)
    ensures |chunks| <= 1 + CeilDiv(Beyond(|text|, size), size - overlap)
    ensures InBounds(stream, ws)
    ensures (forall k | 0 <= k < |ws| :: !Blank(View(stream, ws[k]))) ==>
              |chunks| == 1 + CeilDiv(Beyond(|stream|, size), size - overlap)
  {
    ExplainsFacts(text, size, overlap, chunks, stream, ws, glued);
    StreamConserves(text, size, overlap, chunks, stream, ws, glued);
    SomeChunk(text, size, overlap, chunks, stream, ws, glued);
    BeyondMonotone(|stream|, |text|, size, overlap);
    hide *;
    EmittedCount(stream, size, overlap, ws);
  }

  lemma BeyondMonotone(a: nat, b: nat, size: nat, overlap: nat)
    requires a <= b && overlap < size
    ensures CeilDiv(Beyond(a, size), size - overlap) <= CeilDiv(Beyond(b, size), size - overlap)
  {
    CeilDivMonotone(Beyond(a, size), Beyond(b, size), size - overlap);
    hide CeilDiv;
  }

  lemma EmittedCount(s: string, size: nat, overlap: nat, ws: seq<Window>)
    requires Tiles(s, size, overlap, ws) && InBounds(s, ws) && overlap < size && Emitted(s, ws) != []
    ensures |Emitted(s, ws)| <= 1 + CeilDiv(Beyond(|s|, size), size - overlap)
    ensures (forall k | 0 <= k < |ws| :: !Blank(View(s, ws[k]))) ==>
              |Emitted(s, ws)| == 1 + CeilDiv(Beyond(|s|, size), size - overlap)
  {
    AtMostOnePerWindow(s, ws);
    hide CeilDiv, Tiles, Emitted, View, Blank, InBounds;
    WindowCount(s, size, overlap, ws);
    if forall k | 0 <= k < |ws| :: !Blank(View(s, ws[k])) {
      OneChunkPerWindow(s, ws);
    }
  }

  lemma {:induction false} AtMostOnePerWindow(s: string, ws: seq<Window>)
    requires InBounds(s, ws)
    ensures |Emitted(s, ws)| <= |ws|
  {
    if ws != [] {
      AtMostOnePerWindow(s, ws[..|ws| - 1]);
    }
  }

  // ---- The description leaves no choice ----

  // Window j, read off two streams that agree up to `at`.
  lemma SameWindow(size: nat, overlap: nat, s1: string, w1: seq<Window>, s2: string, w2: seq<Window>, at: nat, j: nat)
    requires Tiles(s1, size, overlap, w1) && Tiles(s2, size, overlap, w2)
    requires at < |s1| && at < |s2| && s1[..at] == s2[..at]
    requires j <= |w1| && j <= |w2| && w1[..j] == w2[..j] && PrevHi(w1, j) <= at
    ensures j < |w1| && j < |w2| && PrevHi(w2, j) == PrevHi(w1, j)
    ensures w1[j].lo == w2[j].lo
    ensures w1[j].hi <= at ==> w1[j] == w2[j]
    ensures w1[j].hi > at ==> w2[j].hi > at
  {
    SlidingBounds(s1, size, overlap, w1);
    SlidingBounds(s2, size, overlap, w2);
    if j > 0 {
      assert w1[j - 1] == w1[..j][j - 1] == w2[..j][j - 1];
      assert View(s1, w1[j - 1]) == s1[..at][w1[j - 1].lo..w1[j - 1].hi] == View(s2, w2[j - 1]);
    }
    hide View, Blank;
    assert WindowOk(s1, size, overlap, w1, j) && WindowOk(s2, size, overlap, w2, j);
  }

  lemma {:induction false} EndsIncrease(s: string, size: nat, overlap: nat, ws: seq<Window>, j: nat, k: nat)
    requires Sliding(s, size, overlap, ws) && j <= k <= |ws|
    ensures PrevHi(ws, j) <= PrevHi(ws, k)
  {
    hide Carry;
    if j < k {
      EndsIncrease(s, size, overlap, ws, j, k - 1);
      assert WindowOk(s, size, overlap, ws, k - 1);
    }
  }

  // Streams that agree up to `at` have the same windows before it, and the same one open there.
  lemma {:induction false} SameOpenWindow(size: nat, overlap: nat, s1: string, w1: seq<Window>,
                                          s2: string, w2: seq<Window>, at: nat, k: nat, j: nat)
    requires Tiles(s1, size, overlap, w1) && Tiles(s2, size, overlap, w2)
    requires at < |s1| && at < |s2| && s1[..at] == s2[..at]
    requires k < |w1| && OpenAt(w1, k, at)
    requires j <= k && j <= |w2| && w1[..j] == w2[..j]
    ensures k < |w2| && OpenAt(w2, k, at) && w1[..k] == w2[..k] && w1[k].lo == w2[k].lo
    decreases k - j
  {
    hide Sliding;
    EndsIncrease(s1, size, overlap, w1, j, k);
    SameWindow(size, overlap, s1, w1, s2, w2, at, j);
    if j < k {
      EndsIncrease(s1, size, overlap, w1, j + 1, k);
      assert w1[..j + 1] == w1[..j] + [w1[j]] && w2[..j + 1] == w2[..j] + [w2[j]];
      SameOpenWindow(size, overlap, s1, w1, s2, w2, at, k, j + 1);
    }
  }

  lemma NoWindows(s: string, size: nat, overlap: nat, ws: seq<Window>)
    requires Tiles(s, size, overlap, ws)
    ensures ws == [] <==> s == ""
  {
    if ws != [] {
      assert WindowOk(s, size, overlap, ws, |ws| - 1);
    }
  }

  // One stream is tiled in one way only.
  lemma TilesUnique(s: string, size: nat, overlap: nat, w1: seq<Window>, w2: seq<Window>)
    requires Tiles(s, size, overlap, w1) && Tiles(s, size, overlap, w2)
    ensures w1 == w2
  {
    NoWindows(s, size, overlap, w1);
    NoWindows(s, size, overlap, w2);
    if s != "" {
      var k := |w1| - 1;
      var at := |s| - 1;
      LastEnds(s, size, overlap, w1, k);
      SameOpenWindow(size, overlap, s, w1, s, w2, at, k, 0);
      LastEnds(s, size, overlap, w2, k);
      hide *;
      assert w1 == w1[..k] + [w1[k]] && w2 == w2[..k] + [w2[k]];
    }
  }

  // Only the last window holds the end of the stream.
  lemma LastEnds(s: string, size: nat, overlap: nat, ws: seq<Window>, k: nat)
    requires Tiles(s, size, overlap, ws) && k < |ws|
    requires k == |ws| - 1 || ws[k].hi > |s| - 1
    ensures k == |ws| - 1 && ws[k].hi == |s| && PrevHi(ws, k) <= |s| - 1
  {
    SlidingBounds(s, size, overlap, ws);
    assert WindowOk(s, size, overlap, ws, k);
    OthersEndBefore(s, size, overlap, ws);
  }

  lemma OthersEndBefore(s: string, size: nat, overlap: nat, ws: seq<Window>)
    requires Sliding(s, size, overlap, ws)
    ensures forall k | 0 <= k < |ws| - 1 :: ws[k].hi < |s|
  {
    forall k | 0 <= k < |ws| - 1
      ensures ws[k].hi < |s|
    {
      assert WindowOk(s, size, overlap, ws, k + 1);
    }
  }

  lemma {:induction false} JoinedPrefix(ps: seq<string>, glued: seq<bool>, i: nat)
    requires |ps| == |glued| && i <= |ps|
    ensures At(ps, glued, i) <= |Joined(ps, glued)|
    ensures Joined(ps, glued)[..At(ps, glued, i)] == Joined(ps[..i], glued[..i])
    decreases |ps|
  {
    if i < |ps| {
      var n := |ps| - 1;
      JoinedPrefix(ps[..n], glued[..n], i);
      assert ps[..n][..i] == ps[..i] && glued[..n][..i] == glued[..i];
      assert Joined(ps, glued)[..|Joined(ps[..n], glued[..n])|] == Joined(ps[..n], glued[..n]);
    } else {
      assert ps[..i] == ps && glued[..i] == glued;
    }
  }

  lemma GlueAtOpen(s: string, size: nat, overlap: nat, ws: seq<Window>, at: nat, later: bool, glue: bool, k: nat)
    requires Sliding(s, size, overlap, ws) && k < |ws| && OpenAt(ws, k, at)
    requires InBounds(s, ws) && GlueOk(s, size, overlap, ws, at, later, glue)
    ensures glue <==> later && at - ws[k].lo + 2 < size
  {
    hide Carry;
    assert WindowOk(s, size, overlap, ws, k);
  }

  // Two descriptions of the same paragraphs decide every separator alike.
  lemma {:induction false} SameGlue(size: nat, overlap: nat, ps: seq<string>, w1: seq<Window>, g1: seq<bool>,
                                    w2: seq<Window>, g2: seq<bool>, i: nat)
    requires |g1| == |g2| == |ps| && i <= |ps| && (forall p | p in ps :: IsParagraph(p))
    requires Tiles(Joined(ps, g1), size, overlap, w1) && Tiles(Joined(ps, g2), size, overlap, w2)
    requires InBounds(Joined(ps, g1), w1) && GlueRule(Joined(ps, g1), size, overlap, w1, ps, g1)
    requires InBounds(Joined(ps, g2), w2) && GlueRule(Joined(ps, g2), size, overlap, w2, ps, g2)
    ensures g1[..i] == g2[..i]
    decreases i
  {
    if i > 0 {
      var n := i - 1;
      SameGlue(size, overlap, ps, w1, g1, w2, g2, n);
      SameGlueStep(size, overlap, ps, w1, g1, w2, g2, n);
      hide *;
      assert g1[..i] == g1[..n] + [g1[n]] && g2[..i] == g2[..n] + [g2[n]];
    }
  }

  lemma SameGlueStep(size: nat, overlap: nat, ps: seq<string>, w1: seq<Window>, g1: seq<bool>,
                     w2: seq<Window>, g2: seq<bool>, n: nat)
    requires |g1| == |g2| == |ps| && n < |ps| && (forall p | p in ps :: IsParagraph(p))
    requires Tiles(Joined(ps, g1), size, overlap, w1) && Tiles(Joined(ps, g2), size, overlap, w2)
    requires InBounds(Joined(ps, g1), w1) && GlueRule(Joined(ps, g1), size, overlap, w1, ps, g1)
    requires InBounds(Joined(ps, g2), w2) && GlueRule(Joined(ps, g2), size, overlap, w2, ps, g2)
    requires g1[..n] == g2[..n]
    ensures g1[n] == g2[n]
  {
    hide InBounds, Sliding, GlueOk, Joined;
    assert ps[n] in ps;
    var s1, s2 := Joined(ps, g1), Joined(ps, g2);
    var at := At(ps, g1, n);
    assert at == At(ps, g2, n);
    JoinedPrefix(ps, g1, n);
    JoinedPrefix(ps, g2, n);
    AtBefore(ps, g1, n);
    AtBefore(ps, g2, n);
    var k := WindowHolding(s1, size, overlap, w1, at, |w1|);
    SameOpenWindow(size, overlap, s1, w1, s2, w2, at, k, 0);
    GlueAtOpen(s1, size, overlap, w1, at, n > 0, g1[n], k);
    GlueAtOpen(s2, size, overlap, w2, at, n > 0, g2[n], k);
  }

  // The description determines the result: any splitter that meets it returns the same chunks.
  lemma SplitDetermined(text: string, size: nat, overlap: nat,
                        c1: seq<ChunkDraft>, s1: string, w1: seq<Window>, g1: seq<bool>,
                        c2: seq<ChunkDraft>, s2: string, w2: seq<Window>, g2: seq<bool>)
    requires Explains(text, size, overlap, c1, s1, w1, g1)
    requires Explains(text, size, overlap, c2, s2, w2, g2)
    ensures c1 == c2 && s1 == s2 && w1 == w2 && g1 == g2
  {
    var ps := Kept(Parts(NormalizeText(text)));
    KeptAreParagraphs(Parts(NormalizeText(text)));
    hide Kept, Parts, NormalizeText, Joined, GlueRule, Sliding, Emitted, IsParagraph;
    SlidingBounds(s1, size, overlap, w1);
    SlidingBounds(s2, size, overlap, w2);
    SameGlue(size, overlap, ps, w1, g1, w2, g2, |ps|);
    assert g1[..|ps|] == g1 && g2[..|ps|] == g2;
    TilesUnique(s1, size, overlap, w1, w2);
  }
}
