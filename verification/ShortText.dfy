/** A text that fits into one window is one chunk: its paragraphs, a blank line between each two. */
module ShortText {
  import opened Text
  import opened Windows
  import opened Splitter
  import opened SplitTheorems

  // Separators before all paragraphs but the first.
  predicate GluedUpTo(glued: seq<bool>, n: nat) {
    n <= |glued| && forall j | 0 <= j < n :: glued[j] <==> j > 0
  }

  lemma {:induction false} RejoinedSnoc(ps: seq<string>, p: string)
    requires ps != []
    ensures Rejoined(ps + [p]) == Rejoined(ps) + "\n\n" + p
  {
    hide *;
    var rest := ps[1..];
    assert ps == [ps[0]] + rest;
    if rest == [] {
      assert ps == [ps[0]];
      RejoinedOne(ps[0]);
      RejoinedOne(p);
      RejoinedCons(ps[0], [p]);
      assert ps + [p] == [ps[0]] + [p];
    } else {
      RejoinedSnoc(rest, p);
      RejoinedCons(ps[0], rest);
      RejoinedCons(ps[0], rest + [p]);
      assert ps + [p] == [ps[0]] + (rest + [p]);
    }
  }

  lemma {:induction false} JoinedGlued(ps: seq<string>, glued: seq<bool>)
    requires |ps| == |glued| && GluedUpTo(glued, |ps|)
    ensures Joined(ps, glued) == Rejoined(ps)
  {
    if ps != [] {
      var n := |ps| - 1;
      assert ps == ps[..n] + [ps[n]] && glued == glued[..n] + [glued[n]];
      JoinedGlued(ps[..n], glued[..n]);
      JoinedSnoc(ps[..n], glued[..n], ps[n], glued[n]);
      hide Joined;
      if n > 0 {
        RejoinedSnoc(ps[..n], ps[n]);
      } else {
        JoinedNothing();
        RejoinedOne(ps[n]);
      }
    }
  }

  lemma JoinedNothing()
    ensures Joined([], []) == "" == Rejoined([])
  {}

  // Nothing gets shorter by further paragraphs.
  lemma {:induction false} RejoinedPrefix(ps: seq<string>, i: nat)
    requires 0 < i <= |ps|
    ensures |Rejoined(ps[..i])| <= |Rejoined(ps)|
    decreases |ps|
  {
    hide *;
    var n := |ps| - 1;
    if i <= n {
      RejoinedPrefix(ps[..n], i);
      RejoinedSnoc(ps[..n], ps[n]);
      assert ps[..n][..i] == ps[..i] && ps == ps[..n] + [ps[n]];
    } else {
      assert ps[..i] == ps;
    }
  }

  lemma RoomForGlue(ps: seq<string>, i: nat)
    requires 0 < i < |ps| && ps[i] != ""
    ensures |Rejoined(ps[..i])| + |BREAK| < |Rejoined(ps)|
  {
    hide Rejoined;
    RejoinedPrefix(ps, i + 1);
    assert ps[..i + 1] == ps[..i] + [ps[i]];
    RejoinedSnoc(ps[..i], ps[i]);
  }

  // In a stream no longer than a window the first window is open at every paragraph.
  lemma FirstIsOpen(size: nat, overlap: nat, stream: string, ws: seq<Window>, at: nat)
    requires Tiles(stream, size, overlap, ws) && InBounds(stream, ws) && at < |stream| && at < size
    ensures OpenAt(ws, 0, at) && WindowStart(stream, overlap, ws, 0) == 0
  {
    hide Sliding;
    if ws != [] {
      FullOrLast(stream, size, overlap, ws, 0);
    }
  }

  lemma NextGlued(size: nat, overlap: nat, stream: string, ws: seq<Window>, ps: seq<string>, glued: seq<bool>, i: nat)
    requires Laid(size, overlap, stream, ws, ps, glued) && |Rejoined(ps)| <= size && i < |ps| && GluedUpTo(glued, i)
    ensures GluedUpTo(glued, i + 1)
  {
    hide Tiles, InBounds, Joined, WindowStart, OpenAt, Rejoined;
    var at := At(ps, glued, i);
    assert IsParagraph(ps[i]);
    assert GlueOk(stream, size, overlap, ws, at, i > 0, glued[i]);
    JoinedGlued(ps[..i], glued[..i]);
    AtBefore(ps, glued, i);
    if i > 0 {
      RoomForGlue(ps, i);
      FirstIsOpen(size, overlap, stream, ws, at);
    } else {
      NotBeforeFirst(size, overlap, stream, ws, ps, glued);
    }
  }

  lemma NotBeforeFirst(size: nat, overlap: nat, stream: string, ws: seq<Window>, ps: seq<string>, glued: seq<bool>)
    requires Laid(size, overlap, stream, ws, ps, glued) && ps != []
    ensures !glued[0]
  {
    hide InBounds, Trimmed, Carry;
    assert ps[..0] == [];
    assert GlueOk(stream, size, overlap, ws, At(ps, glued, 0), false, glued[0]);
    assert ws != [] ==> WindowOk(stream, size, overlap, ws, 0);
    assert OpenAt(ws, 0, 0);
  }

  lemma {:induction false} AllGlued(size: nat, overlap: nat, stream: string, ws: seq<Window>, ps: seq<string>, glued: seq<bool>, i: nat)
    requires Laid(size, overlap, stream, ws, ps, glued) && |Rejoined(ps)| <= size && i <= |ps|
    ensures GluedUpTo(glued, i)
  {
    hide Tiles, InBounds, Joined, GlueRule, IsParagraph, Rejoined;
    if i > 0 {
      AllGlued(size, overlap, stream, ws, ps, glued, i - 1);
      NextGlued(size, overlap, stream, ws, ps, glued, i - 1);
    }
  }

  lemma {:induction false} RejoinedTrimmed(ps: seq<string>)
    requires ps != [] && forall p | p in ps :: IsParagraph(p)
    ensures IsParagraph(Rejoined(ps))
  {
    hide IsSpace, Rejoined;
    var n := |ps| - 1;
    assert IsParagraph(ps[n]);
    if n == 0 {
      RejoinedOne(ps[0]);
      assert ps == [ps[0]];
    } else {
      RejoinedTrimmed(ps[..n]);
      RejoinedSnoc(ps[..n], ps[n]);
      assert ps == ps[..n] + [ps[n]];
    }
  }

  lemma OneWindow(s: string, size: nat, overlap: nat, ws: seq<Window>)
    requires Tiles(s, size, overlap, ws) && 0 < |s| <= size
    ensures ws == [Window(0, |s|)]
  {
    hide Carry;
    assert WindowOk(s, size, overlap, ws, 0);
    FirstWindow(s, size, overlap, ws);
    assert |ws| > 1 ==> WindowOk(s, size, overlap, ws, 1);
  }

  lemma OneChunk(s: string, ws: seq<Window>)
    requires ws == [Window(0, |s|)] && InBounds(s, ws) && IsParagraph(s)
    ensures Emitted(s, ws) == [ChunkDraft(0, s)]
  {
    TrimFixed(s);
    hide Trim, Trimmed;
    assert View(s, ws[0]) == s && ws[..0] == [];
  }

  lemma LaidShort(size: nat, overlap: nat, stream: string, ws: seq<Window>, ps: seq<string>, glued: seq<bool>)
    requires Laid(size, overlap, stream, ws, ps, glued) && |Rejoined(ps)| <= size && stream != ""
    ensures stream == Rejoined(ps) && Emitted(stream, ws) == [ChunkDraft(0, stream)]
  {
    AllGlued(size, overlap, stream, ws, ps, glued, |ps|);
    JoinedGlued(ps, glued);
    hide GlueRule, IsParagraph, Rejoined, Tiles, InBounds, Emitted;
    if ps == [] {
      JoinedNothing();
    } else {
      RejoinedTrimmed(ps);
      OneWindow(stream, size, overlap, ws);
      OneChunk(stream, ws);
    }
  }

  // Separators and all: a text whose paragraphs, a blank line between each two, fit into the effective
  // size is one chunk, and that is its content.
  lemma ShortTextIsOneChunk(text: string, size: nat, overlap: nat, chunks: seq<ChunkDraft>,
                            stream: string, ws: seq<Window>, glued: seq<bool>)
    requires Explains(text, size, overlap, chunks, stream, ws, glued) && !Blank(text)
    requires |Rejoined(Kept(Parts(NormalizeText(text))))| <= size
    ensures chunks == [ChunkDraft(0, Rejoined(Kept(Parts(NormalizeText(text)))))]
  {
    ExplainsLaid(text, size, overlap, chunks, stream, ws, glued);
    ExplainsFacts(text, size, overlap, chunks, stream, ws, glued);
    StreamConserves(text, size, overlap, chunks, stream, ws, glued);
    hide *;
    NonSpaceBlank(text);
    NonSpaceOfNothing();
    LaidShort(size, overlap, stream, ws, Kept(Parts(NormalizeText(text))), glued);
  }
}
