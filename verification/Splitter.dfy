/** The default splitter: paragraphs fed rune by rune through a sliding window. */
module Splitter {
  import opened Text
  import opened Windows

  const DEFAULT_CHUNK_SIZE := 900
  const DEFAULT_OVERLAP := 120

  function EffectiveSize(chunkSize: int): (c: nat)
    ensures c > 0
  {
    if chunkSize <= 0 then DEFAULT_CHUNK_SIZE else chunkSize
  }

  function EffectiveOverlap(chunkSize: int, overlap: int): (o: nat)
    ensures o < EffectiveSize(chunkSize)
  {
    var c := EffectiveSize(chunkSize);
    if overlap < 0 then 0 else if overlap >= c then c / 4 else overlap
  }

  // ---- Paragraphs ----

  // The first "\n\n" at or after the start, or the length if there is none.
  function BreakAt(text: string): (i: nat)
    ensures i == |text| || (i + 1 < |text| && text[i] == '\n' && text[i + 1] == '\n')
  {
    if |text| < 2 then |text|
    else if text[0] == '\n' && text[1] == '\n' then 0
    else 1 + BreakAt(text[1..])
  }

  // strings.Split(text, "\n\n")
  function Parts(text: string): (ps: seq<string>)
    ensures ps != []
    decreases |text|
  {
    var i := BreakAt(text);
    if i == |text| then [text] else [text[..i]] + Parts(text[i + 2..])
  }

  // The trimmed parts that are not empty.
  function Kept(parts: seq<string>): seq<string> {
    if parts == [] then []
    else
      var p := Trim(parts[|parts| - 1]);
      if p == "" then Kept(parts[..|parts| - 1]) else Kept(parts[..|parts| - 1]) + [p]
  }

  predicate IsParagraph(p: string) {
    p != "" && Trimmed(p)
  }

  lemma {:induction false} KeptAreParagraphs(parts: seq<string>)
    ensures forall p | p in Kept(parts) :: IsParagraph(p)
  {
    if parts != [] {
      KeptAreParagraphs(parts[..|parts| - 1]);
      var _ := TrimShape(parts[|parts| - 1]);
      hide Trim;
    }
  }

  // A blank line: two breaks in a row.
  predicate BreakIn(s: string, i: nat) {
    i + 1 < |s| && s[i] == '\n' && s[i + 1] == '\n'
  }

  predicate NoBlankLine(s: string) {
    forall i | 0 <= i < |s| :: !BreakIn(s, i)
  }

  lemma {:induction false} BreakIsFirst(text: string)
    ensures forall j | 0 <= j < BreakAt(text) :: !BreakIn(text, j)
  {
    if BreakAt(text) > 0 && |text| >= 2 {
      BreakIsFirst(text[1..]);
      forall j | 0 <= j < BreakAt(text)
        ensures !BreakIn(text, j)
      {
        if j > 0 { assert !BreakIn(text[1..], j - 1); }
      }
    }
  }

  function Rejoined(parts: seq<string>): string {
    if parts == [] then "" else if |parts| == 1 then parts[0] else parts[0] + "\n\n" + Rejoined(parts[1..])
  }

  lemma RejoinedCons(p: string, ps: seq<string>)
    requires ps != []
    ensures Rejoined([p] + ps) == p + "\n\n" + Rejoined(ps)
  {
    assert ([p] + ps)[1..] == ps;
  }

  lemma PartsStep(text: string)
    ensures var i := BreakAt(text);
      Parts(text) == if i == |text| then [text] else [text[..i]] + Parts(text[i + 2..])
  {
    hide BreakAt;
  }

  lemma RejoinedOne(p: string)
    ensures Rejoined([p]) == p
  {}

  // Put back between the parts, the blank lines give the text again; no part holds one.
  lemma {:induction false} PartsRejoin(text: string)
    ensures Rejoined(Parts(text)) == text
    ensures forall k | 0 <= k < |Parts(text)| :: NoBlankLine(Parts(text)[k])
    decreases |text|
  {
    hide *;
    var i := BreakAt(text);
    PartsStep(text);
    BreakIsFirst(text);
    PartBefore(text, i);
    if i == |text| {
      RejoinedOne(text);
      assert text[..i] == text;
    } else {
      var rest := text[i + 2..];
      PartsRejoin(rest);
      RejoinedCons(text[..i], Parts(rest));
      assert text == text[..i] + "\n\n" + rest;
    }
  }

  lemma PartBefore(text: string, i: nat)
    requires i <= |text| && forall j | 0 <= j < i :: !BreakIn(text, j)
    ensures NoBlankLine(text[..i])
  {
    forall j | 0 <= j < i
      ensures !BreakIn(text[..i], j)
    {
      assert !BreakIn(text, j);
    }
  }

  lemma TrimHoldsNoBreak(s: string)
    requires NoBlankLine(s)
    ensures NoBlankLine(Trim(s))
  {
    var i := TrimShape(s);
    hide Trim, IsSpace;
    forall j | 0 <= j < |Trim(s)|
      ensures !BreakIn(Trim(s), j)
    {
      assert !BreakIn(s, i + j);
    }
  }

  // So no paragraph holds a blank line.
  lemma {:induction false} KeptHoldNoBreak(parts: seq<string>)
    requires forall k | 0 <= k < |parts| :: NoBlankLine(parts[k])
    ensures forall p | p in Kept(parts) :: NoBlankLine(p)
  {
    if parts != [] {
      KeptHoldNoBreak(parts[..|parts| - 1]);
      TrimHoldsNoBreak(parts[|parts| - 1]);
      hide Trim, NoBlankLine;
    }
  }

  lemma ParagraphsHoldNoBlankLine(text: string)
    ensures forall p | p in Kept(Parts(text)) :: IsParagraph(p) && NoBlankLine(p)
  {
    PartsRejoin(text);
    KeptHoldNoBreak(Parts(text));
    KeptAreParagraphs(Parts(text));
    hide NoBlankLine, IsParagraph, Parts, Kept;
  }

  // splitParagraphs
  method SplitParagraphs(text: string) returns (out: seq<string>)
    ensures out == Kept(Parts(text))
  {
    hide Trim, Parts;
    var parts := Parts(text);
    out := [];
    for i := 0 to |parts|
      invariant out == Kept(parts[..i])
    {
      assert parts[..i + 1][..i] == parts[..i];
      var part := Trim(parts[i]);
      if part != "" {
        out := out + [part];
      }
    }
    assert parts[..|parts|] == parts;
  }

  lemma {:induction false} FlattenCons(p: string, ps: seq<string>)
    ensures Flatten([p] + ps) == p + Flatten(ps)
  {
    if ps == [] {
      assert [p][..0] == [];
      assert [p] + ps == [p];
    } else {
      FlattenCons(p, ps[..|ps| - 1]);
      assert ([p] + ps)[..|ps|] == [p] + ps[..|ps| - 1];
    }
  }

  lemma DropBreak(left: string, gap: string, right: string)
    requires Blank(gap)
    ensures NonSpace(left + gap + right) == NonSpace(left) + NonSpace(right)
  {
    NonSpaceConcat(left + gap, right);
    NonSpaceConcat(left, gap);
    NonSpaceBlank(gap);
  }

  // Splitting removes only the separators, two runes each.
  lemma {:induction false} PartsConserve(text: string)
    ensures NonSpace(Flatten(Parts(text))) == NonSpace(text)
    ensures |Flatten(Parts(text))| + 2 * (|Parts(text)| - 1) == |text|
    decreases |text|
  {
    hide NonSpace, Flatten;
    var i := BreakAt(text);
    if i == |text| {
      FlattenCons(text, []);
      FlattenNothing();
      assert [text] + [] == [text];
      assert text + "" == text;
    } else {
      var rest := text[i + 2..];
      PartsConserve(rest);
      FlattenCons(text[..i], Parts(rest));
      NonSpaceConcat(text[..i], Flatten(Parts(rest)));
      assert text == text[..i] + text[i..i + 2] + rest;
      DropBreak(text[..i], text[i..i + 2], rest);
    }
  }

  lemma FlattenNothing()
    ensures Flatten([]) == ""
  {}

  lemma {:induction false} KeptConserve(parts: seq<string>)
    ensures NonSpace(Flatten(Kept(parts))) == NonSpace(Flatten(parts))
    ensures |Flatten(Kept(parts))| + 2 * |Kept(parts)| <= |Flatten(parts)| + 2 * |parts|
  {
    if parts != [] {
      var init, last := parts[..|parts| - 1], parts[|parts| - 1];
      KeptConserve(init);
      KeptLastConserve(init, last);
      assert parts == init + [last];
    }
  }

  lemma KeptLast(init: seq<string>, last: string)
    ensures Kept(init + [last]) == if Trim(last) == "" then Kept(init) else Kept(init) + [Trim(last)]
  {
    assert (init + [last])[..|init|] == init;
    hide Trim;
  }

  lemma KeptLastConserve(init: seq<string>, last: string)
    requires NonSpace(Flatten(Kept(init))) == NonSpace(Flatten(init))
    requires |Flatten(Kept(init))| + 2 * |Kept(init)| <= |Flatten(init)| + 2 * |init|
    ensures NonSpace(Flatten(Kept(init + [last]))) == NonSpace(Flatten(init + [last]))
    ensures |Flatten(Kept(init + [last]))| + 2 * |Kept(init + [last])| <= |Flatten(init + [last])| + 2 * |init + [last]|
  {
    hide Trim, NonSpace, Flatten, Kept, TrimLeft, TrimRight;
    var p := Trim(last);
    NonSpaceTrim(last);
    var _ := TrimShape(last);
    KeptLast(init, last);
    FlattenSnoc(init, last);
    NonSpaceConcat(Flatten(init), last);
    if p == "" {
      NonSpaceOfNothing();
    } else {
      FlattenSnoc(Kept(init), p);
      NonSpaceConcat(Flatten(Kept(init)), p);
    }
  }

  // ---- The stream ----

  const BREAK := "\n\n"

  // The paragraphs in order, each preceded by a separator where the flag says so.
  function Joined(paragraphs: seq<string>, glued: seq<bool>): string
    requires |paragraphs| == |glued|
  {
    if paragraphs == [] then ""
    else
      var n := |paragraphs| - 1;
      Joined(paragraphs[..n], glued[..n]) + (if glued[n] then BREAK else "") + paragraphs[n]
  }

  lemma {:induction false} JoinedConserves(ps: seq<string>, glued: seq<bool>)
    requires |ps| == |glued| && (ps != [] ==> !glued[0])
    ensures NonSpace(Joined(ps, glued)) == NonSpace(Flatten(ps))
    ensures |Joined(ps, glued)| <= |Flatten(ps)| + (if ps == [] then 0 else 2 * (|ps| - 1))
  {
    if ps != [] {
      var n := |ps| - 1;
      var before := Joined(ps[..n], glued[..n]);
      var glue := if glued[n] then BREAK else "";
      JoinedConserves(ps[..n], glued[..n]);
      NonSpaceConcat(before + glue, ps[n]);
      NonSpaceConcat(before, glue);
      NonSpaceBlank(glue);
      NonSpaceConcat(Flatten(ps[..n]), ps[n]);
    }
  }

  // Where paragraph i joins the stream, separator included.
  function At(paragraphs: seq<string>, glued: seq<bool>, i: nat): nat
    requires |paragraphs| == |glued| && i <= |paragraphs|
  {
    |Joined(paragraphs[..i], glued[..i])|
  }

  // Where window k begins, or would begin.
  function WindowStart(s: string, overlap: nat, ws: seq<Window>, k: nat): int
    requires k <= |ws| && InBounds(s, ws)
  {
    PrevHi(ws, k) - Carry(s, overlap, ws, k)
  }

  // Window k is the one being filled when the stream has length `at`.
  predicate OpenAt(ws: seq<Window>, k: nat, at: nat)
    requires k <= |ws|
  {
    PrevHi(ws, k) <= at && (k < |ws| ==> at < ws[k].hi)
  }

  // A paragraph after the first gets a separator exactly when the window being filled has room
  // for more than the separator's two runes.
  predicate GlueOk(s: string, size: nat, overlap: nat, ws: seq<Window>, at: nat, later: bool, glue: bool)
    requires InBounds(s, ws)
  {
    forall k | 0 <= k <= |ws| && OpenAt(ws, k, at) ::
      glue <==> later && at - WindowStart(s, overlap, ws, k) + |BREAK| < size
  }

  predicate GlueRule(s: string, size: nat, overlap: nat, ws: seq<Window>, ps: seq<string>, glued: seq<bool>)
    requires |ps| == |glued| && InBounds(s, ws)
  {
    forall i | 0 <= i < |ps| :: GlueOk(s, size, overlap, ws, At(ps, glued, i), i > 0, glued[i])
  }

  function Min(a: int, b: int): int {
    if a < b then a else b
  }

  function TailRunes(input: string, size: nat): string {
    if size <= 0 || |input| == 0 then ""
    else if |input| <= size then input
    else input[|input| - size..]
  }

  // ---- The state the closures of Split share, as values ----

  // Where the current window begins.
  function Lo(stream: string, overlap: nat, ws: seq<Window>): int
    requires InBounds(stream, ws)
  {
    WindowStart(stream, overlap, ws, |ws|)
  }

  predicate AllFull(size: nat, ws: seq<Window>) {
    forall k | 0 <= k < |ws| :: ws[k].hi - ws[k].lo == size
  }

  // The current runes are the stream from the window's start on; there is new content exactly when
  // the stream goes beyond the last processed window; the chunks are those of the windows so far.
  predicate RunOk(size: nat, overlap: nat, stream: string, ws: seq<Window>,
                  current: string, hasNewContent: bool, chunks: seq<ChunkDraft>)
  {
    && overlap < size
    && Sliding(stream, size, overlap, ws) && AllFull(size, ws)
    && 0 <= Lo(stream, overlap, ws) <= PrevHi(ws, |ws|) <= |stream|
    && current == stream[Lo(stream, overlap, ws)..]
    && |current| <= size
    && (hasNewContent <==> PrevHi(ws, |ws|) < |stream|)
    && chunks == Emitted(stream, ws)
  }

  lemma GrowOk(size: nat, overlap: nat, stream: string, ws: seq<Window>,
               current: string, hasNewContent: bool, chunks: seq<ChunkDraft>, more: string)
    requires RunOk(size, overlap, stream, ws, current, hasNewContent, chunks)
    requires more != "" && |current| + |more| <= size
    ensures RunOk(size, overlap, stream + more, ws, current + more, true, chunks)
  {
    hide Sliding, InBounds, Emitted, View, WindowOk, Carry, AllFull;
    SlidingBounds(stream, size, overlap, ws);
    SlidingGrow(stream, more, size, overlap, ws);
    EmittedGrow(stream, more, ws);
    CarryGrow(stream, more, overlap, ws, |ws|);
    var lo := Lo(stream, overlap, ws);
    assert (stream + more)[lo..] == stream[lo..] + more;
  }

  lemma RunFacts(size: nat, overlap: nat, stream: string, ws: seq<Window>,
                 current: string, hasNewContent: bool, chunks: seq<ChunkDraft>)
    requires RunOk(size, overlap, stream, ws, current, hasNewContent, chunks)
    ensures hasNewContent ==> |current| > 0
    ensures !hasNewContent ==> PrevHi(ws, |ws|) == |stream|
    ensures InBounds(stream, ws) && |current| <= |stream| && |stream| - |current| == Lo(stream, overlap, ws)
    ensures Sliding(stream, size, overlap, ws) && chunks == Emitted(stream, ws)
  {
    hide Emitted, WindowOk, Carry, AllFull;
  }

  function AfterEmit(chunks: seq<ChunkDraft>, content: string): seq<ChunkDraft> {
    if content == "" then chunks else chunks + [ChunkDraft(|chunks|, content)]
  }

  lemma EmitOk(size: nat, overlap: nat, stream: string, ws: seq<Window>, current: string, chunks: seq<ChunkDraft>)
    requires RunOk(size, overlap, stream, ws, current, true, chunks)
    ensures InBounds(stream, ws)
    ensures var w := Window(Lo(stream, overlap, ws), |stream|);
      && View(stream, w) == current
      && Sliding(stream, size, overlap, ws + [w])
      && AfterEmit(chunks, Trim(current)) == Emitted(stream, ws + [w])
  {
    hide Trim, Emitted, WindowOk, Carry, InBounds, Sliding;
    SlidingBounds(stream, size, overlap, ws);
    var w := Window(Lo(stream, overlap, ws), |stream|);
    assert stream[w.lo..|stream|] == stream[w.lo..];
    SlidingSnoc(stream, size, overlap, ws, w);
  }

  lemma AllFullSnoc(size: nat, ws: seq<Window>, w: Window)
    requires AllFull(size, ws) && w.hi - w.lo == size
    ensures AllFull(size, ws + [w])
  {}

  lemma LoAfter(stream: string, overlap: nat, ws: seq<Window>, w: Window)
    requires InBounds(stream, ws + [w])
    ensures w.lo <= w.hi <= |stream| && PrevHi(ws + [w], |ws| + 1) == w.hi
    ensures Lo(stream, overlap, ws + [w]) == w.hi - (if Blank(View(stream, w)) then 0 else overlap)
  {
    assert (ws + [w])[|ws|] == w;
  }

  // After a full window the next one starts with the overlap, or with nothing after a blank one.
  lemma FullEmitOk(size: nat, overlap: nat, stream: string, ws: seq<Window>, current: string, chunks: seq<ChunkDraft>)
    requires RunOk(size, overlap, stream, ws, current, true, chunks) && |current| == size
    ensures InBounds(stream, ws)
    ensures var w := Window(Lo(stream, overlap, ws), |stream|);
      var content := Trim(current);
      var next := if content == "" then "" else TailRunes(current, overlap);
      && RunOk(size, overlap, stream, ws + [w], next, false, AfterEmit(chunks, content))
      && |next| < size
  {
    hide Trim, Emitted, WindowOk, Carry, InBounds, Sliding, Blank, AllFull;
    SlidingBounds(stream, size, overlap, ws);
    EmitOk(size, overlap, stream, ws, current, chunks);
    TrimBlank(current);
    var w := Window(Lo(stream, overlap, ws), |stream|);
    AllFullSnoc(size, ws, w);
    SlidingBounds(stream, size, overlap, ws + [w]);
    LoAfter(stream, overlap, ws, w);
    hide Lo;
  }

  // ---- The closures of Split, as one object over the variables they share ----

  class SplitRun {
    const size: nat
    const overlap: nat
    var chunks: seq<ChunkDraft>
    var current: string
    var hasNewContent: bool
    ghost var stream: string          // everything ever appended
    ghost var windows: seq<Window>    // every window processed so far

    ghost predicate Ok()
      reads this
    {
      RunOk(size, overlap, stream, windows, current, hasNewContent, chunks)
    }

    ghost predicate Valid()
      reads this
    {
      Ok() && |current| < size
    }

    constructor (size: nat, overlap: nat)
      requires overlap < size
      ensures Valid() && stream == "" && windows == [] && this.size == size && this.overlap == overlap
    {
      this.size, this.overlap := size, overlap;
      chunks, current, hasNewContent := [], "", false;
      stream, windows := "", [];
    }

    // emitChunk: nothing without new content; a blank window is dropped with nothing carried over;
    // otherwise its trim is a chunk and its tail is carried over.
    method EmitChunk()
      requires Ok()
      modifies this
      ensures stream == old(stream)
      ensures !old(hasNewContent) ==> windows == old(windows) && chunks == old(chunks) && current == old(current)
      ensures old(hasNewContent) ==>
                |old(current)| <= |stream|
                && windows == old(windows) + [Window(|stream| - |old(current)|, |stream|)]
      ensures Sliding(stream, size, overlap, windows) && chunks == Emitted(stream, windows)
      ensures old(hasNewContent) ==>
                !hasNewContent && current == if Trim(old(current)) == "" then "" else TailRunes(old(current), overlap)
      ensures old(hasNewContent) && |old(current)| == size ==> Valid()
    {
      hide RunOk, Trim, Emitted, Sliding, InBounds, AllFull, Lo, TailRunes, WindowOk, Carry, View;
      RunFacts(size, overlap, stream, windows, current, hasNewContent, chunks);
      if |current| == 0 || !hasNewContent {
        return;
      }
      ghost var w := Window(|stream| - |current|, |stream|);
      EmitOk(size, overlap, stream, windows, current, chunks);
      if |current| == size {
        FullEmitOk(size, overlap, stream, windows, current, chunks);
      }
      var content := Trim(current);
      windows := windows + [w];
      if content == "" {
        current := "";
        hasNewContent := false;
        return;
      }
      chunks := chunks + [ChunkDraft(|chunks|, content)];
      var tail := TailRunes(current, overlap);
      current := tail;
      hasNewContent := false;
    }

    // appendRunes: fills the window up to its size, emitting whenever it is full. It always takes
    // at least one rune, so it ends.
    method AppendRunes(input: string)
      requires Valid()
      modifies this
      ensures Valid()
      ensures stream == old(stream) + input
      ensures old(windows) <= windows
      ensures forall k | |old(windows)| <= k < |windows| :: windows[k].hi > |old(stream)|
    {
      hide RunOk, Emitted, Sliding, InBounds, Trim, TailRunes;
      var rest := input;
      ghost var done := "";
      while |rest| > 0
        invariant Valid()
        invariant input == done + rest
        invariant stream == old(stream) + done
        invariant old(windows) <= windows
        invariant forall k | |old(windows)| <= k < |windows| :: windows[k].hi > |old(stream)|
      {
        var available := size - |current|;
        if available == 0 {
          assert false;  // the window never rests full: a full one has just been emitted
        }
        var take := Min(available, |rest|);
        ghost var more := rest[..take];
        GrowOk(size, overlap, stream, windows, current, hasNewContent, chunks, more);
        current := current + rest[..take];
        stream := stream + more;
        done := done + more;
        rest := rest[take..];
        hasNewContent := true;
        if |current| == size {
          EmitChunk();
        }
      }
    }

    // One pass of the loop over the paragraphs: a separator if there is room for more than that, then
    // the paragraph.
    method AddParagraph(paragraph: string, later: bool) returns (ghost glue: bool)
      requires Valid()
      modifies this
      ensures Valid()
      ensures stream == old(stream) + ((if glue then BREAK else "") + paragraph)
      ensures old(windows) <= windows
      ensures forall k | |old(windows)| <= k < |windows| :: windows[k].hi > |old(stream)|
      ensures InBounds(old(stream), old(windows)) && InBounds(stream, windows)
      ensures GlueOk(old(stream), size, overlap, old(windows), |old(stream)|, later, glue)
    {
      hide RunOk, GlueOk, InBounds, Sliding, Emitted, WindowStart;
      RunFacts(size, overlap, stream, windows, current, hasNewContent, chunks);
      glue := later && size - |current| > 2;
      GlueNow(size, overlap, stream, windows, later, glue);
      if later && size - |current| > |BREAK| {
        AppendRunes(BREAK);
      }
      AppendRunes(paragraph);
      RunFacts(size, overlap, stream, windows, current, hasNewContent, chunks);
    }
  }

  // ---- Split ----

  lemma OldWindows(overlap: nat, s: string, more: string, ws: seq<Window>, ws2: seq<Window>, k: nat)
    requires InBounds(s, ws) && InBounds(s + more, ws2) && ws <= ws2 && k <= |ws|
    ensures WindowStart(s + more, overlap, ws2, k) == WindowStart(s, overlap, ws, k)
  {
    CarryGrow(s, more, overlap, ws, k);
    hide View, Blank;
  }

  // What was decided at a position stands when the stream grows.
  lemma GlueStays(size: nat, overlap: nat, s: string, more: string, ws: seq<Window>, ws2: seq<Window>,
                  at: nat, later: bool, glue: bool)
    requires InBounds(s, ws) && InBounds(s + more, ws2) && ws <= ws2
    requires forall k | |ws| <= k < |ws2| :: ws2[k].hi > at
    requires GlueOk(s, size, overlap, ws, at, later, glue)
    ensures GlueOk(s + more, size, overlap, ws2, at, later, glue)
  {
    assert forall k | |ws| < k <= |ws2| :: PrevHi(ws2, k) > at;
    forall k | 0 <= k <= |ws2| && OpenAt(ws2, k, at)
      ensures k <= |ws| && OpenAt(ws, k, at)
      ensures WindowStart(s + more, overlap, ws2, k) == WindowStart(s, overlap, ws, k)
    {
      OldWindows(overlap, s, more, ws, ws2, k);
    }
    hide InBounds, WindowStart;
  }

  // With every processed window behind it, a position at the end of the stream has one open window.
  lemma GlueNow(size: nat, overlap: nat, s: string, ws: seq<Window>, later: bool, glue: bool)
    requires Sliding(s, size, overlap, ws)
    requires glue <==> later && |s| - WindowStart(s, overlap, ws, |ws|) + 2 < size
    ensures InBounds(s, ws) && GlueOk(s, size, overlap, ws, |s|, later, glue)
  {
    SlidingBounds(s, size, overlap, ws);
    hide WindowStart, Sliding;
  }

  lemma AtPrefix(ps: seq<string>, glued: seq<bool>, p: string, g: bool, i: nat)
    requires |ps| == |glued| && i <= |ps|
    ensures At(ps + [p], glued + [g], i) == At(ps, glued, i)
  {
    assert (ps + [p])[..i] == ps[..i] && (glued + [g])[..i] == glued[..i];
  }

  lemma JoinedSnoc(ps: seq<string>, glued: seq<bool>, p: string, g: bool)
    requires |ps| == |glued|
    ensures Joined(ps + [p], glued + [g]) == Joined(ps, glued) + (if g then BREAK else "") + p
    ensures At(ps + [p], glued + [g], |ps|) == |Joined(ps, glued)|
  {
    assert (ps + [p])[..|ps|] == ps && (glued + [g])[..|ps|] == glued;
  }

  // Positions of paragraphs lie within what has been joined.
  lemma {:induction false} AtInside(ps: seq<string>, glued: seq<bool>, i: nat)
    requires |ps| == |glued| && i <= |ps|
    ensures At(ps, glued, i) <= |Joined(ps, glued)|
    decreases |ps|
  {
    if i < |ps| {
      var n := |ps| - 1;
      AtInside(ps[..n], glued[..n], i);
      assert ps[..n][..i] == ps[..i] && glued[..n][..i] == glued[..i];
    } else {
      assert ps[..i] == ps && glued[..i] == glued;
    }
  }

  lemma MoreJoined(ps: seq<string>, glued: seq<bool>, p: string, g: bool)
    requires |ps| == |glued|
    ensures Joined(ps + [p], glued + [g]) == Joined(ps, glued) + ((if g then BREAK else "") + p)
  {
    JoinedSnoc(ps, glued, p, g);
    hide Joined;
    Regroup(Joined(ps, glued), if g then BREAK else "", p);
  }

  lemma Regroup(a: string, b: string, c: string)
    ensures a + b + c == a + (b + c)
  {}

  // One more paragraph.
  lemma RuleSnoc(size: nat, overlap: nat, s: string, more: string, ws: seq<Window>, ws2: seq<Window>,
                 ps: seq<string>, glued: seq<bool>, p: string, g: bool)
    requires |ps| == |glued| && s == Joined(ps, glued) && more == (if g then BREAK else "") + p
    requires InBounds(s, ws) && InBounds(s + more, ws2) && ws <= ws2
    requires forall k | |ws| <= k < |ws2| :: ws2[k].hi > |s|
    requires GlueRule(s, size, overlap, ws, ps, glued)
    requires GlueOk(s, size, overlap, ws, |s|, |ps| > 0, g)
    ensures GlueRule(s + more, size, overlap, ws2, ps + [p], glued + [g])
    ensures s + more == Joined(ps + [p], glued + [g])
  {
    MoreJoined(ps, glued, p, g);
    hide InBounds, GlueOk, Joined, At, WindowStart;
    forall i | 0 <= i < |ps| + 1
      ensures GlueOk(s + more, size, overlap, ws2, At(ps + [p], glued + [g], i), i > 0, (glued + [g])[i])
    {
      if i < |ps| {
        RuleKept(size, overlap, s, more, ws, ws2, ps, glued, p, g, i);
      } else {
        RuleNew(size, overlap, s, more, ws, ws2, ps, glued, p, g);
      }
    }
  }

  lemma RuleNew(size: nat, overlap: nat, s: string, more: string, ws: seq<Window>, ws2: seq<Window>,
                ps: seq<string>, glued: seq<bool>, p: string, g: bool)
    requires |ps| == |glued| && s == Joined(ps, glued)
    requires InBounds(s, ws) && InBounds(s + more, ws2) && ws <= ws2
    requires forall k | |ws| <= k < |ws2| :: ws2[k].hi > |s|
    requires GlueOk(s, size, overlap, ws, |s|, |ps| > 0, g)
    ensures GlueOk(s + more, size, overlap, ws2, At(ps + [p], glued + [g], |ps|), |ps| > 0, (glued + [g])[|ps|])
  {
    hide *;
    JoinedSnoc(ps, glued, p, g);
    GlueStays(size, overlap, s, more, ws, ws2, |s|, |ps| > 0, g);
  }

  lemma RuleKept(size: nat, overlap: nat, s: string, more: string, ws: seq<Window>, ws2: seq<Window>,
                 ps: seq<string>, glued: seq<bool>, p: string, g: bool, i: nat)
    requires |ps| == |glued| && s == Joined(ps, glued) && i < |ps|
    requires InBounds(s, ws) && InBounds(s + more, ws2) && ws <= ws2
    requires forall k | |ws| <= k < |ws2| :: ws2[k].hi > |s|
    requires GlueRule(s, size, overlap, ws, ps, glued)
    ensures GlueOk(s + more, size, overlap, ws2, At(ps + [p], glued + [g], i), i > 0, (glued + [g])[i])
  {
    assert GlueOk(s, size, overlap, ws, At(ps, glued, i), i > 0, glued[i]);
    hide *;
    AtPrefix(ps, glued, p, g, i);
    AtInside(ps, glued, i);
    GlueStays(size, overlap, s, more, ws, ws2, At(ps, glued, i), i > 0, glued[i]);
  }

  lemma RuleStart(size: nat, overlap: nat, ps: seq<string>)
    ensures InBounds("", []) && Joined(ps[..0], []) == "" && GlueRule("", size, overlap, [], ps[..0], [])
  {}

  lemma AtBefore(ps: seq<string>, glued: seq<bool>, i: nat)
    requires |ps| == |glued| && i < |ps| && ps[i] != ""
    ensures At(ps, glued, i) < |Joined(ps, glued)|
  {
    AtInside(ps, glued, i + 1);
    assert ps[..i + 1][..i] == ps[..i] && glued[..i + 1][..i] == glued[..i];
  }

  // The last window, ended by the end of the stream.
  lemma RuleEnd(size: nat, overlap: nat, s: string, ws: seq<Window>, ws2: seq<Window>, ps: seq<string>, glued: seq<bool>)
    requires |ps| == |glued| && s == Joined(ps, glued) && (forall p | p in ps :: IsParagraph(p))
    requires InBounds(s, ws) && InBounds(s, ws2) && ws <= ws2 && (forall k | |ws| <= k < |ws2| :: ws2[k].hi == |s|)
    requires GlueRule(s, size, overlap, ws, ps, glued)
    ensures GlueRule(s, size, overlap, ws2, ps, glued)
  {
    hide InBounds, GlueOk, Joined, At;
    assert s + "" == s;
    forall i | 0 <= i < |ps|
      ensures GlueOk(s, size, overlap, ws2, At(ps, glued, i), i > 0, glued[i])
    {
      assert ps[i] in ps;
      AtBefore(ps, glued, i);
      GlueStays(size, overlap, s, "", ws, ws2, At(ps, glued, i), i > 0, glued[i]);
    }
  }

  // Everything that is true of the stream, the windows and the flags behind a list of chunks.
  predicate Explains(text: string, size: nat, overlap: nat, chunks: seq<ChunkDraft>,
                     stream: string, ws: seq<Window>, glued: seq<bool>)
  {
    var ps := Kept(Parts(NormalizeText(text)));
    && Tiles(stream, size, overlap, ws)
    && chunks == Emitted(stream, ws)
    && |glued| == |ps|
    && stream == Joined(ps, glued)
    && GlueRule(stream, size, overlap, ws, ps, glued)
  }

  // What the two settings ask for, as they are written, with a positive size: windows of that size,
  // neighbours sharing the overlap. A negative overlap stands for none, and one that reaches the size
  // for a quarter of it.
  predicate AsWritten(chunkSize: nat, overlap: int, s: string, ws: seq<Window>)
    requires InBounds(s, ws)
  {
    && (0 <= overlap < chunkSize ==> EachFollowed(s, chunkSize, overlap, ws))
    && (overlap < 0 ==> EachFollowed(s, chunkSize, 0, ws))
    && (overlap >= chunkSize ==> EachFollowed(s, chunkSize, chunkSize / 4, ws))
  }

  lemma SettingsAsWritten(s: string, ws: seq<Window>, chunkSize: int, overlap: int)
    requires Sliding(s, EffectiveSize(chunkSize), EffectiveOverlap(chunkSize, overlap), ws)
    ensures InBounds(s, ws) && AsWritten(if chunkSize > 0 then chunkSize else DEFAULT_CHUNK_SIZE, overlap, s, ws)
  {
    SlidingFollowed(s, EffectiveSize(chunkSize), EffectiveOverlap(chunkSize, overlap), ws);
    hide Sliding, InBounds, EachFollowed;
  }

  datatype SplitResult = TextIsEmpty | Chunks(chunks: seq<ChunkDraft>)

  // What the stream, the windows and the separator flags of a call were; the code keeps none of it.
  datatype Trace = Trace(stream: string, windows: seq<Window>, glued: seq<bool>)

  method Split(text: string, chunkSize: int, overlapSetting: int) returns (r: SplitResult, ghost trace: Trace)
    ensures r.TextIsEmpty? <==> Blank(text)
    ensures r.Chunks? ==> Explains(text, EffectiveSize(chunkSize), EffectiveOverlap(chunkSize, overlapSetting),
                                   r.chunks, trace.stream, trace.windows, trace.glued)
    ensures r.Chunks? ==>
              && InBounds(trace.stream, trace.windows)
              && AsWritten(if chunkSize > 0 then chunkSize else DEFAULT_CHUNK_SIZE, overlapSetting, trace.stream, trace.windows)
  {
    hide AsWritten, AllFull, At, OpenAt, Carry, NormalizeText, Parts, Kept, RunOk, Joined, GlueRule, GlueOk, InBounds, Sliding, Emitted, WindowStart, Trim,
         NonSpace;
    trace := Trace("", [], []);
    NormalizeTextErased(text);
    var normalized := NormalizeText(text);
    if normalized == "" {
      return TextIsEmpty, trace;
    }
    var size := chunkSize;
    if size <= 0 {
      size := DEFAULT_CHUNK_SIZE;
    }
    var overlap := overlapSetting;
    if overlap < 0 {
      overlap := 0;
    }
    if overlap >= size {
      overlap := size / 4;
    }
    var paragraphs := SplitParagraphs(normalized);
    var run := new SplitRun(size, overlap);
    ghost var glued := [];
    RuleStart(size, overlap, paragraphs);
    for i := 0 to |paragraphs|
      invariant run.Valid() && run.size == size && run.overlap == overlap
      invariant |glued| == i && run.stream == Joined(paragraphs[..i], glued)
      invariant InBounds(run.stream, run.windows)
      invariant GlueRule(run.stream, size, overlap, run.windows, paragraphs[..i], glued)
    {
      ghost var s0, w0 := run.stream, run.windows;
      ghost var g := run.AddParagraph(paragraphs[i], i > 0);
      assert paragraphs[..i + 1] == paragraphs[..i] + [paragraphs[i]];
      RuleSnoc(size, overlap, s0, (if g then BREAK else "") + paragraphs[i], w0, run.windows, paragraphs[..i], glued,
               paragraphs[i], g);
      glued := glued + [g];
    }
    assert paragraphs[..|paragraphs|] == paragraphs;
    ghost var w0 := run.windows;
    RunFacts(size, overlap, run.stream, run.windows, run.current, run.hasNewContent, run.chunks);
    run.EmitChunk();
    SlidingBounds(run.stream, size, overlap, run.windows);
    KeptAreParagraphs(Parts(normalized));
    RuleEnd(size, overlap, run.stream, w0, run.windows, paragraphs, glued);
    SettingsAsWritten(run.stream, run.windows, chunkSize, overlapSetting);
    r := Chunks(run.chunks);
    trace := Trace(run.stream, run.windows, glued);
  }
}
