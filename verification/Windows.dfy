/**
What the default splitter's output means: a stream of runes, cut into windows that cover it and
overlap by a fixed amount, each non-blank window trimmed to one chunk.
*/
module Windows {
  import opened Text

  datatype ChunkDraft = ChunkDraft(ordinal: int, content: string)

  // stream[lo..hi]
  datatype Window = Window(lo: nat, hi: nat)

  function View(s: string, w: Window): string
    requires w.lo <= w.hi <= |s|
  {
    s[w.lo..w.hi]
  }

  // Where window k's new runes begin: the end of the window before it.
  function PrevHi(ws: seq<Window>, k: nat): nat
    requires k <= |ws|
  {
    if k == 0 then 0 else ws[k - 1].hi
  }

  // How many runes window k repeats from the window before it: the overlap, or nothing after a
  // window that was blank and dropped.
  function Carry(s: string, overlap: nat, ws: seq<Window>, k: nat): nat
    requires k <= |ws|
    requires k > 0 ==> ws[k - 1].lo <= ws[k - 1].hi <= |s|
  {
    if k == 0 || Blank(View(s, ws[k - 1])) then 0 else overlap
  }

  predicate WindowOk(s: string, size: nat, overlap: nat, ws: seq<Window>, k: nat)
    requires k < |ws|
    requires k > 0 ==> ws[k - 1].lo <= ws[k - 1].hi <= |s|
  {
    && ws[k].lo + Carry(s, overlap, ws, k) == PrevHi(ws, k)
    && PrevHi(ws, k) < ws[k].hi <= |s|
    && ws[k].hi - ws[k].lo <= size
  }

  predicate InBounds(s: string, ws: seq<Window>) {
    forall k | 0 <= k < |ws| :: ws[k].lo <= ws[k].hi <= |s|
  }

  // Windows advance with exactly the effective overlap, and each one that is followed by another
  // has exactly the effective chunk size.
  predicate Sliding(s: string, size: nat, overlap: nat, ws: seq<Window>) {
    && InBounds(s, ws)
    && (forall k | 0 <= k < |ws| :: WindowOk(s, size, overlap, ws, k))
    && (forall k | 0 <= k < |ws| - 1 :: ws[k].hi - ws[k].lo == size)
  }

  lemma SlidingBounds(s: string, size: nat, overlap: nat, ws: seq<Window>)
    requires Sliding(s, size, overlap, ws)
    ensures InBounds(s, ws)
  {
    hide InBounds, WindowOk;
  }

  // The windows reach the end of the stream.
  predicate Tiles(s: string, size: nat, overlap: nat, ws: seq<Window>) {
    Sliding(s, size, overlap, ws) && PrevHi(ws, |ws|) == |s|
  }

  // Window k has exactly this size, the next one ends later and repeats exactly this overlap of it, or nothing if it was all white space and dropped.
  predicate FollowedBy(s: string, size: nat, overlap: nat, ws: seq<Window>, k: nat)
    requires k + 1 < |ws| && InBounds(s, ws)
  {
    && ws[k].hi - ws[k].lo == size
    && ws[k].hi < ws[k + 1].hi
    && ws[k].hi - ws[k + 1].lo == if Blank(View(s, ws[k])) then 0 else overlap
  }

  lemma WindowFollowed(s: string, size: nat, overlap: nat, ws: seq<Window>, k: nat)
    requires Sliding(s, size, overlap, ws) && k + 1 < |ws|
    ensures FollowedBy(s, size, overlap, ws, k)
  {
    hide Blank, View;
    assert WindowOk(s, size, overlap, ws, k + 1);
  }

  predicate EachFollowed(s: string, size: nat, overlap: nat, ws: seq<Window>)
    requires InBounds(s, ws)
  {
    forall k | 0 <= k < |ws| - 1 :: FollowedBy(s, size, overlap, ws, k)
  }

  lemma SlidingFollowed(s: string, size: nat, overlap: nat, ws: seq<Window>)
    requires Sliding(s, size, overlap, ws)
    ensures InBounds(s, ws) && EachFollowed(s, size, overlap, ws)
  {
    SlidingBounds(s, size, overlap, ws);
    hide Sliding, FollowedBy, InBounds;
    forall k | 0 <= k < |ws| - 1
      ensures FollowedBy(s, size, overlap, ws, k)
    {
      WindowFollowed(s, size, overlap, ws, k);
    }
  }

  // The chunks of a list of windows: the trim of each non-blank one, numbered in order.
  function Emitted(s: string, ws: seq<Window>): seq<ChunkDraft>
    requires InBounds(s, ws)
  {
    if ws == [] then []
    else
      var done := Emitted(s, ws[..|ws| - 1]);
      var content := Trim(View(s, ws[|ws| - 1]));
      if content == "" then done else done + [ChunkDraft(|done|, content)]
  }

  // ---- What every caller can rely on ----

  // Ordinals are 0..n-1, and each content is non-empty, trimmed and at most the chunk size.
  lemma {:induction false} ChunksWellFormed(s: string, size: nat, ws: seq<Window>)
    requires InBounds(s, ws) && forall k | 0 <= k < |ws| :: ws[k].hi - ws[k].lo <= size
    ensures |Emitted(s, ws)| <= |ws|
    ensures forall i | 0 <= i < |Emitted(s, ws)| ::
      var c := Emitted(s, ws)[i];
      c.ordinal == i && c.content != "" && Trimmed(c.content) && |c.content| <= size
  {
    if ws != [] {
      var w := ws[|ws| - 1];
      ChunksWellFormed(s, size, ws[..|ws| - 1]);
      var _ := TrimShape(View(s, w));
      assert |View(s, w)| <= size;
      hide Trim, Blank, Trimmed, View;
    }
  }

  function Flatten(ps: seq<string>): string {
    if ps == [] then "" else Flatten(ps[..|ps| - 1]) + ps[|ps| - 1]
  }

  predicate Advancing(s: string, ws: seq<Window>) {
    InBounds(s, ws) && forall k | 0 <= k < |ws| :: PrevHi(ws, k) <= ws[k].hi
  }

  // Each window without what it repeats.
  function FreshParts(s: string, ws: seq<Window>): seq<string>
    requires Advancing(s, ws)
  {
    seq(|ws|, k requires 0 <= k < |ws| => s[PrevHi(ws, k)..ws[k].hi])
  }

  lemma FreshSnoc(s: string, init: seq<Window>, w: Window)
    requires Advancing(s, init + [w])
    ensures Advancing(s, init) && PrevHi(init, |init|) <= w.hi <= |s|
    ensures FreshParts(s, init + [w]) == FreshParts(s, init) + [s[PrevHi(init, |init|)..w.hi]]
  {
    var all := init + [w];
    assert all[|init|] == w && PrevHi(all, |init|) == PrevHi(init, |init|);
    forall k | 0 <= k < |init|
      ensures init[k] == all[k] && PrevHi(init, k) == PrevHi(all, k)
    {}
  }

  // The windows cover the stream: with the repeated runes dropped they spell it out.
  lemma {:induction false} FreshPartsCover(s: string, ws: seq<Window>)
    requires Advancing(s, ws)
    ensures PrevHi(ws, |ws|) <= |s| && Flatten(FreshParts(s, ws)) == s[..PrevHi(ws, |ws|)]
  {
    hide Advancing;
    if ws != [] {
      hide FreshParts, Flatten;
      var init, w := ws[..|ws| - 1], ws[|ws| - 1];
      assert ws == init + [w];
      FreshSnoc(s, init, w);
      FreshPartsCover(s, init);
      FlattenSnoc(FreshParts(s, init), s[PrevHi(init, |init|)..w.hi]);
      assert s[..w.hi] == s[..PrevHi(init, |init|)] + s[PrevHi(init, |init|)..w.hi];
    }
  }

  lemma TilesCover(s: string, size: nat, overlap: nat, ws: seq<Window>)
    requires Tiles(s, size, overlap, ws)
    ensures Advancing(s, ws) && Flatten(FreshParts(s, ws)) == s
  {
    SlidingBounds(s, size, overlap, ws);
    forall k | 0 <= k < |ws|
      ensures PrevHi(ws, k) <= ws[k].hi
    {
      assert WindowOk(s, size, overlap, ws, k);
    }
    FreshPartsCover(s, ws);
    hide Sliding, FreshParts, Flatten;
    assert s[..|s|] == s;
  }

  function Contents(cs: seq<ChunkDraft>): seq<string> {
    seq(|cs|, i requires 0 <= i < |cs| => cs[i].content)
  }

  lemma FlattenSnoc(ps: seq<string>, p: string)
    ensures Flatten(ps + [p]) == Flatten(ps) + p
  {
    assert (ps + [p])[..|ps|] == ps;
  }

  lemma ContentsSnoc(cs: seq<ChunkDraft>, c: ChunkDraft)
    ensures Contents(cs + [c]) == Contents(cs) + [c.content]
  {}

  // Without overlap the chunks hold the stream's non-white-space runes, all of them, in order.
  lemma {:induction false} NoOverlapConserves(s: string, size: nat, ws: seq<Window>)
    requires Sliding(s, size, 0, ws)
    ensures NonSpace(Flatten(Contents(Emitted(s, ws)))) == NonSpace(s[..PrevHi(ws, |ws|)])
  {
    hide NonSpace, Flatten, Contents, Emitted, View, Sliding;
    if ws == [] {
      NothingEmitted(s);
    } else {
      var init, w := ws[..|ws| - 1], ws[|ws| - 1];
      assert ws == init + [w];
      SlidingInit(s, size, 0, ws);
      NoOverlapConserves(s, size, init);
      NextWindow(s, size, init, w);
      NonSpaceConcat(s[..PrevHi(init, |init|)], View(s, w));
      LastChunkErased(s, init, w);
    }
  }

  lemma NothingEmitted(s: string)
    ensures Flatten(Contents(Emitted(s, []))) == "" == s[..0]
  {}

  // Without overlap a window begins where the one before it ended.
  lemma NextWindow(s: string, size: nat, init: seq<Window>, w: Window)
    requires Sliding(s, size, 0, init + [w])
    ensures InBounds(s, init) && PrevHi(init, |init|) <= w.hi <= |s| && w.lo <= w.hi
    ensures s[..w.hi] == s[..PrevHi(init, |init|)] + View(s, w)
  {
    var all := init + [w];
    SlidingInit(s, size, 0, all);
    assert all[..|all| - 1] == init;
    assert all[|init|] == w;
    assert WindowOk(s, size, 0, all, |init|);
  }

  lemma TilesConserve(s: string, size: nat, ws: seq<Window>)
    requires Tiles(s, size, 0, ws) && InBounds(s, ws)
    ensures NonSpace(Flatten(Contents(Emitted(s, ws)))) == NonSpace(s)
  {
    hide NonSpace, Flatten, Contents, Emitted, Sliding, InBounds;
    assert s[..|s|] == s;
    NoOverlapConserves(s, size, ws);
  }

  // Adding a window adds that window's non-white-space runes.
  lemma LastChunkErased(s: string, init: seq<Window>, w: Window)
    requires InBounds(s, init) && w.lo <= w.hi <= |s| && InBounds(s, init + [w])
    ensures NonSpace(Flatten(Contents(Emitted(s, init + [w]))))
            == NonSpace(Flatten(Contents(Emitted(s, init)))) + NonSpace(View(s, w))
  {
    assert (init + [w])[..|init|] == init;
    var done := Emitted(s, init);
    var v := View(s, w);
    NonSpaceTrim(v);
    hide Trim, View, NonSpace;
    if Trim(v) == "" {
      NonSpaceOfNothing();
    } else {
      ContentsSnoc(done, ChunkDraft(|done|, Trim(v)));
      FlattenSnoc(Contents(done), Trim(v));
      NonSpaceConcat(Flatten(Contents(done)), Trim(v));
    }
  }

  lemma SlidingInit(s: string, size: nat, overlap: nat, ws: seq<Window>)
    requires Sliding(s, size, overlap, ws) && ws != []
    ensures Sliding(s, size, overlap, ws[..|ws| - 1])
  {
    var init := ws[..|ws| - 1];
    forall k | 0 <= k < |init|
      ensures WindowOk(s, size, overlap, init, k)
    {
      assert WindowOk(s, size, overlap, ws, k);
    }
  }

  // A stream with a non-white-space rune yields at least one chunk.
  lemma {:induction false} SomethingEmitted(s: string, size: nat, overlap: nat, ws: seq<Window>)
    requires Sliding(s, size, overlap, ws)
    requires !Blank(s[..PrevHi(ws, |ws|)])
    ensures Emitted(s, ws) != []
  {
    assert Blank(s[..0]);
    if ws != [] {
      var init := ws[..|ws| - 1];
      var w := ws[|ws| - 1];
      SlidingInit(s, size, overlap, ws);
      assert WindowOk(s, size, overlap, ws, |ws| - 1);
      var _ := TrimShape(View(s, w));
      if Blank(View(s, w)) {
        BlankTail(s, PrevHi(init, |init|), w);
        SomethingEmitted(s, size, overlap, init);
      }
    }
  }

  lemma BlankTail(s: string, h: nat, w: Window)
    requires w.lo <= h <= w.hi <= |s| && Blank(View(s, w)) && !Blank(s[..w.hi])
    ensures !Blank(s[..h])
  {
    hide IsSpace;
    forall j | w.lo <= j < w.hi
      ensures IsSpace(s[j])
    {
      assert View(s, w)[j - w.lo] == s[j];
    }
    var i :| 0 <= i < w.hi && !IsSpace(s[..w.hi][i]);
    assert i < w.lo;
    assert s[..h][i] == s[i];
  }

  // ---- How many chunks ----

  function CeilDiv(a: int, b: nat): int
    requires b > 0
  {
    (a + b - 1) / b
  }

  // The end of window k, when no window before it was dropped, and a lower bound in general.
  lemma {:induction false} WindowEnds(s: string, size: nat, overlap: nat, ws: seq<Window>, k: nat)
    requires Sliding(s, size, overlap, ws) && overlap < size && k < |ws| - 1
    ensures ws[k].hi >= size + k * (size - overlap)
    ensures (forall j | 0 <= j < k :: !Blank(View(s, ws[j]))) ==> ws[k].hi == size + k * (size - overlap)
  {
    assert WindowOk(s, size, overlap, ws, k);
    if k > 0 {
      WindowEnds(s, size, overlap, ws, k - 1);
      Distribute(k, size - overlap);
    }
  }

  lemma Distribute(k: nat, d: nat)
    requires k > 0
    ensures k * d == (k - 1) * d + d
  {}

  // How far the last of several windows reaches.
  lemma LastWindow(s: string, size: nat, overlap: nat, ws: seq<Window>)
    requires Tiles(s, size, overlap, ws) && overlap < size && |ws| >= 2
    ensures |s| - size > (|ws| - 2) * (size - overlap)
    ensures (forall k | 0 <= k < |ws| :: !Blank(View(s, ws[k]))) ==> |s| - size <= (|ws| - 1) * (size - overlap)
  {
    var n := |ws|;
    assert WindowOk(s, size, overlap, ws, n - 1) && WindowOk(s, size, overlap, ws, n - 2);
    WindowEnds(s, size, overlap, ws, n - 2);
    Distribute(n - 1, size - overlap);
  }

  lemma OnlyWindow(s: string, size: nat, overlap: nat, ws: seq<Window>)
    requires Tiles(s, size, overlap, ws) && |ws| == 1
    ensures |s| <= size
  {
    assert WindowOk(s, size, overlap, ws, 0);
  }

  // At most one window more than the strides needed to reach the end, and exactly that many when
  // no window is blank.
  lemma WindowCount(s: string, size: nat, overlap: nat, ws: seq<Window>)
    requires Tiles(s, size, overlap, ws) && overlap < size && ws != []
    ensures var beyond := if |s| > size then |s| - size else 0;
            |ws| <= 1 + CeilDiv(beyond, size - overlap)
    ensures (forall k | 0 <= k < |ws| :: !Blank(View(s, ws[k]))) ==>
              var beyond := if |s| > size then |s| - size else 0;
              |ws| == 1 + CeilDiv(beyond, size - overlap)
  {
    if |ws| == 1 {
      OnlyWindow(s, size, overlap, ws);
      SmallDivision(size - overlap);
    } else {
      LastWindow(s, size, overlap, ws);
      hide Tiles, View, Blank;
      Strides(|s| - size, |ws| - 1, size - overlap);
    }
  }

  lemma SmallDivision(d: nat)
    requires d > 0
    ensures CeilDiv(0, d) == 0
  {
    assert 0 <= d - 1 < d;
  }

  lemma Strides(a: int, m: nat, d: nat)
    requires d > 0 && m > 0 && a > (m - 1) * d
    ensures a > 0 && CeilDiv(a, d) >= m
    ensures a <= m * d ==> CeilDiv(a, d) == m
  {
    Distribute(m, d);
    DivAtLeast(a + d - 1, m, d);
    if a <= m * d {
      Distribute(m + 1, d);
      DivBelow(a + d - 1, m + 1, d);
    }
  }

  lemma Factor(u: int, d: nat)
    requires d > 0
    ensures u * d > 0 <==> u > 0
  {
    if u <= 0 { assert u * d <= 0; }
  }

  lemma DivAtLeast(x: nat, m: nat, d: nat)
    requires d > 0 && x >= m * d
    ensures x / d >= m
  {
    var q := x / d;
    assert x == q * d + x % d;
    Factor(q + 1 - m, d);
    assert (q + 1 - m) * d == q * d + d - m * d;
  }

  lemma DivBelow(x: nat, m: nat, d: nat)
    requires d > 0 && x < m * d
    ensures x / d < m
  {
    var q := x / d;
    assert x == q * d + x % d;
    Factor(m - q, d);
    assert (m - q) * d == m * d - q * d;
  }

  // ---- Growing the stream ----

  lemma ViewGrow(s: string, more: string, w: Window)
    requires w.lo <= w.hi <= |s|
    ensures View(s + more, w) == View(s, w)
  {}

  lemma {:induction false} EmittedGrow(s: string, more: string, ws: seq<Window>)
    requires InBounds(s, ws)
    ensures InBounds(s + more, ws) && Emitted(s + more, ws) == Emitted(s, ws)
  {
    if ws != [] {
      EmittedGrow(s, more, ws[..|ws| - 1]);
      ViewGrow(s, more, ws[|ws| - 1]);
      hide View, Trim;
    }
  }

  lemma CarryGrow(s: string, more: string, overlap: nat, ws: seq<Window>, k: nat)
    requires k <= |ws| && InBounds(s, ws)
    ensures Carry(s + more, overlap, ws, k) == Carry(s, overlap, ws, k)
  {
    if k > 0 { ViewGrow(s, more, ws[k - 1]); }
    hide View;
  }

  lemma SlidingGrow(s: string, more: string, size: nat, overlap: nat, ws: seq<Window>)
    requires Sliding(s, size, overlap, ws)
    ensures Sliding(s + more, size, overlap, ws)
  {
    forall k | 0 <= k < |ws|
      ensures WindowOk(s + more, size, overlap, ws, k)
    {
      assert WindowOk(s, size, overlap, ws, k);
      CarryGrow(s, more, overlap, ws, k);
    }
  }

  // Appending the next window.
  lemma SlidingSnoc(s: string, size: nat, overlap: nat, ws: seq<Window>, w: Window)
    requires Sliding(s, size, overlap, ws) && (forall k | 0 <= k < |ws| :: ws[k].hi - ws[k].lo == size)
    requires w.lo + Carry(s, overlap, ws, |ws|) == PrevHi(ws, |ws|) && PrevHi(ws, |ws|) < w.hi <= |s| && w.hi - w.lo <= size
    ensures Sliding(s, size, overlap, ws + [w])
    ensures InBounds(s, ws + [w]) && Emitted(s, ws + [w]) ==
      (var content := Trim(View(s, w));
       if content == "" then Emitted(s, ws) else Emitted(s, ws) + [ChunkDraft(|Emitted(s, ws)|, content)])
  {
    var all := ws + [w];
    assert all[..|ws|] == ws;
    forall k | 0 <= k < |all|
      ensures WindowOk(s, size, overlap, all, k)
    {
      if k < |ws| { assert WindowOk(s, size, overlap, ws, k); }
    }
    hide Trim, View;
  }
}
