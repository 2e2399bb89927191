/**
The unlocked work of a reindex: split, check, embed, check. The splitter and the embedder may do
anything; what they return is taken as it comes.
*/
module Preparation {
  import opened Text
  import opened Windows
  import opened Splitter
  import opened SplitTheorems
  import opened Configuration
  import opened Embedding
  import opened Tables
  import opened WriteProtocol

  datatype SplitOutcome = SplitFailed | Drafts(chunks: seq<ChunkDraft>)

  datatype PrepareError =
    | SplitError
    | NoChunks
    | EmptyChunk(ordinal: int)
    | ChunkTooLarge(ordinal: int, actual: nat, limit: int)
    | EmbedError
    | WrongVectorCount(got: nat, want: int)
    | WrongDimension(index: nat, got: nat, want: int)

  datatype Maybe = Fine | Error(error: PrepareError)
  datatype Prepared = Prepared(pieces: seq<Piece>) | Refused(error: PrepareError)

  predicate ChunkOk(c: ChunkDraft, maxChars: int) {
    Trim(c.content) != "" && |c.content| <= maxChars
  }

  function ChunkError(c: ChunkDraft, maxChars: int): PrepareError {
    if Trim(c.content) == "" then EmptyChunk(c.ordinal) else ChunkTooLarge(c.ordinal, |c.content|, maxChars)
  }

  // Chunk i is the first one that is not in order.
  predicate FirstBadChunk(chunks: seq<ChunkDraft>, maxChars: int, i: nat) {
    i < |chunks| && !ChunkOk(chunks[i], maxChars) && forall j | 0 <= j < i :: ChunkOk(chunks[j], maxChars)
  }

  predicate BadChunk(chunks: seq<ChunkDraft>, maxChars: int, e: PrepareError) {
    exists i | 0 <= i < |chunks| :: FirstBadChunk(chunks, maxChars, i) && e == ChunkError(chunks[i], maxChars)
  }

  // validateChunks: reports the first chunk that is blank or too long.
  method ValidateChunks(chunks: seq<ChunkDraft>, maxChars: int) returns (r: Maybe)
    ensures r.Fine? <==> forall i | 0 <= i < |chunks| :: ChunkOk(chunks[i], maxChars)
    ensures r.Error? ==> BadChunk(chunks, maxChars, r.error)
  {
    hide Trim;
    for i := 0 to |chunks|
      invariant forall j | 0 <= j < i :: ChunkOk(chunks[j], maxChars)
    {
      if Trim(chunks[i].content) == "" {
        assert FirstBadChunk(chunks, maxChars, i);
        return Error(EmptyChunk(chunks[i].ordinal));
      }
      var actualChars := |chunks[i].content|;
      if actualChars > maxChars {
        assert FirstBadChunk(chunks, maxChars, i);
        return Error(ChunkTooLarge(chunks[i].ordinal, actualChars, maxChars));
      }
    }
    return Fine;
  }

  function Texts(chunks: seq<ChunkDraft>): seq<string> {
    seq(|chunks|, i requires 0 <= i < |chunks| => chunks[i].content)
  }

  function Zip(chunks: seq<ChunkDraft>, vectors: seq<Vector>): seq<Piece>
    requires |chunks| == |vectors|
  {
    seq(|chunks|, i requires 0 <= i < |chunks| => Piece(chunks[i].ordinal, chunks[i].content, vectors[i]))
  }

  predicate ChunksPass(split: SplitOutcome, maxChars: int) {
    split.Drafts? && split.chunks != [] && forall i | 0 <= i < |split.chunks| :: ChunkOk(split.chunks[i], maxChars)
  }

  predicate VectorsPass(chunks: seq<ChunkDraft>, embedded: EmbedOutcome, dimensions: int) {
    && embedded.Vectors? && |embedded.vectors| == |chunks|
    && forall i | 0 <= i < |chunks| :: |embedded.vectors[i]| == dimensions
  }

  // The error names the first check that failed, in the order the code makes them.
  predicate ErrorFits(e: PrepareError, split: SplitOutcome, embed: seq<string> -> EmbedOutcome, maxChars: int, dimensions: int) {
    if split.SplitFailed? then e == SplitError
    else if split.chunks == [] then e == NoChunks
    else if !ChunksPass(split, maxChars) then BadChunk(split.chunks, maxChars, e)
    else match embed(Texts(split.chunks))
      case EmbedFailed => e == EmbedError
      case Vectors(vs) =>
        if |vs| != |split.chunks| then e == WrongVectorCount(|vs|, |split.chunks|)
        else
          && e.WrongDimension? && e.index < |vs| && e.want == dimensions
          && e.got == |vs[e.index]| && e.got != dimensions
          && forall j | 0 <= j < e.index :: |vs[j]| == dimensions
  }

  function Each(e: string -> Vector, ts: seq<string>): seq<Vector> {
    seq(|ts|, i requires 0 <= i < |ts| => e(ts[i]))
  }

  // The embedder works text by text, in order.
  ghost predicate EmbedsEach(embed: seq<string> -> EmbedOutcome, e: string -> Vector) {
    forall ts: seq<string> :: embed(ts) == Vectors(Each(e, ts))
  }

  // Chunk by chunk, in order, with the chunk's own vector.
  ghost predicate OwnVectors(chunks: seq<ChunkDraft>, e: string -> Vector, pieces: seq<Piece>) {
    && |pieces| == |chunks|
    && forall i | 0 <= i < |chunks| :: pieces[i] == Piece(chunks[i].ordinal, chunks[i].content, e(chunks[i].content))
  }

  lemma ZipIsOwn(chunks: seq<ChunkDraft>, embed: seq<string> -> EmbedOutcome, e: string -> Vector)
    requires EmbedsEach(embed, e)
    ensures embed(Texts(chunks)).Vectors? && |embed(Texts(chunks)).vectors| == |chunks|
    ensures OwnVectors(chunks, e, Zip(chunks, embed(Texts(chunks)).vectors))
  {}

  // prepareDocumentWrite, given what the splitter returned and what the embedder returns for a
  // list of texts. The embedder is asked only once the chunks have passed.
  method PrepareDocumentWrite(split: SplitOutcome, embed: seq<string> -> EmbedOutcome, maxChars: int, dimensions: int)
    returns (r: Prepared)
    ensures r.Prepared? <==> ChunksPass(split, maxChars) && VectorsPass(split.chunks, embed(Texts(split.chunks)), dimensions)
    ensures r.Prepared? ==> r.pieces == Zip(split.chunks, embed(Texts(split.chunks)).vectors)
    ensures r.Prepared? ==> forall e: string -> Vector | EmbedsEach(embed, e) :: OwnVectors(split.chunks, e, r.pieces)
    ensures r.Refused? ==> ErrorFits(r.error, split, embed, maxChars, dimensions)
  {
    hide Trim, ChunkOk, EmbedsEach, OwnVectors;
    if split.SplitFailed? {
      return Refused(SplitError);
    }
    var chunks := split.chunks;
    if |chunks| == 0 {
      return Refused(NoChunks);
    }
    var check := ValidateChunks(chunks, maxChars);
    if check.Error? {
      return Refused(check.error);
    }
    var texts := [];
    for i := 0 to |chunks|
      invariant texts == Texts(chunks)[..i]
    {
      texts := texts + [chunks[i].content];
    }
    assert texts == Texts(chunks);
    var embedded := embed(texts);
    if embedded.EmbedFailed? {
      return Refused(EmbedError);
    }
    if |embedded.vectors| != |chunks| {
      return Refused(WrongVectorCount(|embedded.vectors|, |chunks|));
    }
    for i := 0 to |chunks|
      invariant forall j | 0 <= j < i :: |embedded.vectors[j]| == dimensions
    {
      if |embedded.vectors[i]| != dimensions {
        return Refused(WrongDimension(i, |embedded.vectors[i]|, dimensions));
      }
    }
    r := Prepared(Zip(chunks, embedded.vectors));
    forall e: string -> Vector | EmbedsEach(embed, e)
      ensures OwnVectors(chunks, e, r.pieces)
    {
      ZipIsOwn(chunks, embed, e);
    }
  }

  // ---- The step of the write protocol ----

  // Whatever a prepare returns, the protocol's Prepare step allows.
  lemma PreparedIsAllowed(env: Env, split: SplitOutcome, embedded: EmbedOutcome)
    requires ChunksPass(split, env.maxChunkChars) && VectorsPass(split.chunks, embedded, env.dimensions)
    ensures PreparedOk(env, Zip(split.chunks, embedded.vectors))
  {
    hide Trim;
    forall i | 0 <= i < |split.chunks|
      ensures Trim(split.chunks[i].content) != "" && |split.chunks[i].content| <= env.maxChunkChars
    {
      assert ChunkOk(split.chunks[i], env.maxChunkChars);
    }
  }

  function DraftsOf(ps: seq<Piece>): seq<ChunkDraft> {
    seq(|ps|, i requires 0 <= i < |ps| => ChunkDraft(ps[i].ordinal, ps[i].content))
  }

  function VectorsOf(ps: seq<Piece>): seq<Vector> {
    seq(|ps|, i requires 0 <= i < |ps| => ps[i].vector)
  }

  // And nothing the step allows is out of reach: some splitter and embedder return it.
  lemma AllowedIsPreparable(env: Env, ps: seq<Piece>)
    requires PreparedOk(env, ps)
    ensures ChunksPass(Drafts(DraftsOf(ps)), env.maxChunkChars)
    ensures VectorsPass(DraftsOf(ps), Vectors(VectorsOf(ps)), env.dimensions)
    ensures Zip(DraftsOf(ps), VectorsOf(ps)) == ps
  {
    hide Trim;
  }

  // ---- The default splitter and the checks ----

  lemma TrimmedChunkOk(c: ChunkDraft, maxChars: int)
    requires c.content != "" && Trimmed(c.content) && |c.content| <= maxChars
    ensures ChunkOk(c, maxChars)
  {
    TrimFixed(c.content);
    hide Trim, Trimmed;
  }

  // With an accepted configuration and no custom splitter, no text that gets as far as the splitter
  // is ever refused for its chunks.
  lemma DefaultSplitterAlwaysPasses(c: Config, text: string, chunks: seq<ChunkDraft>,
                                    stream: string, ws: seq<Window>, glued: seq<bool>)
    requires Opens(c) && c.splitter.NoSplitter? && !Blank(text)
    requires var s := Normalized(c).splitter;
      Explains(text, EffectiveSize(s.chunkSize), EffectiveOverlap(s.chunkSize, s.overlap), chunks, stream, ws, glued)
    ensures ChunksPass(Drafts(chunks), Normalized(c).maxChunkChars)
  {
    ChosenSplitterFits(c);
    var n := Normalized(c);
    var s := n.splitter;
    var size, overlap := EffectiveSize(s.chunkSize), EffectiveOverlap(s.chunkSize, s.overlap);
    hide Normalized, Opens, Explains, EffectiveSize, EffectiveOverlap, Blank, Trimmed, ChunkOk;
    SplitChunks(text, size, overlap, chunks, stream, ws, glued);
    forall i | 0 <= i < |chunks|
      ensures ChunkOk(chunks[i], n.maxChunkChars)
    {
      TrimmedChunkOk(chunks[i], n.maxChunkChars);
    }
  }
}
