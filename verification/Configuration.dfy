/** Configuration defaults and checks, and the limits of a search request that follow from them. */
module Configuration {
  import opened Text
  import opened Splitter

  const DEFAULT_COLLECTION := "default"
  const DEFAULT_SEARCH_LIMIT := 5
  const DEFAULT_CANDIDATE_LIMIT := 20
  const DEFAULT_RRF_CONSTANT := 60
  const DEFAULT_MAX_DOCUMENT_SIZE := 2 * 1024 * 1024
  const DEFAULT_MAX_CHUNK_CHARS := 5000

  datatype EmbedderKind = NoEmbedder | PlainEmbedder | KeyedEmbedder

  datatype SplitterKind = NoSplitter | DefaultSplitter(chunkSize: int, overlap: int) | CustomSplitter

  datatype Config = Config(
    databaseUrl: string,
    defaultCollection: string,
    embeddingDimensions: int,
    embedder: EmbedderKind,
    splitter: SplitterKind,
    minConns: int,
    maxConns: int,
    defaultSearchLimit: int,
    candidateLimit: int,
    rrfConstant: int,
    maxDocumentBytes: int,
    maxChunkChars: int,
    queryEmbeddingCacheSize: int)

  function OrDefault(setting: int, standard: int): int {
    if setting <= 0 then standard else setting
  }

  // Config.normalized
  function Normalized(c: Config): Config {
    var maxChunkChars := OrDefault(c.maxChunkChars, DEFAULT_MAX_CHUNK_CHARS);
    c.(defaultCollection := if c.defaultCollection == "" then DEFAULT_COLLECTION else c.defaultCollection,
       defaultSearchLimit := OrDefault(c.defaultSearchLimit, DEFAULT_SEARCH_LIMIT),
       candidateLimit := OrDefault(c.candidateLimit, DEFAULT_CANDIDATE_LIMIT),
       rrfConstant := OrDefault(c.rrfConstant, DEFAULT_RRF_CONSTANT),
       maxDocumentBytes := OrDefault(c.maxDocumentBytes, DEFAULT_MAX_DOCUMENT_SIZE),
       maxChunkChars := maxChunkChars,
       splitter :=
         if c.splitter.NoSplitter? then
           DefaultSplitter(if maxChunkChars < DEFAULT_CHUNK_SIZE then maxChunkChars else DEFAULT_CHUNK_SIZE, DEFAULT_OVERLAP)
         else c.splitter)
  }

  datatype Verdict =
    | Accepted
    | NoDatabaseUrl | BadDimensions | EmbedderMissing | NegativeMinConns | NegativeMaxConns
    | MinConnsOverMax | SearchLimitOverCandidates | NegativeCacheSize | ChunkCharsOverMaximum | CacheNeedsKeyer

  // Config.validate
  function Validate(c: Config): Verdict {
    if c.databaseUrl == "" then NoDatabaseUrl
    else if c.embeddingDimensions <= 0 then BadDimensions
    else if c.embedder.NoEmbedder? then EmbedderMissing
    else if c.minConns < 0 then NegativeMinConns
    else if c.maxConns < 0 then NegativeMaxConns
    else if c.maxConns > 0 && c.minConns > c.maxConns then MinConnsOverMax
    else if c.candidateLimit > 0 && c.defaultSearchLimit > c.candidateLimit then SearchLimitOverCandidates
    else if c.queryEmbeddingCacheSize < 0 then NegativeCacheSize
    else if c.maxChunkChars > DEFAULT_MAX_CHUNK_CHARS then ChunkCharsOverMaximum
    else if c.queryEmbeddingCacheSize > 0 && !c.embedder.KeyedEmbedder? then CacheNeedsKeyer
    else Accepted
  }

  // New gets past its checks.
  predicate Opens(c: Config) {
    Validate(Normalized(c)) == Accepted
  }

  // A setting that is not positive gets its default; every other setting is kept as it is written.
  lemma SettingsKept(c: Config)
    ensures var n := Normalized(c);
      && n.defaultCollection == (if c.defaultCollection == "" then "default" else c.defaultCollection)
      && n.defaultSearchLimit == (if c.defaultSearchLimit > 0 then c.defaultSearchLimit else 5)
      && n.candidateLimit == (if c.candidateLimit > 0 then c.candidateLimit else 20)
      && n.rrfConstant == (if c.rrfConstant > 0 then c.rrfConstant else 60)
      && n.maxDocumentBytes == (if c.maxDocumentBytes > 0 then c.maxDocumentBytes else 2097152)
      && n.maxChunkChars == (if c.maxChunkChars > 0 then c.maxChunkChars else 5000)
      && (!c.splitter.NoSplitter? ==> n.splitter == c.splitter)
      && (c.splitter.NoSplitter? && n.maxChunkChars >= 900 ==> n.splitter == DefaultSplitter(900, 120))
      && (c.splitter.NoSplitter? && n.maxChunkChars < 900 ==> n.splitter == DefaultSplitter(n.maxChunkChars, 120))
    ensures Normalized(Normalized(c)) == Normalized(c)
  {}

  // New accepts exactly these configurations.
  lemma OpensExactly(c: Config)
    ensures Opens(c) <==>
      && c.databaseUrl != "" && c.embeddingDimensions > 0 && !c.embedder.NoEmbedder?
      && c.minConns >= 0 && c.maxConns >= 0 && (c.maxConns == 0 || c.minConns <= c.maxConns)
      && OrDefault(c.defaultSearchLimit, 5) <= OrDefault(c.candidateLimit, 20)
      && c.queryEmbeddingCacheSize >= 0 && c.maxChunkChars <= 5000
      && (c.queryEmbeddingCacheSize == 0 || c.embedder.KeyedEmbedder?)
  {}

  // What a store that opened knows about its limits.
  lemma OpenedLimits(c: Config)
    requires Opens(c)
    ensures var n := Normalized(c);
      && 0 < n.defaultSearchLimit <= n.candidateLimit
      && 0 < n.maxChunkChars <= DEFAULT_MAX_CHUNK_CHARS
      && n.rrfConstant > 0 && n.maxDocumentBytes > 0 && n.embeddingDimensions > 0
      && n.defaultCollection != ""
      && (n.queryEmbeddingCacheSize > 0 ==> n.embedder.KeyedEmbedder?)
  {}

  // The splitter chosen when none is configured never makes a chunk over the configured limit.
  lemma ChosenSplitterFits(c: Config)
    requires Opens(c) && c.splitter.NoSplitter?
    ensures var n := Normalized(c);
      && n.splitter.DefaultSplitter?
      && EffectiveSize(n.splitter.chunkSize) <= n.maxChunkChars
      && EffectiveOverlap(n.splitter.chunkSize, n.splitter.overlap) < EffectiveSize(n.splitter.chunkSize)
  {}

  // ---- Search requests ----

  datatype Mode = Unset | Hybrid | KeywordOnly | VectorOnly | Unknown

  // Whether the metadata filter has a JSON encoding; nil metadata stands for {} and has one.
  datatype Filter = Encodable | NotEncodable

  datatype SearchRequest = SearchRequest(query: string, limit: int, candidateLimit: int, mode: Mode, filter: Filter)

  // normalizeSearchRequest
  function NormalizeSearch(n: Config, r: SearchRequest): SearchRequest {
    SearchRequest(
      Trim(r.query),
      if r.limit <= 0 then n.defaultSearchLimit else r.limit,
      if r.candidateLimit <= 0 then n.candidateLimit else r.candidateLimit,
      if r.mode.Unset? then Hybrid else r.mode,
      r.filter)
  }

  // A request keeps every setting it makes; without a mode it is hybrid, without a limit it takes the
  // store's.
  lemma SearchSettingsKept(n: Config, r: SearchRequest)
    ensures var s := NormalizeSearch(n, r);
      && Core(r.query, s.query) && s.filter == r.filter
      && s.mode == (if r.mode.Unset? then Hybrid else r.mode)
      && (r.limit > 0 ==> s.limit == r.limit) && (r.limit <= 0 ==> s.limit == n.defaultSearchLimit)
      && (r.candidateLimit > 0 ==> s.candidateLimit == r.candidateLimit)
      && (r.candidateLimit <= 0 ==> s.candidateLimit == n.candidateLimit)
  {
    CoreIsTrim(r.query, Trim(r.query));
    hide Trim, Core;
  }

  // validateSearchRequest
  predicate ValidSearch(r: SearchRequest) {
    && r.query != "" && !r.mode.Unset? && !r.mode.Unknown?
    && r.limit > 0 && r.candidateLimit >= r.limit && r.filter.Encodable?
  }

  // What the limits of a request have to satisfy, in the settings as they were written.
  predicate LimitsFit(c: Config, r: SearchRequest) {
    if r.limit <= 0 then
      r.candidateLimit <= 0 || OrDefault(c.defaultSearchLimit, DEFAULT_SEARCH_LIMIT) <= r.candidateLimit
    else if r.candidateLimit <= 0 then r.limit <= OrDefault(c.candidateLimit, DEFAULT_CANDIDATE_LIMIT)
    else r.limit <= r.candidateLimit
  }

  // A search goes ahead exactly when its text is not blank, its mode is known, its filter can be
  // encoded, and its limits fit; leaving both unset is always fine.
  lemma SearchAccepted(c: Config, r: SearchRequest)
    requires Opens(c)
    ensures ValidSearch(NormalizeSearch(Normalized(c), r)) <==>
      !Blank(r.query) && !r.mode.Unknown? && r.filter.Encodable? && LimitsFit(c, r)
  {
    TrimBlank(r.query);
    OpenedLimits(c);
    hide Trim;
  }
}
