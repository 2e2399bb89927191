/** SearchDetailed: normalise and check the request, ask the branches its mode calls for, fuse, cut. */
module SearchDetailed {
  import opened Text
  import opened Sequences
  import opened Configuration
  import opened Fusion
  import opened FusionLaws
  import opened FusionRanks

  // What a mode's answer may be, given what the branches would return: hybrid fuses both lists, and
  // either branch alone is answered by its own first hits, in its order.
  ghost predicate Answers(mode: Mode, keyword: seq<Candidate>, vector: seq<Candidate>, constant: int, limit: nat,
                          hits: seq<Hit>, fusedCount: nat)
  {
    match mode
    case Hybrid => fusedCount == |Ids(keyword) + Ids(vector)| && Answer(MergedMap(keyword, vector, constant), limit, hits)
    case KeywordOnly => fusedCount == |keyword| && hits == Truncate(limit, Alone(keyword, constant, true))
    case VectorOnly => fusedCount == |vector| && hits == Truncate(limit, Alone(vector, constant, false))
    case _ => false
  }

  lemma IdsCount(l: seq<Candidate>)
    requires DistinctIds(l)
    ensures |Ids(l)| == |l|
  {
    forall id
      ensures id in IdList(l) <==> id in Ids(l)
    {
      if id in Ids(l) {
        var i :| 0 <= i < |l| && l[i].id == id;
        assert IdList(l)[i] == id;
      }
    }
    DistinctLength(IdList(l), Ids(l));
  }

  lemma OneBranchAnswers(l: seq<Candidate>, constant: int, limit: nat, hits: seq<Hit>)
    requires DistinctIds(l)
    ensures Answer(MergedMap(l, [], constant), limit, hits) ==> hits == Truncate(limit, Alone(l, constant, true))
    ensures Answer(MergedMap([], l, constant), limit, hits) ==> hits == Truncate(limit, Alone(l, constant, false))
    ensures |Ids(l) + Ids([])| == |Ids([]) + Ids(l)| == |l|
  {
    hide *;
    IdsCount(l);
    NoIds();
    assert Ids(l) + {} == {} + Ids(l) == Ids(l);
    KeywordOnlyAnswer(l, constant, limit, hits);
    VectorOnlyAnswer(l, constant, limit, hits);
  }

  // From the hits of the branches that were asked to the final list.
  method Fuse(mode: Mode, keywordHits: seq<Candidate>, vectorHits: seq<Candidate>, constant: int, limit: nat)
    returns (hits: seq<Hit>, fusedCount: nat)
    requires DistinctIds(keywordHits) && DistinctIds(vectorHits) && !mode.Unset? && !mode.Unknown?
    ensures Answers(mode, keywordHits, vectorHits, constant, limit, hits, fusedCount)
  {
    hide Ranking, MergedMap, Enumerates, HitsAt, Ids, Complete, DistinctIds, Alone, Answer;
    ghost var k, v := [], [];
    var merged := map[];
    NothingMerged(constant);
    if mode.Hybrid? || mode.KeywordOnly? {
      merged := AddKeywordHits(keywordHits, constant);
      k := keywordHits;
    }
    if mode.Hybrid? || mode.VectorOnly? {
      merged := AddVectorHits(merged, vectorHits, constant, k);
      v := vectorHits;
    }
    ghost var ids;
    var results;
    results, ids := Collect(merged);
    fusedCount := |results|;
    hits := SortHits(merged, results, ids);
    CutIsAnswer(merged, limit, hits);
    if |hits| > limit {
      hits := hits[..limit];
    }
    MergedCount(k, v, constant);
    OneBranchAnswers(keywordHits, constant, limit, hits);
    OneBranchAnswers(vectorHits, constant, limit, hits);
  }

  lemma MergedCount(k: seq<Candidate>, v: seq<Candidate>, constant: int)
    ensures |MergedMap(k, v, constant)| == |Ids(k) + Ids(v)|
  {
    hide Merged, Ids;
  }

  lemma CutIsAnswer(m: map<int, Hit>, limit: nat, sorted: seq<Hit>)
    requires Ranked(m, sorted)
    ensures Answer(m, limit, Truncate(limit, sorted))
  {
    hide Ranking, HitsAt;
  }

  lemma NothingRepeats()
    ensures DistinctIds([])
  {}

  datatype Response = Rejected | Response(hits: seq<Hit>, mode: Mode, fusedCount: nat)

  // A request's setting, or the store's, or the default.
  function Chosen(asked: int, configured: int, standard: int): int {
    if asked > 0 then asked else if configured > 0 then configured else standard
  }

  // SearchDetailed, given what each branch returns for a text and a number of candidates.
  method SearchDetailed(c: Config, r: SearchRequest,
                        keyword: (string, int) -> seq<Candidate>, vector: (string, int) -> seq<Candidate>)
    returns (response: Response)
    requires Opens(c)
    requires forall query, n :: DistinctIds(keyword(query, n)) && DistinctIds(vector(query, n))
    ensures response.Response? <==> !Blank(r.query) && !r.mode.Unknown? && r.filter.Encodable? && LimitsFit(c, r)
    ensures response.Response? ==>
              && response.mode == (if r.mode.Unset? then Hybrid else r.mode)
              && var limit := Chosen(r.limit, c.defaultSearchLimit, DEFAULT_SEARCH_LIMIT);
              var n := Chosen(r.candidateLimit, c.candidateLimit, DEFAULT_CANDIDATE_LIMIT);
              var constant := if c.rrfConstant > 0 then c.rrfConstant else DEFAULT_RRF_CONSTANT;
              && 0 < limit <= n
              && Answers(response.mode, keyword(Trim(r.query), n), vector(Trim(r.query), n), constant, limit,
                         response.hits, response.fusedCount)
  {
    hide Trim, DistinctIds, Answer, Alone, Ids, MergedMap, Opens;
    OpenedLimits(c);
    SearchAccepted(c, r);
    var config := Normalized(c);
    var req := NormalizeSearch(config, r);
    if !ValidSearch(req) {
      return Rejected;
    }
    var keywordHits, vectorHits := [], [];
    if req.mode.Hybrid? || req.mode.KeywordOnly? {
      keywordHits := keyword(req.query, req.candidateLimit);
    }
    if req.mode.Hybrid? || req.mode.VectorOnly? {
      vectorHits := vector(req.query, req.candidateLimit);
    }
    NothingRepeats();
    var hits, fusedCount := Fuse(req.mode, keywordHits, vectorHits, config.rrfConstant, req.limit);
    return Response(hits, req.mode, fusedCount);
  }
}
