/**
Query vectors through the cache. First the code of one search, over the shared cache object; then
any number of searches at once, where Get and Put are separate critical sections and the embedder
runs between them with no lock held.
*/
module CachedSearch {
  import opened Text
  import opened Embedding
  import opened Recency
  import opened QueryCache

  datatype KeyOutcome = KeyFailed | NoKey | Key(key: string)

  datatype Status = Hit | Miss | Bypassed | Disabled

  datatype SearchError =
    | KeyerMissing | KeyError | EmptyKey
    | EmbedError | WrongVectorCount(got: nat) | WrongDimension(length: nat)

  datatype KeyPlan = UseKey(key: string) | SkipCache(status: Status) | KeyRefused(error: SearchError)

  // resolveQueryEmbeddingCacheKey
  function ResolveKey(enabled: bool, keyed: bool, outcome: KeyOutcome): KeyPlan {
    if !enabled then SkipCache(Disabled)
    else if !keyed then KeyRefused(KeyerMissing)
    else match outcome
      case KeyFailed => KeyRefused(KeyError)
      case NoKey => SkipCache(Bypassed)
      case Key(k) => if Trim(k) == "" then KeyRefused(EmptyKey) else UseKey(k)
  }

  datatype Checked = Good(vector: Vector) | Bad(error: SearchError)

  // What the search makes of the embedder's answer.
  function CheckEmbedding(e: EmbedOutcome, dimensions: int): Checked {
    match e
    case EmbedFailed => Bad(EmbedError)
    case Vectors(vs) =>
      if |vs| != 1 then Bad(WrongVectorCount(|vs|))
      else if |vs[0]| != dimensions then Bad(WrongDimension(|vs[0]|))
      else Good(vs[0])
  }

  // ---- One search, over the cache object ----

  // The embedder's own arrays.
  datatype Embedded = Failed | Returned(vectors: seq<array<int>>)

  ghost function ValueOf(e: Embedded): EmbedOutcome
    reads if e.Returned? then set v: array<int> | v in e.vectors else {}
  {
    match e
    case Failed => EmbedFailed
    case Returned(vs) => Vectors(seq(|vs|, i requires 0 <= i < |vs| reads set v: array<int> | v in vs => vs[i][..]))
  }

  datatype Answer = Found(status: Status) | Refused(error: SearchError)

  // The search returns what embedding its text directly gives, vector or error.
  ghost predicate Direct(answer: Answer, vector: array?<int>, status: Status, direct: Checked)
    reads if vector == null then {} else {vector}
  {
    match direct
    case Good(v) => answer == Found(status) && vector != null && vector[..] == v
    case Bad(e) => answer == Refused(e)
  }

  lemma CheckCases(embedded: Embedded, dimensions: int)
    ensures var direct := CheckEmbedding(ValueOf(embedded), dimensions);
      match embedded
      case Failed => direct == Bad(EmbedError)
      case Returned(vs) =>
        if |vs| != 1 then direct == Bad(WrongVectorCount(|vs|))
        else if vs[0].Length != dimensions then direct == Bad(WrongDimension(vs[0].Length))
        else direct == Good(vs[0][..])
  {}

  // searchQueryVector once the key is resolved.
  method SearchWithPlan(cache: QueryEmbeddingCache?, plan: KeyPlan, embedded: Embedded, dimensions: int)
    returns (answer: Answer, vector: array?<int>)
    requires !plan.KeyRefused? && (plan.UseKey? ==> cache != null)
    requires cache != null ==> cache.Valid()
    modifies cache, if cache == null then [] else cache.ll
    ensures cache != null ==> cache.Valid() && fresh(cache.Repr - old(cache.Repr))
    ensures answer.Found? <==> vector != null
    ensures vector != null ==> fresh(vector) && (cache != null ==> vector !in cache.Repr)
    ensures plan.SkipCache? ==>
              && Direct(answer, vector, plan.status, CheckEmbedding(old(ValueOf(embedded)), dimensions))
              && (cache != null ==> cache.Contents() == old(cache.Contents()))
    ensures plan.UseKey? ==>
              var before := old(cache.Contents());
              var direct := CheckEmbedding(old(ValueOf(embedded)), dimensions);
              if Has(before, plan.key) then
                && answer == Found(Hit) && vector[..] == VectorOf(before, plan.key)
                && cache.Contents() == AfterGet(before, plan.key)
              else
                && Direct(answer, vector, Miss, direct)
                && cache.Contents() == if direct.Good? then AfterPut(cache.capacity, before, plan.key, direct.vector) else before
  {
    CheckCases(embedded, dimensions);
    hide CheckEmbedding, ValueOf, AfterPut, Bijection, Owned, MoveUpEntry, IndexOf, Keys;
    if plan.UseKey? {
      var found, cached := cache.Get(plan.key);
      if found {
        return Found(Hit), cached;
      }
    }
    if embedded.Failed? {
      return Refused(EmbedError), null;
    }
    if |embedded.vectors| != 1 {
      return Refused(WrongVectorCount(|embedded.vectors|)), null;
    }
    var queryVector := embedded.vectors[0];
    if queryVector.Length != dimensions {
      return Refused(WrongDimension(queryVector.Length)), null;
    }
    if plan.UseKey? {
      cache.Put(plan.key, queryVector);
      var copy := CloneVector(queryVector);
      return Found(Miss), copy;
    }
    var copy := CloneVector(queryVector);
    return Found(plan.status), copy;
  }

  // searchQueryVector, given the key the embedder names and what it returns when it is asked.
  // The returned array is fresh: it is neither the cache's nor the embedder's.
  method SearchQueryVector(cache: QueryEmbeddingCache?, keyed: bool, outcome: KeyOutcome, embedded: Embedded, dimensions: int)
    returns (answer: Answer, vector: array?<int>)
    requires cache != null ==> cache.Valid()
    modifies cache, if cache == null then [] else cache.ll
    ensures cache != null ==> cache.Valid() && fresh(cache.Repr - old(cache.Repr))
    ensures answer.Found? <==> vector != null
    ensures vector != null ==> fresh(vector) && (cache != null ==> vector !in cache.Repr)
    ensures cache == null ==> Direct(answer, vector, Disabled, CheckEmbedding(old(ValueOf(embedded)), dimensions))
    ensures cache != null && !keyed ==> answer == Refused(KeyerMissing) && cache.Contents() == old(cache.Contents())
    ensures cache != null && keyed ==>
              var before := old(cache.Contents());
              var direct := CheckEmbedding(old(ValueOf(embedded)), dimensions);
              match outcome
              case KeyFailed => answer == Refused(KeyError) && cache.Contents() == before
              case NoKey => Direct(answer, vector, Bypassed, direct) && cache.Contents() == before
              case Key(k) =>
                if Blank(k) then
                  answer == Refused(EmptyKey) && cache.Contents() == before
                else if Has(before, k) then
                  answer == Found(Hit) && vector[..] == VectorOf(before, k) && cache.Contents() == AfterGet(before, k)
                else
                  && Direct(answer, vector, Miss, direct)
                  && cache.Contents() == if direct.Good? then AfterPut(cache.capacity, before, k, direct.vector) else before
  {
    if outcome.Key? { TrimBlank(outcome.key); }
    hide Trim, Blank, Direct, CheckEmbedding, ValueOf, AfterGet, AfterPut, Bijection, Owned, Has, VectorOf;
    var plan := ResolveKey(cache != null, keyed, outcome);
    if plan.KeyRefused? {
      return Refused(plan.error), null;
    }
    answer, vector := SearchWithPlan(cache, plan, embedded, dimensions);
  }
}
