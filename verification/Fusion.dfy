/**
Reciprocal-rank fusion: two ranked candidate lists merged in a map, the merged hits sorted by score,
document and chunk number, and cut to the limit. Scores are exact reals.
*/
module Fusion {
  import opened Sequences
  import opened StringOrder
  import opened Configuration

  // One row of a branch's result, best first. The columns fusion does not look at are one text.
  datatype Candidate = Candidate(id: int, documentId: string, chunkNo: int, rest: string, snippet: string, score: real)

  datatype Hit = Hit(
    documentId: string, chunkNo: int, rest: string, snippet: string,
    score: real, keywordScore: real, vectorScore: real)

  // The constant in force: a setting that is not positive stands for the default.
  function Effective(constant: int): (c: int)
    ensures c > 0
  {
    OrDefault(constant, DEFAULT_RRF_CONSTANT)
  }

  // reciprocalRank
  function ReciprocalRank(rank: int, constant: int): (r: real)
    ensures rank <= 0 ==> r == 0.0
    ensures rank > 0 ==> r > 0.0 && r * (Effective(constant) + rank) as real == 1.0
    ensures rank > 0 ==> r * ((if constant > 0 then constant else 60) + rank) as real == 1.0
  {
    if rank <= 0 then 0.0 else 1.0 / (Effective(constant) + rank) as real
  }

  // ---- What a merged hit is ----

  // A branch reads rows of kb_chunks, each once.
  predicate DistinctIds(l: seq<Candidate>) {
    forall i, j | 0 <= i < j < |l| :: l[i].id != l[j].id
  }

  function Ids(l: seq<Candidate>): set<int> {
    set i | 0 <= i < |l| :: l[i].id
  }

  // The rank of a row in a list, from 1, or 0 if it is not there.
  function RankIn(l: seq<Candidate>, id: int): (r: nat)
    ensures r <= |l| && (r > 0 <==> id in Ids(l)) && (r > 0 ==> l[r - 1].id == id)
  {
    if l == [] then 0
    else if l[|l| - 1].id == id then |l|
    else
      var r := RankIn(l[..|l| - 1], id);
      assert l == l[..|l| - 1] + [l[|l| - 1]];
      r
  }

  function Score(keyword: seq<Candidate>, vector: seq<Candidate>, constant: int, id: int): real {
    ReciprocalRank(RankIn(keyword, id), constant) + ReciprocalRank(RankIn(vector, id), constant)
  }

  // One hit per row: the keyword row's columns if it has one, the sum of its reciprocal ranks, and
  // the score each branch gave it.
  function Merged(keyword: seq<Candidate>, vector: seq<Candidate>, constant: int, id: int): Hit
    requires id in Ids(keyword) + Ids(vector)
  {
    var k, v := RankIn(keyword, id), RankIn(vector, id);
    var c := if k > 0 then keyword[k - 1] else vector[v - 1];
    Hit(c.documentId, c.chunkNo, c.rest,
        if c.snippet == "" && v > 0 then vector[v - 1].snippet else c.snippet,
        Score(keyword, vector, constant, id),
        if k > 0 then keyword[k - 1].score else 0.0,
        if v > 0 then vector[v - 1].score else 0.0)
  }

  function MergedMap(keyword: seq<Candidate>, vector: seq<Candidate>, constant: int): (m: map<int, Hit>)
    ensures m.Keys == Ids(keyword) + Ids(vector)
  {
    map id | id in Ids(keyword) + Ids(vector) :: Merged(keyword, vector, constant, id)
  }

  // ---- The order ----

  predicate Before(a: Hit, b: Hit) {
    || a.score > b.score
    || (a.score == b.score
        && (Less(a.documentId, b.documentId) || (a.documentId == b.documentId && a.chunkNo < b.chunkNo)))
  }

  // Higher scores come first, then smaller document ids, then smaller chunk numbers.
  lemma BeforeIsOrder(a: Hit, b: Hit)
    ensures Before(a, b) <==>
      || b.score < a.score
      || (a.score == b.score && Lexicographic(a.documentId, b.documentId))
      || (a.score == b.score && a.documentId == b.documentId && a.chunkNo < b.chunkNo)
  {
    LessIsLexicographic(a.documentId, b.documentId);
    hide Less, Lexicographic;
  }

  predicate Tie(a: Hit, b: Hit) {
    a.score == b.score && a.documentId == b.documentId && a.chunkNo == b.chunkNo
  }

  lemma BeforeTransitive(a: Hit, b: Hit, c: Hit)
    requires Before(a, b) && Before(b, c)
    ensures Before(a, c)
  {
    if Less(a.documentId, b.documentId) && Less(b.documentId, c.documentId) {
      LessTransitive(a.documentId, b.documentId, c.documentId);
    }
  }

  lemma BeforeTrichotomy(a: Hit, b: Hit)
    ensures Before(a, b) || Before(b, a) || Tie(a, b)
    ensures !(Before(a, b) && Before(b, a)) && (Tie(a, b) ==> !Before(a, b) && !Before(b, a))
  {
    LessTotal(a.documentId, b.documentId);
    LessIrreflexive(a.documentId);
    if Less(a.documentId, b.documentId) { LessAsymmetric(a.documentId, b.documentId); }
  }

  lemma NotBeforeTransitive(a: Hit, b: Hit, c: Hit)
    requires !Before(b, a) && !Before(c, b)
    ensures !Before(c, a)
  {
    BeforeTrichotomy(a, b);
    BeforeTrichotomy(b, c);
    BeforeTrichotomy(a, c);
    if Before(a, b) && Before(b, c) { BeforeTransitive(a, b, c); }
  }

  predicate Enumerates(m: map<int, Hit>, ids: seq<int>) {
    && (forall i | 0 <= i < |ids| :: ids[i] in m)
    && (forall i, j | 0 <= i < j < |ids| :: ids[i] != ids[j])
  }

  ghost predicate Complete(m: map<int, Hit>, ids: seq<int>) {
    forall id | id in m :: id in ids
  }

  // An order of all merged rows in which none stands behind one it beats. This is all an unstable
  // sort of the map's values promises, whatever order the map was iterated in.
  ghost predicate Ranking(m: map<int, Hit>, order: seq<int>) {
    && Enumerates(m, order) && Complete(m, order)
    && (forall i, j | 0 <= i < j < |order| :: !Before(m[order[j]], m[order[i]]))
  }

  function HitsAt(m: map<int, Hit>, order: seq<int>): seq<Hit>
    requires forall i | 0 <= i < |order| :: order[i] in m
  {
    seq(|order|, i requires 0 <= i < |order| => m[order[i]])
  }

  // The hits in some ranking order.
  ghost predicate Ranked(m: map<int, Hit>, hits: seq<Hit>) {
    exists order :: Ranking(m, order) && hits == HitsAt(m, order)
  }

  // What an unstable sort of the map's values, iterated in any order, may leave within the limit.
  ghost predicate Answer(m: map<int, Hit>, limit: nat, hits: seq<Hit>) {
    exists order :: Ranking(m, order) && hits == Truncate(limit, HitsAt(m, order))
  }

  // ---- The code ----

  lemma IdsSnoc(l: seq<Candidate>, c: Candidate)
    ensures Ids(l + [c]) == Ids(l) + {c.id}
  {
    var more := l + [c];
    forall id | id in Ids(l) + {c.id}
      ensures id in Ids(more)
    {
      if id == c.id { assert more[|l|].id == id; }
      else {
        var i :| 0 <= i < |l| && l[i].id == id;
        assert more[i].id == id;
      }
    }
  }

  lemma RankSnoc(l: seq<Candidate>, c: Candidate, id: int)
    ensures RankIn(l + [c], id) == if c.id == id then |l| + 1 else RankIn(l, id)
  {
    assert (l + [c])[..|l|] == l;
  }

  lemma OtherRowKeyword(l: seq<Candidate>, c: Candidate, constant: int, id: int)
    requires id != c.id && id in Ids(l) && id in Ids(l + [c])
    ensures Merged(l + [c], [], constant, id) == Merged(l, [], constant, id)
  {
    RankSnoc(l, c, id);
    hide RankIn, Ids, ReciprocalRank;
  }

  // What the code builds for a row a branch is the first to find.
  function NewHit(c: Candidate, rank: int, constant: int, keyword: bool): Hit {
    Hit(c.documentId, c.chunkNo, c.rest, c.snippet, 0.0 + ReciprocalRank(rank, constant),
        if keyword then c.score else 0.0, if keyword then 0.0 else c.score)
  }

  // And for a row the keyword branch has found already.
  function WithVector(h: Hit, c: Candidate, rank: int, constant: int): Hit {
    h.(score := h.score + ReciprocalRank(rank, constant), vectorScore := c.score,
       snippet := if h.snippet == "" then c.snippet else h.snippet)
  }

  lemma NewRowKeyword(l: seq<Candidate>, c: Candidate, constant: int)
    requires c.id in Ids(l + [c])
    ensures Merged(l + [c], [], constant, c.id) == NewHit(c, |l| + 1, constant, true)
  {
    RankSnoc(l, c, c.id);
    hide Ids;
  }

  // One more keyword hit: a new row of the map.
  lemma KeywordSnoc(l: seq<Candidate>, c: Candidate, constant: int)
    requires c.id !in Ids(l)
    ensures MergedMap(l + [c], [], constant) == MergedMap(l, [], constant)[c.id := NewHit(c, |l| + 1, constant, true)]
  {
    IdsSnoc(l, c);
    NewRowKeyword(l, c, constant);
    forall id | id in Ids(l)
      ensures Merged(l + [c], [], constant, id) == Merged(l, [], constant, id)
    {
      OtherRowKeyword(l, c, constant, id);
    }
    NoIds();
    hide Merged, Ids, NewHit;
  }

  lemma NoIds()
    ensures Ids([]) == {}
  {}

  lemma OtherRow(keyword: seq<Candidate>, l: seq<Candidate>, c: Candidate, constant: int, id: int)
    requires id != c.id && id in Ids(keyword) + Ids(l) && id in Ids(keyword) + Ids(l + [c])
    ensures Merged(keyword, l + [c], constant, id) == Merged(keyword, l, constant, id)
  {
    RankSnoc(l, c, id);
    hide RankIn, Ids, ReciprocalRank;
  }

  lemma VectorRow(keyword: seq<Candidate>, l: seq<Candidate>, c: Candidate, constant: int)
    requires c.id !in Ids(l) && c.id in Ids(l + [c])
    ensures Merged(keyword, l + [c], constant, c.id) ==
      if c.id in Ids(keyword) then WithVector(Merged(keyword, l, constant, c.id), c, |l| + 1, constant)
      else NewHit(c, |l| + 1, constant, false)
  {
    RankSnoc(l, c, c.id);
    NoReciprocal(constant);
    hide Ids, ReciprocalRank;
  }

  lemma NoReciprocal(constant: int)
    ensures ReciprocalRank(0, constant) == 0.0
  {}

  lemma VectorSnocOthers(keyword: seq<Candidate>, l: seq<Candidate>, c: Candidate, constant: int)
    requires c.id !in Ids(l)
    ensures MergedMap(keyword, l + [c], constant).Keys == MergedMap(keyword, l, constant).Keys + {c.id}
    ensures forall id | id in MergedMap(keyword, l, constant) && id != c.id ::
      MergedMap(keyword, l + [c], constant)[id] == MergedMap(keyword, l, constant)[id]
  {
    IdsSnoc(l, c);
    forall id | id in Ids(keyword) + Ids(l) && id != c.id
      ensures Merged(keyword, l + [c], constant, id) == Merged(keyword, l, constant, id)
    {
      OtherRow(keyword, l, c, constant, id);
    }
    hide Merged, Ids;
  }

  lemma VectorSnocOwn(keyword: seq<Candidate>, l: seq<Candidate>, c: Candidate, constant: int)
    requires c.id !in Ids(l) && c.id in MergedMap(keyword, l + [c], constant)
    ensures var m := MergedMap(keyword, l, constant);
      MergedMap(keyword, l + [c], constant)[c.id] ==
        if c.id in m then WithVector(m[c.id], c, |l| + 1, constant) else NewHit(c, |l| + 1, constant, false)
  {
    IdsSnoc(l, c);
    VectorRow(keyword, l, c, constant);
    hide Merged, Ids, NewHit, WithVector;
  }

  // One more vector hit: added to its row if the keyword branch has it, else a new row.
  lemma VectorSnoc(keyword: seq<Candidate>, l: seq<Candidate>, c: Candidate, constant: int)
    requires c.id !in Ids(l)
    ensures var m := MergedMap(keyword, l, constant);
      MergedMap(keyword, l + [c], constant) ==
        m[c.id := if c.id in m then WithVector(m[c.id], c, |l| + 1, constant) else NewHit(c, |l| + 1, constant, false)]
  {
    hide *;
    VectorSnocOthers(keyword, l, c, constant);
    VectorSnocOwn(keyword, l, c, constant);
    var m := MergedMap(keyword, l, constant);
    MapExtended(m, MergedMap(keyword, l + [c], constant), c.id,
      if c.id in m then WithVector(m[c.id], c, |l| + 1, constant) else NewHit(c, |l| + 1, constant, false));
  }

  // ---- Collecting and sorting ----

  predicate NoneBehind(hits: seq<Hit>) {
    forall i, j | 0 <= i < j < |hits| :: !Before(hits[j], hits[i])
  }

  // Copies the map's values out, in whatever order the map yields them.
  method Collect(m: map<int, Hit>) returns (results: seq<Hit>, ghost ids: seq<int>)
    ensures Enumerates(m, ids) && Complete(m, ids)
    ensures results == HitsAt(m, ids) && |results| == |m|
  {
    results, ids := [], [];
    var todo := m.Keys;
    while todo != {}
      invariant todo <= m.Keys
      invariant Enumerates(m, ids) && results == HitsAt(m, ids)
      invariant forall id :: id in m.Keys <==> id in todo || id in ids
      invariant forall id | id in todo :: id !in ids
      invariant |ids| + |todo| == |m|
      decreases |todo|
    {
      assert exists id :: id in todo by {
        var _ := SomeElement(todo);
      }
      var id :| id in todo;
      results := results + [m[id]];
      ids := ids + [id];
      todo := todo - {id};
    }
  }

  // Where a hit goes: behind every hit it does not beat, before every hit it beats.
  method InsertionPoint(sorted: seq<Hit>, h: Hit) returns (p: nat)
    requires NoneBehind(sorted)
    ensures p <= |sorted|
    ensures forall j | 0 <= j < p :: !Before(h, sorted[j])
    ensures forall j | p <= j < |sorted| :: Before(h, sorted[j])
  {
    hide Before;
    p := |sorted|;
    while p > 0 && Before(h, sorted[p - 1])
      invariant p <= |sorted|
      invariant forall j | p <= j < |sorted| :: Before(h, sorted[j])
    {
      p := p - 1;
    }
    forall j | 0 <= j < p
      ensures !Before(h, sorted[j])
    {
      if j < p - 1 { NotBeforeTransitive(sorted[j], sorted[p - 1], h); }
    }
  }

  function Inserted<T>(s: seq<T>, p: nat, x: T): seq<T>
    requires p <= |s|
  {
    s[..p] + [x] + s[p..]
  }

  lemma InsertKeepsOrdered(sorted: seq<Hit>, p: nat, h: Hit)
    requires NoneBehind(sorted) && p <= |sorted|
    requires forall j | 0 <= j < p :: !Before(h, sorted[j])
    requires forall j | p <= j < |sorted| :: Before(h, sorted[j])
    ensures NoneBehind(Inserted(sorted, p, h))
  {
    hide Before;
    forall j | p <= j < |sorted|
      ensures !Before(sorted[j], h)
    {
      BeforeTrichotomy(h, sorted[j]);
    }
  }

  lemma InsertedIds(m: map<int, Hit>, ids: seq<int>, p: nat, id: int)
    requires Enumerates(m, ids) && p <= |ids| && id in m && id !in ids
    ensures Enumerates(m, Inserted(ids, p, id))
    ensures HitsAt(m, Inserted(ids, p, id)) == Inserted(HitsAt(m, ids), p, m[id])
    ensures forall x :: x in Inserted(ids, p, id) <==> x in ids || x == id
  {
    assert ids == ids[..p] + ids[p..];
  }

  // The sort. Callers may rely on the result being a ranking of the same hits, and on nothing else
  // about the order of hits that tie.
  method SortHits(m: map<int, Hit>, results: seq<Hit>, ghost ids: seq<int>) returns (sorted: seq<Hit>)
    requires Enumerates(m, ids) && Complete(m, ids) && results == HitsAt(m, ids)
    ensures Ranked(m, sorted)
  {
    hide Before;
    sorted := [];
    ghost var order := [];
    for i := 0 to |results|
      invariant Enumerates(m, order) && sorted == HitsAt(m, order) && NoneBehind(sorted)
      invariant forall x :: x in order <==> x in ids[..i]
    {
      var p := InsertionPoint(sorted, results[i]);
      InsertKeepsOrdered(sorted, p, results[i]);
      assert ids[i] !in ids[..i];
      InsertedIds(m, order, p, ids[i]);
      sorted := sorted[..p] + [results[i]] + sorted[p..];
      order := Inserted(order, p, ids[i]);
      assert ids[..i + 1] == ids[..i] + [ids[i]];
    }
    assert ids[..|ids|] == ids;
    RankingOf(m, order);
  }

  lemma RankingOf(m: map<int, Hit>, order: seq<int>)
    requires Enumerates(m, order) && Complete(m, order) && NoneBehind(HitsAt(m, order))
    ensures Ranking(m, order)
  {
    hide Before;
    var hits := HitsAt(m, order);
    forall i, j | 0 <= i < j < |order|
      ensures !Before(m[order[j]], m[order[i]])
    {
      assert hits[i] == m[order[i]] && hits[j] == m[order[j]];
    }
  }

  // ---- Merging ----

  // The loop over the keyword hits.
  method AddKeywordHits(keywordHits: seq<Candidate>, constant: int) returns (merged: map<int, Hit>)
    requires DistinctIds(keywordHits)
    ensures merged == MergedMap(keywordHits, [], constant)
  {
    hide MergedMap, ReciprocalRank, Ids, DistinctIds;
    merged := map[];
    NothingMerged(constant);
    for rank := 0 to |keywordHits|
      invariant merged == MergedMap(keywordHits[..rank], [], constant)
    {
      var hit := keywordHits[rank];
      NextIsNew(keywordHits, rank);
      KeywordSnoc(keywordHits[..rank], hit, constant);
      var score := 0.0;
      score := score + ReciprocalRank(rank + 1, constant);
      merged := merged[hit.id := Hit(hit.documentId, hit.chunkNo, hit.rest, hit.snippet, score, hit.score, 0.0)];
    }
    assert keywordHits[..|keywordHits|] == keywordHits;
  }

  // The loop over the vector hits, which updates the rows the keyword branch has found.
  method AddVectorHits(found: map<int, Hit>, vectorHits: seq<Candidate>, constant: int, ghost keywordHits: seq<Candidate>)
    returns (merged: map<int, Hit>)
    requires DistinctIds(vectorHits) && found == MergedMap(keywordHits, [], constant)
    ensures merged == MergedMap(keywordHits, vectorHits, constant)
  {
    hide MergedMap, ReciprocalRank, Ids, DistinctIds;
    merged := found;
    for rank := 0 to |vectorHits|
      invariant merged == MergedMap(keywordHits, vectorHits[..rank], constant)
    {
      var hit := vectorHits[rank];
      NextIsNew(vectorHits, rank);
      VectorSnoc(keywordHits, vectorHits[..rank], hit, constant);
      if hit.id in merged {
        var existing := merged[hit.id];
        existing := existing.(score := existing.score + ReciprocalRank(rank + 1, constant));
        existing := existing.(vectorScore := hit.score);
        if existing.snippet == "" {
          existing := existing.(snippet := hit.snippet);
        }
        merged := merged[hit.id := existing];
        continue;
      }
      var score := 0.0;
      score := score + ReciprocalRank(rank + 1, constant);
      merged := merged[hit.id := Hit(hit.documentId, hit.chunkNo, hit.rest, hit.snippet, score, 0.0, hit.score)];
    }
    assert vectorHits[..|vectorHits|] == vectorHits;
  }

  lemma NothingMerged(constant: int)
    ensures MergedMap([], [], constant) == map[]
  {
    NoIds();
  }

  lemma NextIsNew(l: seq<Candidate>, n: nat)
    requires DistinctIds(l) && n < |l|
    ensures l[n].id !in Ids(l[..n]) && l[..n + 1] == l[..n] + [l[n]]
  {}
}
