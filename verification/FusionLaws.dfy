/** When fusion gives one answer, and what that answer ranks first. */
module FusionLaws {
  import opened Sequences
  import opened StringOrder
  import opened Printers
  import opened Tables
  import opened Fusion

  // ---- One answer ----

  // No two merged hits agree on score, document and chunk number.
  ghost predicate NoTies(m: map<int, Hit>) {
    forall a, b | a in m && b in m && a != b :: !Tie(m[a], m[b])
  }

  lemma RankingEnumerates(m: map<int, Hit>, order: seq<int>)
    requires Ranking(m, order)
    ensures Enumerates(m, order) && Complete(m, order)
  {}

  // The hits come in order of falling score, equal scores in order of document id, and equal ids in
  // order of chunk number.
  predicate InOrder(a: Hit, b: Hit) {
    && a.score >= b.score
    && (a.score == b.score && a.documentId != b.documentId ==> Less(a.documentId, b.documentId))
    && (a.score == b.score && a.documentId == b.documentId ==> a.chunkNo <= b.chunkNo)
  }

  lemma AnswersAreOrdered(m: map<int, Hit>, limit: nat, hits: seq<Hit>)
    requires Answer(m, limit, hits)
    ensures forall i, j | 0 <= i < j < |hits| :: InOrder(hits[i], hits[j])
  {
    hide Before, Less, InOrder;
    var order :| Ranking(m, order) && hits == Truncate(limit, HitsAt(m, order));
    hide Ranking;
    forall i, j | 0 <= i < j < |hits|
      ensures InOrder(hits[i], hits[j])
    {
      RankedPair(m, order, i, j);
      NotBehind(hits[i], hits[j]);
    }
  }

  lemma RankedPair(m: map<int, Hit>, order: seq<int>, i: nat, j: nat)
    requires Ranking(m, order) && i < j < |order|
    ensures order[i] in m && order[j] in m && !Before(m[order[j]], m[order[i]])
  {
    hide Before;
  }

  lemma NotBehind(a: Hit, b: Hit)
    requires !Before(b, a)
    ensures InOrder(a, b)
  {
    LessTotal(a.documentId, b.documentId);
    hide Less;
  }

  // Without ties each hit strictly beats every hit behind it, so in particular no dropped hit beats
  // or equals a kept one.
  lemma StrictlyRanked(m: map<int, Hit>, order: seq<int>)
    requires Ranking(m, order) && NoTies(m)
    ensures forall i, j | 0 <= i < j < |order| :: order[i] in m && order[j] in m && Before(m[order[i]], m[order[j]])
  {
    hide Before, Tie;
    RankingEnumerates(m, order);
    forall i, j | 0 <= i < j < |order|
      ensures Before(m[order[i]], m[order[j]])
    {
      BeforeTrichotomy(m[order[i]], m[order[j]]);
    }
  }

  lemma {:induction false} DistinctLength(a: seq<int>, ids: set<int>)
    requires forall i, j | 0 <= i < j < |a| :: a[i] != a[j]
    requires forall id :: id in a <==> id in ids
    ensures |a| == |ids|
  {
    if a == [] {
      forall id
        ensures id !in ids
      {
        assert id !in a;
      }
      EmptySet(ids);
    } else {
      var n := |a| - 1;
      var init := a[..n];
      assert a == init + [a[n]];
      forall id
        ensures id in init <==> id in ids - {a[n]}
      {}
      DistinctLength(init, ids - {a[n]});
    }
  }

  lemma RankingLength(m: map<int, Hit>, a: seq<int>)
    requires Ranking(m, a)
    ensures |a| == |m|
  {
    DistinctLength(a, m.Keys);
  }

  // ---- A ranking always exists ----

  lemma {:induction false} PlaceFor(sorted: seq<Hit>, h: Hit, n: nat) returns (p: nat)
    requires NoneBehind(sorted) && n <= |sorted|
    requires forall j | n <= j < |sorted| :: Before(h, sorted[j])
    ensures p <= |sorted|
    ensures forall j | 0 <= j < p :: !Before(h, sorted[j])
    ensures forall j | p <= j < |sorted| :: Before(h, sorted[j])
  {
    hide Before;
    if n > 0 && Before(h, sorted[n - 1]) {
      p := PlaceFor(sorted, h, n - 1);
    } else {
      p := n;
      forall j | 0 <= j < p
        ensures !Before(h, sorted[j])
      {
        if j < p - 1 { NotBeforeTransitive(sorted[j], sorted[p - 1], h); }
      }
    }
  }

  lemma {:induction false} RankSome(m: map<int, Hit>, ids: set<int>) returns (order: seq<int>)
    requires ids <= m.Keys
    ensures Enumerates(m, order) && NoneBehind(HitsAt(m, order)) && forall id :: id in order <==> id in ids
    decreases |ids|
  {
    hide Before, NoneBehind, Inserted;
    if ids == {} {
      order := [];
      NothingRanked(m);
    } else {
      var id := Pick(ids);
      order := RankSome(m, ids - {id});
      var p := PlaceFor(HitsAt(m, order), m[id], |HitsAt(m, order)|);
      InsertKeepsOrdered(HitsAt(m, order), p, m[id]);
      InsertedIds(m, order, p, id);
      order := Inserted(order, p, id);
    }
  }

  lemma NothingRanked(m: map<int, Hit>)
    ensures Enumerates(m, []) && NoneBehind(HitsAt(m, []))
  {}

  lemma SomeRanking(m: map<int, Hit>) returns (order: seq<int>)
    ensures Ranking(m, order)
  {
    order := RankSome(m, m.Keys);
    hide Ranking;
    assert Complete(m, order);
    RankingOf(m, order);
  }

  function Swap(order: seq<int>, i: nat, j: nat): seq<int>
    requires i < |order| && j < |order|
  {
    order[i := order[j]][j := order[i]]
  }

  lemma TiesBeatAlike(a: Hit, b: Hit, h: Hit)
    requires Tie(a, b)
    ensures Before(a, h) <==> Before(b, h)
    ensures Before(h, a) <==> Before(h, b)
  {}

  // Exchanging two hits that tie gives another ranking.
  lemma SwapTied(m: map<int, Hit>, order: seq<int>, a: int, b: int) returns (other: seq<int>)
    requires Ranking(m, order) && a in m && b in m && a != b && Tie(m[a], m[b])
    ensures Ranking(m, other) && |other| == |order|
    ensures forall i | 0 <= i < |order| && order[i] == a :: other[i] == b
  {
    RankingEnumerates(m, order);
    var i := Place(order, a);
    var j := Place(order, b);
    other := Swap(order, i, j);
    SwapMembers(order, i, j);
    forall p, q | 0 <= p < q < |order|
      ensures other[p] != other[q] && !Before(m[other[q]], m[other[p]])
    {
      SwapPair(m, order, i, j, p, q);
    }
  }

  lemma SwapMembers(order: seq<int>, i: nat, j: nat)
    requires i < |order| && j < |order|
    ensures forall id :: id in Swap(order, i, j) <==> id in order
  {
    var other := Swap(order, i, j);
    forall id
      ensures id in other <==> id in order
    {
      if id in order {
        var p := Place(order, id);
        assert other[if p == i then j else if p == j then i else p] == id;
      }
      if id in other {
        var p := Place(other, id);
        assert order[if p == i then j else if p == j then i else p] == id;
      }
    }
  }

  lemma SwapPair(m: map<int, Hit>, order: seq<int>, i: nat, j: nat, p: nat, q: nat)
    requires Ranking(m, order) && Enumerates(m, order) && i < |order| && j < |order| && p < q < |order|
    requires order[i] in m && order[j] in m && Tie(m[order[i]], m[order[j]])
    ensures var other := Swap(order, i, j);
      && other[p] in m && other[q] in m && other[p] != other[q] && !Before(m[other[q]], m[other[p]])
  {
    var other := Swap(order, i, j);
    var x, y := other[p], other[q];
    // What stood at p and q before the exchange ties with what stands there now.
    assert (x == order[p] || Tie(m[x], m[order[p]])) && (y == order[q] || Tie(m[y], m[order[q]]));
    if x != order[p] { TiesBeatAlike(m[x], m[order[p]], m[y]); }
    if y != order[q] { TiesBeatAlike(m[y], m[order[q]], m[order[p]]); }
    assert !Before(m[order[q]], m[order[p]]);
    hide Before;
  }

  // Any hit that ties with the one at a position may stand there instead.
  lemma PutAt(m: map<int, Hit>, order: seq<int>, i: nat, a: int) returns (other: seq<int>)
    requires Ranking(m, order) && i < |order| && a in m && Tie(m[order[i]], m[a])
    ensures Ranking(m, other) && |other| == |order| && other[i] == a
  {
    RankingEnumerates(m, order);
    if order[i] == a {
      other := order;
    } else {
      other := SwapTied(m, order, order[i], a);
      var p := Place(order, order[i]);
    }
  }

  // ---- How many hits stand before a place ----

  // The rows whose hits beat h.
  function Better(m: map<int, Hit>, h: Hit): set<int> {
    set id | id in m && Before(m[id], h)
  }

  function FirstIds(order: seq<int>, n: nat): set<int>
    requires n <= |order|
  {
    set i | 0 <= i < n :: order[i]
  }

  lemma FirstIdsCount(order: seq<int>, n: nat)
    requires n <= |order| && forall i, j | 0 <= i < j < |order| :: order[i] != order[j]
    ensures |FirstIds(order, n)| == n
  {
    var a := order[..n];
    forall id
      ensures id in a <==> id in FirstIds(order, n)
    {
      if id in a { var p := Place(a, id); }
    }
    DistinctLength(a, FirstIds(order, n));
  }

  lemma SubsetCount<T>(a: set<T>, b: set<T>)
    requires a <= b
    ensures |a| <= |b|
  {
    assert b == a + (b - a);
  }

  // Whatever beats the hit at position i stands before it.
  lemma BetterBefore(m: map<int, Hit>, order: seq<int>, i: nat)
    requires Ranking(m, order) && i < |order|
    ensures order[i] in m && |Better(m, m[order[i]])| <= i
  {
    hide Before;
    RankingEnumerates(m, order);
    var h := m[order[i]];
    BeforeTrichotomy(h, h);
    forall id | id in Better(m, h)
      ensures id in FirstIds(order, i)
    {
      var p := Place(order, id);
      assert p >= i ==> p == i;
      assert FirstIds(order, i) == set q | 0 <= q < i :: order[q];
    }
    FirstIdsCount(order, i);
    SubsetCount(Better(m, h), FirstIds(order, i));
  }

  // Whatever the hit at position i beats is beaten by all that stand up to there.
  lemma BeatenByAll(m: map<int, Hit>, order: seq<int>, i: nat, h: Hit)
    requires Ranking(m, order) && i < |order|
    requires order[i] in m && Before(m[order[i]], h)
    ensures |Better(m, h)| >= i + 1
  {
    RankingEnumerates(m, order);
    hide Before;
    forall id | id in FirstIds(order, i + 1)
      ensures id in Better(m, h)
    {
      var p: nat :| p < i + 1 && order[p] == id;
      NotBehindBeats(m[order[p]], m[order[i]], h);
    }
    FirstIdsCount(order, i + 1);
    SubsetCount(FirstIds(order, i + 1), Better(m, h));
  }

  lemma NotBehindBeats(a: Hit, b: Hit, h: Hit)
    requires Before(b, h) && (a == b || !Before(b, a))
    ensures Before(a, h)
  {
    BeforeTrichotomy(a, b);
    if Before(a, b) { BeforeTransitive(a, b, h); }
  }

  // The hits at one position of two rankings tie.
  lemma SamePlaceTies(m: map<int, Hit>, a: seq<int>, b: seq<int>, i: nat)
    requires Ranking(m, a) && Ranking(m, b) && i < |a| && i < |b|
    ensures a[i] in m && b[i] in m && Tie(m[a[i]], m[b[i]])
  {
    BetterBefore(m, a, i);
    BetterBefore(m, b, i);
    var x, y := m[a[i]], m[b[i]];
    BeforeTrichotomy(x, y);
    hide Ranking, Better, Before;
    if Before(x, y) { BeatenByAll(m, a, i, y); }
    if Before(y, x) { BeatenByAll(m, b, i, x); }
  }

  // ---- One answer, exactly ----

  // If the two tie but differ, at least `limit` others beat them, so neither is returned.
  predicate TieBeyond(m: map<int, Hit>, limit: nat, g: Hit, h: Hit) {
    Tie(g, h) && g != h ==> |Better(m, g)| >= limit
  }

  ghost predicate TiesBeyond(m: map<int, Hit>, limit: nat) {
    forall a, b | a in m && b in m :: TieBeyond(m, limit, m[a], m[b])
  }

  lemma SamePlaceSameHit(m: map<int, Hit>, limit: nat, a: seq<int>, b: seq<int>, i: nat)
    requires TiesBeyond(m, limit) && Ranking(m, a) && Ranking(m, b) && i < |a| && i < |b| && i < limit
    ensures a[i] in m && b[i] in m && m[a[i]] == m[b[i]]
  {
    SamePlaceTies(m, a, b, i);
    BetterBefore(m, a, i);
    var x, y := a[i], b[i];
    assert x in m && y in m;
    assert TieBeyond(m, limit, m[x], m[y]);
    hide Ranking, Better, Tie;
  }

  lemma OneAnswerWhen(m: map<int, Hit>, limit: nat, r: seq<Hit>, s: seq<Hit>)
    requires TiesBeyond(m, limit) && Answer(m, limit, r) && Answer(m, limit, s)
    ensures r == s
  {
    hide TiesBeyond;
    var a :| Ranking(m, a) && r == Truncate(limit, HitsAt(m, a));
    var b :| Ranking(m, b) && s == Truncate(limit, HitsAt(m, b));
    RankingLength(m, a);
    RankingLength(m, b);
    hide Ranking;
    forall i | 0 <= i < |r|
      ensures r[i] == s[i]
    {
      SamePlaceSameHit(m, limit, a, b, i);
    }
  }

  // Where a hit may stand: right behind those that beat it.
  lemma FirstPlace(m: map<int, Hit>, a: int) returns (order: seq<int>)
    requires a in m
    ensures Ranking(m, order) && |Better(m, m[a])| < |order| && order[|Better(m, m[a])|] == a
  {
    hide Tie, Before;
    var some := SomeRanking(m);
    RankingEnumerates(m, some);
    var p := Place(some, a);
    BetterBefore(m, some, p);
    var i := |Better(m, m[a])|;
    BeforeTrichotomy(m[a], m[some[i]]);
    if Before(m[some[i]], m[a]) {
      BeatenByAll(m, some, i, m[a]);
    }
    TieSymmetric(m[a], m[some[i]]);
    order := PutAt(m, some, i, a);
  }

  lemma TieSymmetric(a: Hit, b: Hit)
    ensures Tie(a, b) <==> Tie(b, a)
    ensures a == b ==> Tie(a, b)
  {}

  lemma TiesBeatenAlike(m: map<int, Hit>, a: Hit, b: Hit)
    requires Tie(a, b)
    ensures Better(m, a) == Better(m, b)
  {
    forall id | id in m
      ensures Before(m[id], a) <==> Before(m[id], b)
    {
      TiesBeatAlike(a, b, m[id]);
    }
    hide Before;
  }

  // Two hits that tie and differ, with room for one of them: either may be returned.
  lemma TwoAnswers(m: map<int, Hit>, limit: nat, a: int, b: int) returns (r: seq<Hit>, s: seq<Hit>)
    requires a in m && b in m && Tie(m[a], m[b]) && m[a] != m[b] && |Better(m, m[a])| < limit
    ensures Answer(m, limit, r) && Answer(m, limit, s) && r != s
  {
    TiesBeatenAlike(m, m[a], m[b]);
    var i := |Better(m, m[a])|;
    var x := FirstPlace(m, a);
    var y := FirstPlace(m, b);
    RankingEnumerates(m, x);
    RankingEnumerates(m, y);
    hide Tie, Ranking, Better;
    r := Truncate(limit, HitsAt(m, x));
    s := Truncate(limit, HitsAt(m, y));
    assert r[i] == m[a] && s[i] == m[b];
  }

  // A search returns the same hits for every iteration order of the map and every unstable sort
  // exactly when hits that tie but differ all stand behind at least `limit` others.
  lemma OneAnswerExactly(m: map<int, Hit>, limit: nat)
    ensures (forall r, s | Answer(m, limit, r) && Answer(m, limit, s) :: r == s) <==> TiesBeyond(m, limit)
  {
    hide Answer, Better, Tie;
    if TiesBeyond(m, limit) {
      forall r, s | Answer(m, limit, r) && Answer(m, limit, s)
        ensures r == s
      {
        OneAnswerWhen(m, limit, r, s);
      }
    } else {
      var a, b :| a in m && b in m && !TieBeyond(m, limit, m[a], m[b]);
      var r, s := TwoAnswers(m, limit, a, b);
    }
  }

  lemma OneAnswer(m: map<int, Hit>, limit: nat, r: seq<Hit>, s: seq<Hit>)
    requires NoTies(m) && Answer(m, limit, r) && Answer(m, limit, s)
    ensures r == s
  {
    assert TiesBeyond(m, limit) by {
      hide Tie, Better;
    }
    hide TiesBeyond, NoTies, Answer;
    OneAnswerWhen(m, limit, r, s);
  }

  // ---- Why there are no ties ----

  // The list holds rows of one collection as the tables have them.
  predicate ReadFrom(db: Tables, collection: string, l: seq<Candidate>) {
    forall i | 0 <= i < |l| ::
      && l[i].id in db.chunks
      && db.chunks[l[i].id].collection == collection
      && db.chunks[l[i].id].externalId == l[i].documentId
      && db.chunks[l[i].id].piece.ordinal == l[i].chunkNo
  }

  lemma MergedRow(db: Tables, collection: string, keyword: seq<Candidate>, vector: seq<Candidate>, constant: int, id: int)
    requires ReadFrom(db, collection, keyword) && ReadFrom(db, collection, vector) && id in Ids(keyword) + Ids(vector)
    ensures var h := Merged(keyword, vector, constant, id);
      && id in db.chunks && db.chunks[id].collection == collection
      && db.chunks[id].externalId == h.documentId && db.chunks[id].piece.ordinal == h.chunkNo
  {
    hide Score;
  }

  // When both branches read the same committed tables, (document, chunk number) is unique among
  // their rows, so nothing ties and the answer is one.
  lemma OneSnapshotNoTies(db: Tables, collection: string, keyword: seq<Candidate>, vector: seq<Candidate>, constant: int)
    requires Consistent(db) && ReadFrom(db, collection, keyword) && ReadFrom(db, collection, vector)
    ensures NoTies(MergedMap(keyword, vector, constant))
  {
    hide Merged, ReadFrom, Consistent, Ids;
    var m := MergedMap(keyword, vector, constant);
    forall a, b | a in m && b in m && a != b
      ensures !Tie(m[a], m[b])
    {
      MergedRow(db, collection, keyword, vector, constant, a);
      MergedRow(db, collection, keyword, vector, constant, b);
      ConsistentHasNoClash(db, a, b);
    }
  }

  // A search whose branches read one committed state has one answer, whatever the map and the sort do.
  lemma SearchIsDeterministic(db: Tables, collection: string, keyword: seq<Candidate>, vector: seq<Candidate>,
                              constant: int, limit: nat, r: seq<Hit>, s: seq<Hit>)
    requires Consistent(db) && ReadFrom(db, collection, keyword) && ReadFrom(db, collection, vector)
    requires Answer(MergedMap(keyword, vector, constant), limit, r)
    requires Answer(MergedMap(keyword, vector, constant), limit, s)
    ensures r == s
  {
    hide *;
    OneSnapshotNoTies(db, collection, keyword, vector, constant);
    OneAnswer(MergedMap(keyword, vector, constant), limit, r, s);
  }

  // One document of one chunk: as first stored, under chunk id 10, and as a reindex at stamp 1 leaves
  // it, under chunk id 11.
  function OneChunk(chunkId: int, at: Stamp): Tables {
    var meta := Meta("", "", [], "{}");
    Tables(map[1 := DocRow(Key("kb", "d"), meta, "h", 1, 0, at)],
           map[chunkId := ChunkRow("kb", 1, "d", ChunkKey("d", 0), Piece(0, "text", []), meta, at, at)])
  }

  const STORED: Tables := OneChunk(10, 0)
  const REINDEXED: Tables := OneChunk(11, 1)

  lemma OneChunkConsistent(chunkId: int, at: Stamp)
    ensures Consistent(OneChunk(chunkId, at))
    ensures ReadFrom(OneChunk(chunkId, at), "kb", [Candidate(chunkId, "d", 0, "", "", 1.0)])
  {
    var db := OneChunk(chunkId, at);
    hide ChunkKey;
    assert ChunksOf(db, 1) == db.chunks;
    assert |db.chunks| == 1;
    assert DocumentWhole(db, 1);
  }

  // The second table is what a transaction at stamp 1 that rebuilds the document commits.
  lemma ReindexedIsOne()
    ensures var row := STORED.docs[1].(updatedAt := 1);
      && REINDEXED.docs == STORED.docs[1 := row]
      && REINDEXED.chunks.Keys !! STORED.chunks.Keys
      && Pieces(ChunksOf(REINDEXED, 1)) == Pieces(ChunksOf(STORED, 1))
  {
    hide ChunkKey;
    assert ChunksOf(STORED, 1) == STORED.chunks && ChunksOf(REINDEXED, 1) == REINDEXED.chunks;
    var p := Piece(0, "text", []);
    assert Pieces(STORED.chunks) == {p} by { assert 10 in STORED.chunks; }
    assert Pieces(REINDEXED.chunks) == {p} by { assert 11 in REINDEXED.chunks; }
  }

  // The two branches are two statements. A reindex that commits between them gives a document's
  // chunks new ids, and the merge then holds the same chunk twice: with equal ranks the two tie, and
  // at any limit but zero either may be returned first.
  lemma ReindexBetweenBranchesTies(constant: int, limit: nat) returns (r: seq<Hit>, s: seq<Hit>)
    requires limit > 0
    ensures var k := [Candidate(10, "d", 0, "", "", 1.0)];
      var v := [Candidate(11, "d", 0, "", "", 1.0)];
      && Consistent(STORED) && ReadFrom(STORED, "kb", k)
      && Consistent(REINDEXED) && ReadFrom(REINDEXED, "kb", v)
      && Answer(MergedMap(k, v, constant), limit, r) && Answer(MergedMap(k, v, constant), limit, s) && r != s
  {
    OneChunkConsistent(10, 0);
    OneChunkConsistent(11, 1);
    hide Consistent, ReadFrom, OneChunk;
    var k, v := Candidate(10, "d", 0, "", "", 1.0), Candidate(11, "d", 0, "", "", 1.0);
    SameRankTies(k, v, constant);
    hide *;
    r, s := TwoAnswers(MergedMap([k], [v], constant), limit, 10, 11);
  }

  lemma SameRankTies(first: Candidate, second: Candidate, constant: int)
    requires first.id != second.id && first.documentId == second.documentId && first.chunkNo == second.chunkNo
    requires first.score > 0.0
    ensures var m := MergedMap([first], [second], constant);
      && first.id in m && second.id in m
      && Tie(m[first.id], m[second.id]) && m[first.id] != m[second.id] && Better(m, m[first.id]) == {}
  {
    var m := MergedMap([first], [second], constant);
    assert [first][0].id == first.id && [second][0].id == second.id;
    assert first.id in m && second.id in m;
    assert [first][..0] == [] && [second][..0] == [];
    NoIds();
    assert Tie(m[first.id], m[second.id]);
    hide ReciprocalRank;
    var h := m[first.id];
    BeforeTrichotomy(h, h);
    BeforeTrichotomy(m[second.id], h);
    hide Before;
    assert forall id | id in m :: id == first.id || id == second.id;
    assert forall id :: id !in Better(m, h);
  }
}
