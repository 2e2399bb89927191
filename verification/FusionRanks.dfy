/** What the fused score ranks first. */
module FusionRanks {
  import opened Sequences
  import opened Configuration
  import opened Fusion
  import opened FusionLaws

  // ---- Reciprocals ----

  function Recip(x: int): (r: real)
    requires x > 0
    ensures r > 0.0 && r * x as real == 1.0
  {
    1.0 / x as real
  }

  lemma ProductLess(p: real, q: real, a: real, b: real)
    requires p > 0.0 && q > 0.0 && 0.0 < a < b && p * a == q * b
    ensures p > q
  {
    assert q * (b - a) > 0.0;
    assert (p - q) * a == q * (b - a);
    SignOfProduct(p - q, a);
  }

  lemma RecipLess(x: int, y: int)
    requires 0 < x < y
    ensures Recip(x) > Recip(y)
  {
    ProductLess(Recip(x), Recip(y), x as real, y as real);
  }

  lemma SignOfProduct(u: real, v: real)
    requires v > 0.0
    ensures u * v > 0.0 <==> u > 0.0
  {
    if u <= 0.0 { assert u * v <= 0.0; }
  }

  lemma CrossMultiply(p: real, q: real, a: real, b: real)
    requires a > 0.0 && b > 0.0 && p * a == 1.0 && q * b == 1.0
    ensures 2.0 * p > q <==> a < 2.0 * b
  {
    calc {
      (2.0 * p - q) * (a * b);
      2.0 * (p * a) * b - (q * b) * a;
      2.0 * b - a;
    }
    assert a * b > 0.0;
    SignOfProduct(2.0 * p - q, a * b);
  }

  // Two of the one against one of the other.
  lemma TwiceRecip(x: int, y: int)
    requires x > 0 && y > 0
    ensures 2.0 * Recip(x) > Recip(y) <==> x < 2 * y
  {
    CrossMultiply(Recip(x), Recip(y), x as real, y as real);
    hide Recip;
    assert (2 * y) as real == 2.0 * y as real;
  }

  lemma RankIsRecip(rank: int, constant: int)
    requires rank > 0
    ensures ReciprocalRank(rank, constant) == Recip(Effective(constant) + rank)
  {}

  lemma BetterRank(a: int, b: int, constant: int)
    requires 0 < a < b
    ensures ReciprocalRank(a, constant) > ReciprocalRank(b, constant)
  {
    RankIsRecip(a, constant);
    RankIsRecip(b, constant);
    var c := Effective(constant);
    RecipLess(c + a, c + b);
  }

  // ---- Both branches against one ----

  predicate FoundByBoth(keyword: seq<Candidate>, vector: seq<Candidate>, id: int) {
    id in Ids(keyword) && id in Ids(vector)
  }

  predicate FoundByOne(keyword: seq<Candidate>, vector: seq<Candidate>, id: int) {
    (id in Ids(keyword)) != (id in Ids(vector))
  }

  // Every row found by both branches ranks strictly above every row found by one.
  ghost predicate Dominates(keyword: seq<Candidate>, vector: seq<Candidate>, constant: int) {
    forall a, b | FoundByBoth(keyword, vector, a) && FoundByOne(keyword, vector, b) ::
      Score(keyword, vector, constant, a) > Score(keyword, vector, constant, b)
  }

  ghost predicate DominatesUpTo(n: nat, constant: int) {
    forall k, v | DistinctIds(k) && DistinctIds(v) && |k| <= n && |v| <= n :: Dominates(k, v, constant)
  }

  // The worst hit of both branches against the best hit of one.
  lemma WorstOfBoth(r: int, s: int, t: int, n: int, constant: int)
    requires 1 <= r <= n && 1 <= s <= n && 1 <= t && n <= Effective(constant) + 1
    ensures ReciprocalRank(r, constant) + ReciprocalRank(s, constant) > ReciprocalRank(t, constant)
  {
    if r < n { BetterRank(r, n, constant); }
    if s < n { BetterRank(s, n, constant); }
    if t > 1 { BetterRank(1, t, constant); }
    RankIsRecip(n, constant);
    RankIsRecip(1, constant);
    TwiceRecip(Effective(constant) + n, Effective(constant) + 1);
    hide ReciprocalRank;
  }

  lemma ShortListsDominate(keyword: seq<Candidate>, vector: seq<Candidate>, n: nat, constant: int)
    requires |keyword| <= n && |vector| <= n && n <= Effective(constant) + 1
    ensures Dominates(keyword, vector, constant)
  {
    forall a, b | FoundByBoth(keyword, vector, a) && FoundByOne(keyword, vector, b)
      ensures Score(keyword, vector, constant, a) > Score(keyword, vector, constant, b)
    {
      var t := if b in Ids(keyword) then RankIn(keyword, b) else RankIn(vector, b);
      WorstOfBoth(RankIn(keyword, a), RankIn(vector, a), t, n, constant);
      NoReciprocal(constant);
      hide Ids, ReciprocalRank;
    }
  }

  // A list of n rows numbered from `first`, the last of them given.
  function Row(id: int): Candidate {
    Candidate(id, "", 0, "", "", 0.0)
  }

  function Rows(first: int, n: nat, last: int): seq<Candidate>
    requires n > 0
  {
    seq(n, i requires 0 <= i < n => Row(if i == n - 1 then last else first + i))
  }

  lemma RowsAt(first: int, n: nat, last: int)
    requires n > 0 && (last < first || last == first + n - 1)
    ensures DistinctIds(Rows(first, n, last)) && |Rows(first, n, last)| == n
    ensures forall i | 0 <= i < n :: Rows(first, n, last)[i].id == if i == n - 1 then last else first + i
  {
    var l := Rows(first, n, last);
    forall i | 0 <= i < n
      ensures l[i].id == if i == n - 1 then last else first + i
    {
      assert l[i] == Row(if i == n - 1 then last else first + i);
    }
  }

  lemma {:induction false} RankAt(l: seq<Candidate>, i: nat)
    requires DistinctIds(l) && i < |l|
    ensures RankIn(l, l[i].id) == i + 1
  {
    var n := |l| - 1;
    if i < n {
      RankAt(l[..n], i);
    }
  }

  // Row 0 leads one list only; the row both lists share is last in each.
  lemma LongListsFail(n: nat, constant: int)
    requires n >= Effective(constant) + 2
    ensures !DominatesUpTo(n, constant)
  {
    var k := Rows(0, n, n - 1);
    var v := Rows(n, n, n - 1);
    RowsAt(0, n, n - 1);
    RowsAt(n, n, n - 1);
    hide Rows;
    RankAt(k, n - 1);
    RankAt(v, n - 1);
    RankAt(k, 0);
    assert k[n - 1].id in Ids(k) && v[n - 1].id in Ids(v) && k[0].id in Ids(k);
    assert 0 !in Ids(v);
    assert FoundByBoth(k, v, n - 1) && FoundByOne(k, v, 0);
    LastLoses(n, constant);
    NoReciprocal(constant);
    hide Ids, ReciprocalRank;
    assert Score(k, v, constant, n - 1) <= Score(k, v, constant, 0);
    assert !Dominates(k, v, constant);
  }

  lemma LastLoses(n: nat, constant: int)
    requires n >= Effective(constant) + 2
    ensures ReciprocalRank(n, constant) + ReciprocalRank(n, constant) <= ReciprocalRank(1, constant)
  {
    RankIsRecip(n, constant);
    RankIsRecip(1, constant);
    TwiceRecip(Effective(constant) + n, Effective(constant) + 1);
    hide ReciprocalRank;
  }

  // With candidate lists of at most n rows, being found by both branches always wins exactly when n
  // is at most one more than the fusion constant in force. The defaults, 20 and 60, are well inside.
  lemma DominanceExactly(n: nat, constant: int)
    ensures DominatesUpTo(n, constant) <==> n <= Effective(constant) + 1
  {
    hide Dominates;
    if n <= Effective(constant) + 1 {
      forall k, v | DistinctIds(k) && DistinctIds(v) && |k| <= n && |v| <= n
        ensures Dominates(k, v, constant)
      {
        ShortListsDominate(k, v, n, constant);
      }
    } else {
      LongListsFail(n, constant);
    }
  }

  // A store opened with neither limit set has that property: no search of its own can ask for more
  // candidates than its limit unless the request says so.
  lemma DefaultsDominate(c: Config, r: SearchRequest)
    requires Opens(c) && c.candidateLimit <= 0 && c.rrfConstant <= 0 && r.candidateLimit <= 0
    ensures DominatesUpTo(NormalizeSearch(Normalized(c), r).candidateLimit, Normalized(c).rrfConstant)
  {
    DominanceExactly(NormalizeSearch(Normalized(c), r).candidateLimit, Normalized(c).rrfConstant);
  }

  // A dominating hit stands ahead of a dominated one in every answer.
  lemma BothAheadOfOne(keyword: seq<Candidate>, vector: seq<Candidate>, constant: int, order: seq<int>, i: nat, j: nat)
    requires |keyword| <= Effective(constant) + 1 && |vector| <= Effective(constant) + 1
    requires Ranking(MergedMap(keyword, vector, constant), order) && i < |order| && j < |order|
    requires FoundByBoth(keyword, vector, order[i]) && FoundByOne(keyword, vector, order[j])
    ensures i < j
  {
    ShortListsDominate(keyword, vector, Effective(constant) + 1, constant);
    var m := MergedMap(keyword, vector, constant);
    RankingEnumerates(m, order);
    hide Ids, Score, RankIn;
    assert m[order[i]].score > m[order[j]].score;
    assert Before(m[order[i]], m[order[j]]);
  }

  // ---- One branch ----

  function IdList(l: seq<Candidate>): seq<int> {
    seq(|l|, i requires 0 <= i < |l| => l[i].id)
  }

  // What a branch on its own returns: each hit with the reciprocal of its rank.
  function Alone(l: seq<Candidate>, constant: int, keyword: bool): seq<Hit> {
    seq(|l|, i requires 0 <= i < |l| => NewHit(l[i], i + 1, constant, keyword))
  }

  lemma AloneKeyword(l: seq<Candidate>, constant: int, i: nat)
    requires DistinctIds(l) && i < |l|
    ensures l[i].id in Ids(l) && Merged(l, [], constant, l[i].id) == NewHit(l[i], i + 1, constant, true)
  {
    RankAt(l, i);
    NoReciprocal(constant);
    NoIds();
    hide ReciprocalRank;
  }

  lemma AloneVector(l: seq<Candidate>, constant: int, i: nat)
    requires DistinctIds(l) && i < |l|
    ensures l[i].id in Ids(l) && Merged([], l, constant, l[i].id) == NewHit(l[i], i + 1, constant, false)
  {
    RankAt(l, i);
    NoReciprocal(constant);
    NoIds();
    hide ReciprocalRank;
  }

  lemma HigherScore(a: Hit, b: Hit)
    requires a.score > b.score
    ensures Before(a, b) && !Before(b, a) && !Tie(a, b) && !Tie(b, a)
  {}

  lemma AloneOrder(l: seq<Candidate>, constant: int, keyword: bool, m: map<int, Hit>)
    requires DistinctIds(l) && m.Keys == Ids(l)
    requires forall i | 0 <= i < |l| :: l[i].id in m && m[l[i].id] == NewHit(l[i], i + 1, constant, keyword)
    ensures NoTies(m) && Ranking(m, IdList(l)) && HitsAt(m, IdList(l)) == Alone(l, constant, keyword)
  {
    forall i, j | 0 <= i < j < |l|
      ensures Before(m[l[i].id], m[l[j].id]) && !Before(m[l[j].id], m[l[i].id])
      ensures !Tie(m[l[i].id], m[l[j].id]) && !Tie(m[l[j].id], m[l[i].id])
    {
      BetterRank(i + 1, j + 1, constant);
      HigherScore(m[l[i].id], m[l[j].id]);
    }
    hide Before, Tie, NewHit;
    forall id
      ensures id in IdList(l) <==> id in m
    {
      if id in m {
        var i :| 0 <= i < |l| && l[i].id == id;
        assert IdList(l)[i] == id;
      }
    }
  }

  // In keyword-only mode the answer is exactly the branch's first `limit` hits, in its order.
  lemma KeywordOnlyAnswer(l: seq<Candidate>, constant: int, limit: nat, hits: seq<Hit>)
    requires DistinctIds(l)
    ensures Answer(MergedMap(l, [], constant), limit, hits) <==> hits == Truncate(limit, Alone(l, constant, true))
  {
    var m := MergedMap(l, [], constant);
    NoIds();
    forall i | 0 <= i < |l|
      ensures l[i].id in m && m[l[i].id] == NewHit(l[i], i + 1, constant, true)
    {
      AloneKeyword(l, constant, i);
    }
    hide MergedMap;
    AloneOrder(l, constant, true, m);
    OnlyAnswer(m, limit, IdList(l), hits);
  }

  lemma VectorOnlyAnswer(l: seq<Candidate>, constant: int, limit: nat, hits: seq<Hit>)
    requires DistinctIds(l)
    ensures Answer(MergedMap([], l, constant), limit, hits) <==> hits == Truncate(limit, Alone(l, constant, false))
  {
    var m := MergedMap([], l, constant);
    NoIds();
    forall i | 0 <= i < |l|
      ensures l[i].id in m && m[l[i].id] == NewHit(l[i], i + 1, constant, false)
    {
      AloneVector(l, constant, i);
    }
    hide MergedMap;
    AloneOrder(l, constant, false, m);
    OnlyAnswer(m, limit, IdList(l), hits);
  }

  lemma OnlyAnswer(m: map<int, Hit>, limit: nat, order: seq<int>, hits: seq<Hit>)
    requires NoTies(m) && Ranking(m, order)
    ensures Enumerates(m, order)
    ensures Answer(m, limit, hits) <==> hits == Truncate(limit, HitsAt(m, order))
  {
    RankingEnumerates(m, order);
    hide NoTies, Ranking, Enumerates, HitsAt;
    if Answer(m, limit, hits) {
      OneAnswer(m, limit, hits, Truncate(limit, HitsAt(m, order)));
    }
  }
}
