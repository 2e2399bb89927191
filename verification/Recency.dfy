/**
What the query-embedding cache holds, as a value: a list of entries, most recently touched first.
The laws relate every run of the cache to the history of touches, and caches of different
capacities to each other.
*/
module Recency {
  import opened Embedding
  import opened Sequences

  datatype Cached = Cached(key: string, vector: Vector)

  type Entries = seq<Cached>

  function Keys(c: Entries): (ks: seq<string>)
    ensures |ks| == |c|
  {
    seq(|c|, i requires 0 <= i < |c| => c[i].key)
  }

  predicate Distinct(ks: seq<string>) {
    forall i, j | 0 <= i < j < |ks| :: ks[i] != ks[j]
  }

  // Where a key is, or the length if it is not there.
  function IndexOf(ks: seq<string>, k: string): (i: nat)
    ensures i <= |ks| && (i < |ks| ==> ks[i] == k)
    ensures forall j | 0 <= j < i :: ks[j] != k
  {
    if ks == [] || ks[0] == k then 0 else 1 + IndexOf(ks[1..], k)
  }

  predicate Has(c: Entries, k: string) {
    k in Keys(c)
  }

  function VectorOf(c: Entries, k: string): Vector
    requires Has(c, k)
  {
    c[IndexOf(Keys(c), k)].vector
  }

  // The key at the front, wherever it was before.
  function MoveUp(ks: seq<string>, k: string): seq<string> {
    var i := IndexOf(ks, k);
    if i < |ks| then [k] + ks[..i] + ks[i + 1..] else [k] + ks
  }

  function MoveUpEntry(c: Entries, e: Cached): Entries {
    var i := IndexOf(Keys(c), e.key);
    if i < |c| then [e] + c[..i] + c[i + 1..] else [e] + c
  }

  // ---- Runs ----

  datatype Op = Get(key: string) | Put(key: string, vector: Vector)

  function AfterGet(c: Entries, k: string): Entries {
    if Has(c, k) then MoveUpEntry(c, Cached(k, VectorOf(c, k))) else c
  }

  function AfterPut(capacity: nat, c: Entries, k: string, v: Vector): Entries {
    Truncate(capacity, MoveUpEntry(c, Cached(k, v)))
  }

  function Exec(capacity: nat, c: Entries, op: Op): Entries {
    match op
    case Get(k) => AfterGet(c, k)
    case Put(k, v) => AfterPut(capacity, c, k, v)
  }

  function Run(capacity: nat, ops: seq<Op>): Entries {
    if ops == [] then [] else Exec(capacity, Run(capacity, ops[..|ops| - 1]), ops[|ops| - 1])
  }

  // ---- The history of touches ----

  // A put, or a get that hit.
  datatype Touch = Looked(key: string) | Stored(key: string, vector: Vector)

  function TouchOf(c: Entries, op: Op): seq<Touch> {
    match op
    case Get(k) => if Has(c, k) then [Looked(k)] else []
    case Put(k, v) => [Stored(k, v)]
  }

  function Touches(capacity: nat, ops: seq<Op>): seq<Touch> {
    if ops == [] then []
    else
      var n := |ops| - 1;
      Touches(capacity, ops[..n]) + TouchOf(Run(capacity, ops[..n]), ops[n])
  }

  // The index of the last touch of a key, or the length if there is none.
  function LastTouch(ts: seq<Touch>, k: string): (i: nat)
    ensures i <= |ts| && (i < |ts| ==> ts[i].key == k)
    ensures i < |ts| ==> forall j | i < j < |ts| :: ts[j].key != k
    ensures i == |ts| ==> forall j | 0 <= j < |ts| :: ts[j].key != k
  {
    if ts == [] then 0
    else
      var n := |ts| - 1;
      if ts[n].key == k then n
      else
        var i := LastTouch(ts[..n], k);
        if i == n then |ts| else i
  }

  // v is the vector of the last put of k.
  predicate LastStored(ts: seq<Touch>, k: string, v: Vector) {
    exists i | 0 <= i < |ts| ::
      ts[i] == Stored(k, v) && forall j | i < j < |ts| :: !(ts[j].Stored? && ts[j].key == k)
  }

  // All keys ever touched, the one touched last first.
  function Recent(ts: seq<Touch>): seq<string> {
    if ts == [] then [] else MoveUp(Recent(ts[..|ts| - 1]), ts[|ts| - 1].key)
  }

  // Recent is what it says: each touched key once, in decreasing order of last touch.
  predicate OrderedByLastTouch(ts: seq<Touch>, ks: seq<string>) {
    && Distinct(ks)
    && (forall k | k in ks :: LastTouch(ts, k) < |ts|)
    && (forall i | 0 <= i < |ts| :: ts[i].key in ks)
    && (forall i, j | 0 <= i < j < |ks| :: LastTouch(ts, ks[i]) > LastTouch(ts, ks[j]))
  }

  // Where element i of the moved list was.
  function Was(ks: seq<string>, k: string, i: int): int {
    if i - 1 < IndexOf(ks, k) then i - 1 else i
  }

  lemma MoveUpAt(ks: seq<string>, k: string, i: nat)
    requires 1 <= i < |MoveUp(ks, k)|
    ensures 0 <= Was(ks, k, i) < |ks| && ks[Was(ks, k, i)] == MoveUp(ks, k)[i]
  {}

  lemma MoveUpOthers(ks: seq<string>, k: string)
    requires Distinct(ks)
    ensures Distinct(MoveUp(ks, k)) && MoveUp(ks, k)[0] == k
    ensures forall i | 1 <= i < |MoveUp(ks, k)| :: MoveUp(ks, k)[i] in ks && MoveUp(ks, k)[i] != k
  {
    var up := MoveUp(ks, k);
    assert up[0] == k;
    forall i | 1 <= i < |up|
      ensures 0 <= Was(ks, k, i) < |ks| && ks[Was(ks, k, i)] == up[i] && Was(ks, k, i) != IndexOf(ks, k)
    {
      MoveUpAt(ks, k, i);
    }
    hide MoveUp;
  }

  lemma MoveUpHas(ks: seq<string>, k: string, x: string)
    ensures x in MoveUp(ks, k) <==> x in ks || x == k
  {
    var i := IndexOf(ks, k);
    assert i < |ks| ==> ks == ks[..i] + [k] + ks[i + 1..];
  }

  lemma MoveUpFacts(ks: seq<string>, k: string)
    requires Distinct(ks)
    ensures Distinct(MoveUp(ks, k)) && MoveUp(ks, k)[0] == k
    ensures forall x :: x in MoveUp(ks, k) <==> x in ks || x == k
    ensures forall i | 1 <= i < |MoveUp(ks, k)| :: MoveUp(ks, k)[i] in ks && MoveUp(ks, k)[i] != k
  {
    hide *;
    MoveUpOthers(ks, k);
    forall x
      ensures x in MoveUp(ks, k) <==> x in ks || x == k
    {
      MoveUpHas(ks, k, x);
    }
  }

  // Moving a key up keeps the order of the others.
  lemma MoveUpOrder(ks: seq<string>, k: string, i: nat, j: nat)
    requires 1 <= i < j < |MoveUp(ks, k)|
    ensures exists a, b | 0 <= a < b < |ks| :: ks[a] == MoveUp(ks, k)[i] && ks[b] == MoveUp(ks, k)[j]
  {
    MoveUpAt(ks, k, i);
    MoveUpAt(ks, k, j);
    hide MoveUp, IndexOf;
    assert Was(ks, k, i) < Was(ks, k, j);
  }

  lemma LastTouchSnoc(ts: seq<Touch>, t: Touch, k: string)
    ensures k == t.key ==> LastTouch(ts + [t], k) == |ts|
    ensures k != t.key && LastTouch(ts, k) < |ts| ==> LastTouch(ts + [t], k) == LastTouch(ts, k)
  {
    assert (ts + [t])[..|ts|] == ts;
  }

  lemma {:induction false} RecentOrder(ts: seq<Touch>)
    ensures OrderedByLastTouch(ts, Recent(ts))
  {
    if ts != [] {
      var n := |ts| - 1;
      RecentOrder(ts[..n]);
      assert ts == ts[..n] + [ts[n]];
      OrderSnoc(ts[..n], Recent(ts[..n]), ts[n]);
    }
  }

  lemma OrderSnoc(ts: seq<Touch>, ks: seq<string>, t: Touch)
    requires OrderedByLastTouch(ts, ks)
    ensures OrderedByLastTouch(ts + [t], MoveUp(ks, t.key))
  {
    hide MoveUp, LastTouch, Was;
    var up := MoveUp(ks, t.key);
    MoveUpFacts(ks, t.key);
    forall k | k in up
      ensures LastTouch(ts + [t], k) < |ts + [t]|
    {
      LastTouchSnoc(ts, t, k);
    }
    forall i, j | 0 <= i < j < |up|
      ensures LastTouch(ts + [t], up[i]) > LastTouch(ts + [t], up[j])
    {
      LastTouchSnoc(ts, t, up[i]);
      LastTouchSnoc(ts, t, up[j]);
      if i > 0 {
        MoveUpOrder(ks, t.key, i, j);
      }
    }
  }

  lemma TouchedIn(ts: seq<Touch>, a: seq<string>, b: seq<string>, k: string)
    requires OrderedByLastTouch(ts, a) && OrderedByLastTouch(ts, b) && k in a
    ensures k in b
  {
    assert ts[LastTouch(ts, k)].key == k;
  }

  lemma SameNext(ts: seq<Touch>, a: seq<string>, b: seq<string>, m: nat)
    requires OrderedByLastTouch(ts, a) && OrderedByLastTouch(ts, b) && m < |a| && m < |b| && a[..m] == b[..m]
    ensures a[m] == b[m]
  {
    TouchedIn(ts, a, b, a[m]);
    TouchedIn(ts, b, a, b[m]);
    assert Distinct(a) && Distinct(b);
    hide OrderedByLastTouch, LastTouch;
    var p := Place(b, a[m]);
    var q := Place(a, b[m]);
    NotEarlier(a, b, m, p);
    NotEarlier(b, a, m, q);
  }

  // The order leaves no choice.
  lemma {:induction false} OrderUnique(ts: seq<Touch>, a: seq<string>, b: seq<string>, n: nat)
    requires OrderedByLastTouch(ts, a) && OrderedByLastTouch(ts, b) && n <= |a| && n <= |b|
    ensures a[..n] == b[..n]
  {
    hide *;
    if n > 0 {
      OrderUnique(ts, a, b, n - 1);
      SameNext(ts, a, b, n - 1);
      assert a[..n] == a[..n - 1] + [a[n - 1]] && b[..n] == b[..n - 1] + [b[n - 1]];
    }
  }

  // ---- Every run holds the most recently touched keys ----

  lemma MoveUpKeys(c: Entries, e: Cached)
    ensures Keys(MoveUpEntry(c, e)) == MoveUp(Keys(c), e.key)
  {}

  lemma TruncateKeys(capacity: nat, c: Entries)
    ensures Keys(Truncate(capacity, c)) == Truncate(capacity, Keys(c))
  {}

  lemma IndexOfUnique(ks: seq<string>, k: string, i: nat)
    requires Distinct(ks) && i < |ks| && ks[i] == k
    ensures IndexOf(ks, k) == i
  {}

  // Putting a key into the truncated list, truncated, is truncating after putting it into the whole.
  lemma PutTruncated(capacity: nat, ks: seq<string>, k: string)
    requires Distinct(ks) && capacity > 0
    ensures Truncate(capacity, MoveUp(Truncate(capacity, ks), k)) == Truncate(capacity, MoveUp(ks, k))
  {
    var t := Truncate(capacity, ks);
    if k in t {
      GetTruncated(capacity, ks, k);
    } else if |ks| > capacity {
      var i := IndexOf(ks, k);
      hide IndexOf;
      assert forall j | 0 <= j < capacity :: ks[j] == t[j];
      assert MoveUp(t, k) == [k] + t;
      assert ([k] + t)[..capacity] == [k] + ks[..capacity - 1] == MoveUp(ks, k)[..capacity];
    }
  }

  lemma MoveUpIs(ks: seq<string>, k: string, i: nat)
    requires i < |ks| && IndexOf(ks, k) == i
    ensures MoveUp(ks, k) == [k] + ks[..i] + ks[i + 1..]
  {}

  lemma GetTruncated(capacity: nat, ks: seq<string>, k: string)
    requires Distinct(ks) && k in Truncate(capacity, ks)
    ensures MoveUp(Truncate(capacity, ks), k) == Truncate(capacity, MoveUp(ks, k))
  {
    var t := Truncate(capacity, ks);
    var i := Place(t, k);
    IndexOfUnique(t, k, i);
    IndexOfUnique(ks, k, i);
    hide IndexOf, Distinct;
    MoveUpIs(t, k, i);
    MoveUpIs(ks, k, i);
    hide MoveUp;
  }

  lemma LookedKeeps(ts: seq<Touch>, k: string, l: string, v: Vector)
    requires LastStored(ts, k, v)
    ensures LastStored(ts + [Looked(l)], k, v)
  {
    var i :| 0 <= i < |ts| && ts[i] == Stored(k, v) && forall j | i < j < |ts| :: !(ts[j].Stored? && ts[j].key == k);
    assert (ts + [Looked(l)])[i] == Stored(k, v);
  }

  lemma StoredKeeps(ts: seq<Touch>, k: string, v: Vector, l: string, w: Vector)
    requires k != l ==> LastStored(ts, k, v)
    requires k == l ==> v == w
    ensures LastStored(ts + [Stored(l, w)], k, v)
  {
    var us := ts + [Stored(l, w)];
    if k == l {
      assert us[|ts|] == Stored(k, v);
    } else {
      var i :| 0 <= i < |ts| && ts[i] == Stored(k, v) && forall j | i < j < |ts| :: !(ts[j].Stored? && ts[j].key == k);
      assert us[i] == Stored(k, v);
    }
  }

  predicate AllLastStored(ts: seq<Touch>, c: Entries) {
    forall i | 0 <= i < |c| :: LastStored(ts, c[i].key, c[i].vector)
  }

  lemma MovedFrom(c: Entries, e: Cached, i: nat, a: nat)
    requires 0 < i < |MoveUpEntry(c, e)| && a == if i - 1 < IndexOf(Keys(c), e.key) then i - 1 else i
    ensures a < |c| && MoveUpEntry(c, e)[i] == c[a]
  {
    hide IndexOf, Keys;
  }

  lemma MovedEntries(c: Entries, e: Cached, i: nat)
    requires Distinct(Keys(c)) && i < |MoveUpEntry(c, e)|
    ensures i == 0 ==> MoveUpEntry(c, e)[i] == e
    ensures i > 0 ==> MoveUpEntry(c, e)[i] in c && MoveUpEntry(c, e)[i].key != e.key
  {
    hide IndexOf;
    var p := IndexOf(Keys(c), e.key);
    if i > 0 {
      var a := if i - 1 < p then i - 1 else i;
      MovedFrom(c, e, i, a);
      hide MoveUpEntry;
      assert Keys(c)[a] == c[a].key;
      assert p < |c| ==> Keys(c)[p] == e.key;
    }
  }

  lemma NothingHeld(capacity: nat)
    ensures Keys(Run(capacity, [])) == Truncate(capacity, Recent(Touches(capacity, [])))
    ensures Distinct(Keys(Run(capacity, []))) && AllLastStored(Touches(capacity, []), Run(capacity, []))
  {}

  // Over any run the cache holds the first `capacity` of all touched keys in order of last touch,
  // each with the vector last put for it.
  lemma {:induction false} RunHoldsRecent(capacity: nat, ops: seq<Op>)
    requires capacity > 0
    ensures Keys(Run(capacity, ops)) == Truncate(capacity, Recent(Touches(capacity, ops)))
    ensures Distinct(Keys(Run(capacity, ops)))
    ensures AllLastStored(Touches(capacity, ops), Run(capacity, ops))
  {
    hide *;
    if ops == [] {
      NothingHeld(capacity);
    } else {
      var n := |ops| - 1;
      RunHoldsRecent(capacity, ops[..n]);
      StepHoldsRecent(capacity, ops[..n], ops[n]);
      assert ops == ops[..n] + [ops[n]];
    }
  }

  lemma RecentSnoc(ts: seq<Touch>, t: Touch)
    ensures Recent(ts + [t]) == MoveUp(Recent(ts), t.key)
  {
    assert (ts + [t])[..|ts|] == ts;
  }

  lemma RunSnoc(capacity: nat, ops: seq<Op>, op: Op)
    ensures Run(capacity, ops + [op]) == Exec(capacity, Run(capacity, ops), op)
    ensures Touches(capacity, ops + [op]) == Touches(capacity, ops) + TouchOf(Run(capacity, ops), op)
  {
    assert (ops + [op])[..|ops|] == ops;
    hide Exec, TouchOf;
  }

  lemma StepHoldsRecent(capacity: nat, ops: seq<Op>, op: Op)
    requires capacity > 0
    requires Keys(Run(capacity, ops)) == Truncate(capacity, Recent(Touches(capacity, ops)))
    requires Distinct(Keys(Run(capacity, ops))) && AllLastStored(Touches(capacity, ops), Run(capacity, ops))
    ensures Keys(Run(capacity, ops + [op])) == Truncate(capacity, Recent(Touches(capacity, ops + [op])))
    ensures Distinct(Keys(Run(capacity, ops + [op])))
    ensures AllLastStored(Touches(capacity, ops + [op]), Run(capacity, ops + [op]))
  {
    hide Truncate, MoveUp, MoveUpEntry, Recent, Run, Touches, AllLastStored, Keys, Has, VectorOf;
    RunSnoc(capacity, ops, op);
    RecentOrder(Touches(capacity, ops));
    match op {
      case Get(k) =>
        assert Touches(capacity, ops) + [] == Touches(capacity, ops);
        if Has(Run(capacity, ops), k) { GetStep(capacity, Run(capacity, ops), Touches(capacity, ops), k); }
      case Put(k, v) =>
        PutStep(capacity, Run(capacity, ops), Touches(capacity, ops), k, v);
    }
  }

  lemma HeldEntry(c: Entries, k: string)
    requires Has(c, k)
    ensures Cached(k, VectorOf(c, k)) in c
  {
    assert c[IndexOf(Keys(c), k)].key == k;
  }

  lemma GetStep(capacity: nat, c: Entries, ts: seq<Touch>, k: string)
    requires Distinct(Recent(ts)) && Keys(c) == Truncate(capacity, Recent(ts)) && Distinct(Keys(c))
    requires AllLastStored(ts, c) && Has(c, k)
    ensures Keys(AfterGet(c, k)) == Truncate(capacity, Recent(ts + [Looked(k)]))
    ensures Distinct(Keys(AfterGet(c, k))) && AllLastStored(ts + [Looked(k)], AfterGet(c, k))
  {
    hide Truncate, MoveUp, MoveUpEntry, Recent, LastStored, LastTouch;
    var e := Cached(k, VectorOf(c, k));
    MoveUpKeys(c, e);
    MoveUpFacts(Keys(c), k);
    GetTruncated(capacity, Recent(ts), k);
    RecentSnoc(ts, Looked(k));
    var r := MoveUpEntry(c, e);
    HeldEntry(c, k);
    forall i | 0 <= i < |r|
      ensures LastStored(ts + [Looked(k)], r[i].key, r[i].vector)
    {
      MovedEntries(c, e, i);
      LookedKeeps(ts, r[i].key, k, r[i].vector);
    }
  }

  lemma PutStep(capacity: nat, c: Entries, ts: seq<Touch>, k: string, v: Vector)
    requires capacity > 0
    requires Distinct(Recent(ts)) && Keys(c) == Truncate(capacity, Recent(ts)) && Distinct(Keys(c))
    requires AllLastStored(ts, c)
    ensures Keys(AfterPut(capacity, c, k, v)) == Truncate(capacity, Recent(ts + [Stored(k, v)]))
    ensures Distinct(Keys(AfterPut(capacity, c, k, v))) && AllLastStored(ts + [Stored(k, v)], AfterPut(capacity, c, k, v))
  {
    hide MoveUp, MoveUpEntry, Recent, LastStored, LastTouch;
    var e := Cached(k, v);
    MoveUpKeys(c, e);
    MoveUpFacts(Keys(c), k);
    PutTruncated(capacity, Recent(ts), k);
    RecentSnoc(ts, Stored(k, v));
    TruncateKeys(capacity, MoveUpEntry(c, e));
    var r := MoveUpEntry(c, e);
    forall i | 0 <= i < |AfterPut(capacity, c, k, v)|
      ensures LastStored(ts + [Stored(k, v)], r[i].key, r[i].vector)
    {
      MovedEntries(c, e, i);
      StoredKeeps(ts, r[i].key, r[i].vector, k, v);
    }
  }

  // ---- Stack inclusion ----

  // One successful cacheable search: a get, and on a miss a put of the embedding just computed.
  datatype Search = Search(key: string, embedding: Vector)

  function AfterSearch(capacity: nat, c: Entries, s: Search): Entries {
    if Has(c, s.key) then AfterGet(c, s.key) else AfterPut(capacity, c, s.key, s.embedding)
  }

  function Searches(capacity: nat, ss: seq<Search>): Entries {
    if ss == [] then [] else AfterSearch(capacity, Searches(capacity, ss[..|ss| - 1]), ss[|ss| - 1])
  }

  function SearchTouches(ss: seq<Search>): seq<Touch> {
    seq(|ss|, i requires 0 <= i < |ss| => Looked(ss[i].key))
  }

  lemma {:induction false} SearchesHoldRecent(capacity: nat, ss: seq<Search>)
    requires capacity > 0
    ensures Keys(Searches(capacity, ss)) == Truncate(capacity, Recent(SearchTouches(ss)))
  {
    hide Keys, Truncate, MoveUp, AfterSearch, LastTouch;
    if ss != [] {
      var n := |ss| - 1;
      SearchesHoldRecent(capacity, ss[..n]);
      assert SearchTouches(ss) == SearchTouches(ss[..n]) + [Looked(ss[n].key)];
      hide Recent, SearchTouches;
      OneSearch(capacity, Searches(capacity, ss[..n]), SearchTouches(ss[..n]), ss[n]);
    } else {
      NothingSearched(capacity);
    }
  }

  lemma NothingSearched(capacity: nat)
    ensures Keys(Searches(capacity, [])) == Truncate(capacity, Recent(SearchTouches([]))) == []
  {}

  lemma OneSearch(capacity: nat, c: Entries, ts: seq<Touch>, s: Search)
    requires capacity > 0 && Keys(c) == Truncate(capacity, Recent(ts))
    ensures Keys(AfterSearch(capacity, c, s)) == Truncate(capacity, Recent(ts + [Looked(s.key)]))
  {
    hide Truncate, MoveUp, MoveUpEntry, Recent, LastTouch, VectorOf, Keys;
    RecentOrder(ts);
    RecentSnoc(ts, Looked(s.key));
    if Has(c, s.key) {
      GetTruncated(capacity, Recent(ts), s.key);
      MoveUpKeys(c, Cached(s.key, VectorOf(c, s.key)));
    } else {
      PutTruncated(capacity, Recent(ts), s.key);
      MoveUpKeys(c, Cached(s.key, s.embedding));
      TruncateKeys(capacity, MoveUpEntry(c, Cached(s.key, s.embedding)));
    }
  }

  // The keys of a smaller cache are always a prefix of those of a larger one, so every hit at the
  // smaller capacity is a hit at the larger.
  lemma StackInclusion(small: nat, large: nat, ss: seq<Search>)
    requires 0 < small <= large
    ensures Keys(Searches(small, ss)) <= Keys(Searches(large, ss))
    ensures forall k | Has(Searches(small, ss), k) :: Has(Searches(large, ss), k)
  {
    SearchesHoldRecent(small, ss);
    SearchesHoldRecent(large, ss);
    TruncatePrefix(small, large, Recent(SearchTouches(ss)));
    hide *;
    PrefixKeys(Searches(small, ss), Searches(large, ss));
  }

  lemma PrefixKeys(c: Entries, d: Entries)
    requires Keys(c) <= Keys(d)
    ensures forall k | Has(c, k) :: Has(d, k)
  {
    forall k | Has(c, k)
      ensures Has(d, k)
    {
      var i :| 0 <= i < |Keys(c)| && Keys(c)[i] == k;
      assert Keys(d)[i] == k;
    }
  }

  // Equal keys were given equal embeddings.
  predicate Stable(ss: seq<Search>) {
    forall i, j | 0 <= i < |ss| && 0 <= j < |ss| && ss[i].key == ss[j].key :: ss[i].embedding == ss[j].embedding
  }

  predicate HoldsEmbeddings(c: Entries, ss: seq<Search>) {
    forall i | 0 <= i < |c| :: Search(c[i].key, c[i].vector) in ss
  }

  lemma SearchKeepsEmbeddings(capacity: nat, c: Entries, ss: seq<Search>, s: Search)
    requires HoldsEmbeddings(c, ss)
    ensures HoldsEmbeddings(AfterSearch(capacity, c, s), ss + [s])
  {}

  lemma {:induction false} SearchesHoldEmbeddings(capacity: nat, ss: seq<Search>)
    ensures HoldsEmbeddings(Searches(capacity, ss), ss)
  {
    hide *;
    if ss == [] {
      NothingCached(capacity);
    } else {
      var n := |ss| - 1;
      SearchesHoldEmbeddings(capacity, ss[..n]);
      SearchKeepsEmbeddings(capacity, Searches(capacity, ss[..n]), ss[..n], ss[n]);
      SearchesSnoc(capacity, ss[..n], ss[n]);
      assert ss == ss[..n] + [ss[n]];
    }
  }

  lemma NothingCached(capacity: nat)
    ensures Searches(capacity, []) == [] && HoldsEmbeddings([], [])
  {}

  // With one embedding per key the entries themselves are a prefix.
  lemma StackInclusionOfEntries(small: nat, large: nat, ss: seq<Search>)
    requires 0 < small <= large && Stable(ss)
    ensures Searches(small, ss) <= Searches(large, ss)
  {
    StackInclusion(small, large, ss);
    SearchesHoldEmbeddings(small, ss);
    SearchesHoldEmbeddings(large, ss);
    hide Searches;
    var c, d := Searches(small, ss), Searches(large, ss);
    forall i | 0 <= i < |c|
      ensures c[i] == d[i]
    {
      assert Keys(c)[i] == Keys(d)[i];
    }
  }

  lemma SearchAgain(s: Search, t: Search, u: Search)
    requires s.key == u.key && s.key != t.key
    ensures AfterSearch(1, [Cached(t.key, t.embedding)], u) == [Cached(u.key, u.embedding)]
    ensures AfterSearch(2, [Cached(t.key, t.embedding), Cached(s.key, s.embedding)], u)
            == [Cached(s.key, s.embedding), Cached(t.key, t.embedding)]
  {
    var x, y := Cached(s.key, s.embedding), Cached(t.key, t.embedding);
    assert Keys([y]) == [t.key] && Keys([y, x]) == [t.key, s.key];
    assert [t.key, s.key][1..] == [s.key];
    assert IndexOf([t.key], s.key) == 1 && IndexOf([t.key, s.key], s.key) == 1;
    hide IndexOf;
    assert [y, x][..1] == [y] && [y, x][2..] == [];
  }

  lemma SmallSearches(capacity: nat, s: Search, t: Search)
    requires capacity > 0 && s.key != t.key
    ensures Searches(capacity, [s, t]) ==
      if capacity == 1 then [Cached(t.key, t.embedding)]
      else [Cached(t.key, t.embedding), Cached(s.key, s.embedding)]
  {
    assert [s, t][..1] == [s] && [s][..0] == [];
    assert Keys([]) == [];
    var c := [Cached(s.key, s.embedding)];
    assert Searches(capacity, [s]) == c;
    assert Keys(c) == [s.key];
    assert IndexOf(Keys(c), t.key) == 1;
    assert MoveUpEntry(c, Cached(t.key, t.embedding)) == [Cached(t.key, t.embedding)] + c;
  }

  // ---- When the entries are a prefix too ----

  // The searches an embedder may answer, each with its key and embedding.
  type Answers = iset<Search>

  ghost predicate Drawn(ss: seq<Search>, gives: Answers) {
    forall s | s in ss :: s in gives
  }

  // Of any run, the entries of a smaller cache are a prefix of those of a larger one.
  ghost predicate EntriesNest(gives: Answers) {
    forall ss, small: nat, large: nat | Drawn(ss, gives) && 0 < small <= large :: NestAt(ss, small, large)
  }

  predicate NestAt(ss: seq<Search>, small: nat, large: nat) {
    Searches(small, ss) <= Searches(large, ss)
  }

  ghost predicate OneEmbeddingPerKey(gives: Answers) {
    forall s, t | s in gives && t in gives && s.key == t.key :: s.embedding == t.embedding
  }

  ghost predicate OneKey(gives: Answers) {
    forall s, t | s in gives && t in gives :: s.key == t.key
  }

  // With a single key every cache holds the first search's embedding from then on.
  lemma {:induction false} OneKeyOneEntry(capacity: nat, ss: seq<Search>)
    requires capacity > 0 && ss != [] && forall s | s in ss :: s.key == ss[0].key
    ensures Searches(capacity, ss) == [Cached(ss[0].key, ss[0].embedding)]
  {
    var n := |ss| - 1;
    var e := Cached(ss[0].key, ss[0].embedding);
    assert ss[n] in ss;
    if n == 0 {
      assert ss[..0] == [] && Keys([]) == [];
    } else {
      assert forall s | s in ss[..n] :: s in ss;
      OneKeyOneEntry(capacity, ss[..n]);
      assert Keys([e]) == [e.key] && [e.key][0] == e.key;
      assert AfterGet([e], e.key) == [e];
    }
  }

  // A key forgotten by the smaller cache only is embedded again, and may come out differently.
  lemma TwoKeysTwoEmbeddings(s: Search, t: Search, u: Search)
    requires s.key == u.key && s.key != t.key && s.embedding != u.embedding
    ensures !NestAt([s, t, u], 1, 2)
  {
    hide Searches, AfterSearch;
    SearchesSnoc(1, [s, t], u);
    SearchesSnoc(2, [s, t], u);
    assert [s, t] + [u] == [s, t, u];
    SmallSearches(1, s, t);
    SmallSearches(2, s, t);
    SearchAgain(s, t, u);
    assert Searches(1, [s, t, u])[0] != Searches(2, [s, t, u])[0];
  }

  lemma SearchesSnoc(capacity: nat, ss: seq<Search>, s: Search)
    ensures Searches(capacity, ss + [s]) == AfterSearch(capacity, Searches(capacity, ss), s)
  {
    assert (ss + [s])[..|ss|] == ss;
    hide AfterSearch;
  }

  lemma NestWhen(gives: Answers, ss: seq<Search>, small: nat, large: nat)
    requires OneEmbeddingPerKey(gives) || OneKey(gives)
    requires Drawn(ss, gives) && 0 < small <= large
    ensures NestAt(ss, small, large)
  {
    hide Searches;
    if OneEmbeddingPerKey(gives) {
      assert forall i | 0 <= i < |ss| :: ss[i] in ss;
      StackInclusionOfEntries(small, large, ss);
    } else if ss != [] {
      assert ss[0] in ss;
      OneKeyOneEntry(small, ss);
      OneKeyOneEntry(large, ss);
    } else {
      NothingCached(small);
      NothingCached(large);
    }
  }

  // On every run of searches an embedder may answer, and for any two capacities, the entries of the
  // smaller cache are a prefix of those of the larger, exactly when the embedder gives each key one
  // embedding, or there is only one key.
  lemma EntriesNestExactly(gives: Answers)
    ensures EntriesNest(gives) <==> OneEmbeddingPerKey(gives) || OneKey(gives)
  {
    hide NestAt;
    if OneEmbeddingPerKey(gives) || OneKey(gives) {
      forall ss, small: nat, large: nat | Drawn(ss, gives) && 0 < small <= large
        ensures NestAt(ss, small, large)
      {
        NestWhen(gives, ss, small, large);
      }
    } else {
      var s, u :| s in gives && u in gives && s.key == u.key && s.embedding != u.embedding;
      var x, y :| x in gives && y in gives && x.key != y.key;
      var t := if x.key != s.key then x else y;
      TwoKeysTwoEmbeddings(s, t, u);
      assert Drawn([s, t, u], gives) && !NestAt([s, t, u], 1, 2);
    }
  }
}
