/**
The query-embedding cache: a linked list in order of use and a map into it, updated in place. The
list is modelled as a sequence of entry objects, the map as a map to the same objects.
*/
module QueryCache {
  import opened Embedding
  import opened Recency

  class Entry {
    const key: string
    var vector: array<int>

    constructor (key: string, vector: array<int>)
      ensures this.key == key && this.vector == vector
    {
      this.key, this.vector := key, vector;
    }
  }

  // cloneVector
  method CloneVector(vector: array<int>) returns (copy: array<int>)
    ensures fresh(copy) && copy[..] == vector[..]
  {
    copy := new int[vector.Length](i requires 0 <= i < vector.Length reads vector => vector[i]);
  }

  // The list and the map are in exact bijection: the same entries, each under its own key.
  predicate Bijection(ll: seq<Entry>, entries: map<string, Entry>) {
    && (forall i | 0 <= i < |ll| :: ll[i].key in entries && entries[ll[i].key] == ll[i])
    && (forall k | k in entries :: entries[k].key == k && entries[k] in ll)
    && (forall i, j | 0 <= i < j < |ll| :: ll[i].key != ll[j].key)
  }

  // The set holds the entries and their vectors.
  ghost predicate Owned(ll: seq<Entry>, objects: set<object>)
    reads ll
  {
    forall e | e in ll :: e in objects && e.vector in objects
  }

  lemma OwnedMoved(ll: seq<Entry>, objects: set<object>, i: nat)
    requires Owned(ll, objects) && i < |ll|
    ensures Owned(Moved(ll, i), objects)
  {
    assert ll == ll[..i] + [ll[i]] + ll[i + 1..];
  }

  // Element i brought to the front.
  function Moved<T>(s: seq<T>, i: nat): seq<T>
    requires i < |s|
  {
    [s[i]] + s[..i] + s[i + 1..]
  }

  function WasAt(i: nat, j: nat): nat {
    if j == 0 then i else if j - 1 < i then j - 1 else j
  }

  lemma MovedAt<T>(s: seq<T>, i: nat, j: nat)
    requires i < |s| && j < |s|
    ensures WasAt(i, j) < |s| && Moved(s, i)[j] == s[WasAt(i, j)]
  {}

  lemma MovedPointwise<T>(s: seq<T>, r: seq<T>, i: nat)
    requires i < |s| && |r| == |s|
    requires forall j | 0 <= j < |r| :: WasAt(i, j) < |s| && r[j] == s[WasAt(i, j)]
    ensures r == Moved(s, i)
  {}

  lemma MovedMember<T>(s: seq<T>, i: nat, e: T)
    requires i < |s| && e in s
    ensures e in Moved(s, i)
  {
    assert s == s[..i] + [s[i]] + s[i + 1..];
  }

  lemma BijectionMoved(ll: seq<Entry>, entries: map<string, Entry>, i: nat)
    requires Bijection(ll, entries) && i < |ll|
    ensures Bijection(Moved(ll, i), entries)
  {
    var r := Moved(ll, i);
    forall j | 0 <= j < |r|
      ensures WasAt(i, j) < |ll| && r[j] == ll[WasAt(i, j)]
    {
      MovedAt(ll, i, j);
    }
    forall k | k in entries
      ensures entries[k] in r
    {
      MovedMember(ll, i, entries[k]);
    }
    hide Moved;
  }

  lemma BijectionPushed(ll: seq<Entry>, entries: map<string, Entry>, e: Entry)
    requires Bijection(ll, entries) && e.key !in entries
    ensures Bijection([e] + ll, entries[e.key := e])
  {
    var after := entries[e.key := e];
    forall k | k in after
      ensures after[k] in [e] + ll
    {
      if k != e.key { assert entries[k] in ll; }
    }
  }

  lemma BijectionEvicted(ll: seq<Entry>, entries: map<string, Entry>)
    requires Bijection(ll, entries) && ll != []
    ensures Bijection(ll[..|ll| - 1], entries - {ll[|ll| - 1].key})
  {
    var n := |ll| - 1;
    var after := entries - {ll[n].key};
    forall k | k in after
      ensures after[k] in ll[..n]
    {
      var i :| 0 <= i < |ll| && ll[i] == entries[k];
      assert ll[..n][i] == entries[k];
    }
  }

  lemma PlaceOf(ll: seq<Entry>, entries: map<string, Entry>, key: string, c: Entries) returns (i: nat)
    requires Bijection(ll, entries) && |c| == |ll| && (forall j | 0 <= j < |c| :: c[j].key == ll[j].key)
    ensures Distinct(Keys(c)) && i == IndexOf(Keys(c), key)
    ensures key in entries <==> Has(c, key)
    ensures key in entries ==> i < |ll| && ll[i] == entries[key]
    ensures key !in entries ==> i == |ll|
  {
    var ks := Keys(c);
    i := IndexOf(ks, key);
    if key in entries {
      var p :| 0 <= p < |ll| && ll[p] == entries[key];
      IndexOfUnique(ks, key, p);
    } else {
      assert forall j | 0 <= j < |ks| :: ks[j] == ll[j].key;
    }
  }

  // What the entries hold moves with them.
  lemma MovedContents(before: Entries, after: Entries, ll: seq<Entry>, ll2: seq<Entry>, i: nat)
    requires i < |ll| && ll2 == Moved(ll, i) && |before| == |ll| && |after| == |ll2|
    requires forall j | 0 <= j < |ll| :: before[j] == Cached(ll[j].key, ll[j].vector[..])
    requires forall j | 0 <= j < |ll2| :: after[j] == Cached(ll2[j].key, ll2[j].vector[..])
    ensures after == Moved(before, i)
  {
    forall j | 0 <= j < |after|
      ensures WasAt(i, j) < |before| && after[j] == before[WasAt(i, j)]
    {
      MovedAt(ll, i, j);
    }
    hide Moved, WasAt;
    MovedPointwise(before, after, i);
  }

  lemma MovedIsMoveUp(c: Entries, i: nat)
    requires i < |c| && IndexOf(Keys(c), c[i].key) == i
    ensures MoveUpEntry(c, c[i]) == Moved(c, i)
  {}

  lemma FrontDiffers(ll: seq<Entry>, entries: map<string, Entry>)
    requires Bijection(ll, entries) && ll != []
    ensures forall j | 1 <= j < |ll| :: ll[j] != ll[0]
  {}

  lemma PutMiss(capacity: nat, c: Entries, k: string, v: Vector)
    requires !Has(c, k) && |c| <= capacity
    ensures AfterPut(capacity, c, k, v) ==
      if |c| + 1 <= capacity then [Cached(k, v)] + c else ([Cached(k, v)] + c)[..|c|]
  {}

  lemma PutHit(capacity: nat, c: Entries, k: string, v: Vector, w: Vector)
    requires Has(c, k) && |c| <= capacity
    ensures AfterPut(capacity, c, k, w) == [Cached(k, w)] + MoveUpEntry(c, Cached(k, v))[1..]
  {}

  class QueryEmbeddingCache {
    const capacity: nat
    var ll: seq<Entry>                 // front first
    var entries: map<string, Entry>
    ghost var Repr: set<object>        // this object, its entries and their vectors

    // All but the bound on the length, which PushFront may pass by one until the eviction.
    ghost predicate Linked()
      reads this, ll, Repr
      ensures Linked() ==> this in Repr
    {
      && this in Repr
      && Owned(ll, Repr)
      && Bijection(ll, entries)
    }

    ghost predicate Valid()
      reads this, ll, Repr
      ensures Valid() ==> this in Repr && Linked()
    {
      Linked() && 0 < capacity && |ll| <= capacity
    }

    // The cached keys and vectors, the one used last first.
    ghost function Contents(): (c: Entries)
      requires Linked()
      reads this, ll, Repr
      ensures |c| == |ll|
      ensures forall i | 0 <= i < |c| :: c[i] == Cached(ll[i].key, ll[i].vector[..])
    {
      seq(|ll|, i requires 0 <= i < |ll| && Linked() reads this, ll, Repr => Cached(ll[i].key, ll[i].vector[..]))
    }

    constructor (capacity: nat)
      requires capacity > 0
      ensures Valid() && Contents() == [] && this.capacity == capacity && fresh(Repr)
    {
      this.capacity := capacity;
      ll, entries := [], map[];
      Repr := {this};
    }

    lemma MovePlan(element: Entry, i: nat)
      requires Linked() && i < |ll| && ll[i] == element
      ensures Bijection(Moved(ll, i), entries) && Owned(Moved(ll, i), Repr)
      ensures Moved(Contents(), i) == MoveUpEntry(Contents(), Cached(element.key, element.vector[..]))
    {
      ghost var p := PlaceOf(ll, entries, element.key, Contents());
      BijectionMoved(ll, entries, i);
      OwnedMoved(ll, Repr, i);
      MovedIsMoveUp(Contents(), i);
    }

    // (*list.List).MoveToFront
    method MoveToFront(element: Entry)
      requires Linked() && element in ll
      modifies this`ll
      ensures Linked() && |ll| == |old(ll)| && ll[0] == element
      ensures Contents() == MoveUpEntry(old(Contents()), Cached(element.key, element.vector[..]))
    {
      hide MoveUpEntry, Bijection, Owned;
      ghost var before := Contents();
      var i: nat :| i < |ll| && ll[i] == element;
      MovePlan(element, i);
      ll := [element] + ll[..i] + ll[i + 1..];
      assert ll == Moved(old(ll), i);
      hide Moved;
      MovedContents(before, Contents(), old(ll), ll, i);
    }

    // (*list.List).PushFront and the new map entry
    method PushFront(element: Entry)
      requires Linked() && element !in ll && element.key !in entries
      modifies this
      ensures Linked() && ll == [element] + old(ll)
      ensures Repr == old(Repr) + {element, element.vector}
      ensures Contents() == [Cached(element.key, element.vector[..])] + old(Contents())
    {
      BijectionPushed(ll, entries, element);
      hide Bijection;
      ll := [element] + ll;
      entries := entries[element.key := element];
      Repr := Repr + {element, element.vector};
    }

    // Removes the back of the list, and its key from the map.
    method RemoveBack()
      requires Linked() && |ll| > 0
      modifies this`ll, this`entries
      ensures Linked() && ll == old(ll[..|ll| - 1])
      ensures Contents() == old(Contents()[..|ll| - 1])
    {
      BijectionEvicted(ll, entries);
      hide Bijection;
      var tail := ll[|ll| - 1];
      ll := ll[..|ll| - 1];
      entries := entries - {tail.key};
    }

    lemma Lookup(key: string)
      requires Linked()
      ensures key in entries <==> Has(Contents(), key)
      ensures key in entries ==>
        entries[key] in ll && entries[key].key == key && VectorOf(Contents(), key) == entries[key].vector[..]
    {
      ghost var i := PlaceOf(ll, entries, key, Contents());
    }

    // A hit returns a fresh copy and counts as a use.
    method Get(key: string) returns (found: bool, vector: array?<int>)
      requires Valid()
      modifies this`ll
      ensures Valid()
      ensures found <==> Has(old(Contents()), key)
      ensures !found ==> ll == old(ll)
      ensures found ==> vector != null && fresh(vector) && vector !in Repr && vector[..] == VectorOf(old(Contents()), key)
      ensures Contents() == AfterGet(old(Contents()), key)
    {
      Lookup(key);
      if key !in entries {
        return false, null;
      }
      var element := entries[key];
      hide Bijection, MoveUpEntry, Owned;
      MoveToFront(element);
      var copy := CloneVector(element.vector);
      return true, copy;
    }

    // Gives the front entry another vector.
    method Overwrite(element: Entry, vector: array<int>)
      requires Linked() && |ll| > 0 && ll[0] == element
      modifies this`Repr, element`vector
      ensures Linked() && Repr == old(Repr) + {vector}
      ensures Contents() == [Cached(element.key, vector[..])] + old(Contents())[1..]
    {
      FrontDiffers(ll, entries);
      hide Bijection;
      ghost var before := Contents();
      element.vector := vector;
      Repr := Repr + {vector};
      assert forall j | 1 <= j < |ll| :: Contents()[j] == before[j];
    }

    // Stores a fresh copy in front, evicting the entry used longest ago when there are too many.
    method Put(key: string, vector: array<int>)
      requires Valid()
      modifies this, ll
      ensures Valid() && fresh(Repr - old(Repr))
      ensures Contents() == AfterPut(capacity, old(Contents()), key, vector[..])
    {
      hide MoveUpEntry, Bijection, Owned, AfterPut, Has;
      ghost var before := Contents();
      Lookup(key);
      if key in entries {
        var element := entries[key];
        PutHit(capacity, before, key, element.vector[..], vector[..]);
        MoveToFront(element);
        var copy := CloneVector(vector);
        Overwrite(element, copy);
        return;
      }
      PutMiss(capacity, before, key, vector[..]);
      var copy := CloneVector(vector);
      var element := new Entry(key, copy);
      PushFront(element);
      if |ll| <= capacity {
        return;
      }
      RemoveBack();
    }
  }

  // newQueryEmbeddingCache: no cache at all without a positive capacity.
  method NewQueryEmbeddingCache(capacity: int) returns (c: QueryEmbeddingCache?)
    ensures c == null <==> capacity <= 0
    ensures c != null ==> fresh(c) && fresh(c.Repr) && c.Valid() && c.capacity == capacity && c.Contents() == []
  {
    if capacity <= 0 {
      return null;
    }
    c := new QueryEmbeddingCache(capacity);
  }
}
