/** Small facts about sequences and maps that several modules need. */
module Sequences {

  // At most the first `limit` elements.
  function Truncate<T>(limit: nat, s: seq<T>): (r: seq<T>)
    ensures |r| <= limit
  {
    if |s| <= limit then s else s[..limit]
  }

  lemma TruncatePrefix<T>(small: nat, large: nat, s: seq<T>)
    requires small <= large
    ensures Truncate(small, s) <= Truncate(large, s)
  {}

  lemma Place<T>(s: seq<T>, x: T) returns (p: nat)
    requires x in s
    ensures p < |s| && s[p] == x
  {
    p :| 0 <= p < |s| && s[p] == x;
  }

  // An element of a at position n cannot stand earlier in a list that agrees with a up to n.
  lemma NotEarlier<T>(a: seq<T>, b: seq<T>, n: nat, p: nat)
    requires n < |a| && n <= |b| && a[..n] == b[..n] && p < |b| && b[p] == a[n]
    requires forall i, j | 0 <= i < j < |a| :: a[i] != a[j]
    ensures p >= n
  {
    forall j | 0 <= j < n
      ensures b[j] == a[j]
    {
      assert b[..n][j] == a[..n][j];
    }
  }

  lemma MapExtended<K, V>(before: map<K, V>, after: map<K, V>, k: K, v: V)
    requires after.Keys == before.Keys + {k} && after[k] == v
    requires forall x | x in before && x != k :: after[x] == before[x]
    ensures after == before[k := v]
  {}

  lemma EmptySet<T(!new)>(s: set<T>)
    requires forall x :: x !in s
    ensures s == {}
  {}

  // Brings the witness an existence check over a non-empty set asks for.
  lemma SomeElement<T>(s: set<T>) returns (x: T)
    requires s != {}
    ensures x in s
  {
    assert (forall y :: y !in s) ==> s == {};
    x :| x in s;
  }
}
