/** Go's byte-wise order on strings, which on valid UTF-8 is the lexicographic order of runes. */
module StringOrder {

  predicate Less(a: string, b: string) {
    && b != ""
    && (a == "" || a[0] < b[0] || (a[0] == b[0] && Less(a[1..], b[1..])))
  }

  // The first i runes agree and the next decides: a ends there, or has the smaller rune.
  predicate DecidedAt(a: string, b: string, i: nat) {
    i <= |a| && i < |b| && a[..i] == b[..i] && (i == |a| || a[i] < b[i])
  }

  ghost predicate Lexicographic(a: string, b: string) {
    exists i: nat :: DecidedAt(a, b, i)
  }

  lemma {:induction false} LessIsLexicographic(a: string, b: string)
    ensures Less(a, b) <==> Lexicographic(a, b)
  {
    if b != "" && (a == "" || a[0] < b[0]) {
      assert DecidedAt(a, b, 0);
    } else if b != "" && a[0] == b[0] {
      LessIsLexicographic(a[1..], b[1..]);
      forall i: nat
        ensures DecidedAt(a[1..], b[1..], i) <==> DecidedAt(a, b, i + 1)
      {
        DecidedLater(a, b, i);
      }
      hide Less;
      if Lexicographic(a, b) {
        var i: nat :| DecidedAt(a, b, i);
        assert i > 0 && DecidedAt(a[1..], b[1..], i - 1);
      }
    }
  }

  lemma DecidedLater(a: string, b: string, i: nat)
    requires a != "" && b != "" && a[0] == b[0]
    ensures DecidedAt(a[1..], b[1..], i) <==> DecidedAt(a, b, i + 1)
  {
    if i + 1 <= |a| && i + 1 <= |b| {
      assert a[..i + 1] == [a[0]] + a[1..][..i] && b[..i + 1] == [b[0]] + b[1..][..i];
    }
  }

  lemma {:induction false} LessIrreflexive(a: string)
    ensures !Less(a, a)
  {
    if a != "" {
      LessIrreflexive(a[1..]);
    }
  }

  lemma {:induction false} LessTransitive(a: string, b: string, c: string)
    requires Less(a, b) && Less(b, c)
    ensures Less(a, c)
  {
    if a != "" && a[0] == b[0] == c[0] {
      LessTransitive(a[1..], b[1..], c[1..]);
    }
  }

  lemma {:induction false} LessTotal(a: string, b: string)
    ensures a == b || Less(a, b) || Less(b, a)
  {
    if a != "" && b != "" && a[0] == b[0] {
      LessTotal(a[1..], b[1..]);
      assert a == [a[0]] + a[1..] && b == [b[0]] + b[1..];
    }
  }

  lemma LessAsymmetric(a: string, b: string)
    requires Less(a, b)
    ensures !Less(b, a)
  {
    if Less(b, a) {
      LessTransitive(a, b, a);
      LessIrreflexive(a);
    }
  }

  predicate Ascending(s: seq<string>) {
    forall i, j | 0 <= i < j < |s| :: Less(s[i], s[j])
  }

  function Elements(s: seq<string>): set<string> {
    set x | x in s
  }

  lemma InElements(x: string, s: seq<string>)
    ensures x in s <==> x in Elements(s)
  {}

  lemma NoElements(s: seq<string>)
    ensures s == [] <==> Elements(s) == {}
  {
    if s != [] {
      InElements(s[0], s);
    }
  }

  lemma ElementsAppend(s: seq<string>, x: string)
    ensures Elements(s + [x]) == Elements(s) + {x}
  {}

  // A strictly ascending list is determined by its set of elements.
  lemma {:induction false} AscendingUnique(s: seq<string>, t: seq<string>)
    requires Ascending(s) && Ascending(t)
    requires Elements(s) == Elements(t)
    ensures s == t
  {
    if s == [] || t == [] {
      NoElements(s);
      NoElements(t);
    } else {
      SameHead(s, t);
      HeadRemoved(s);
      HeadRemoved(t);
      AscendingUnique(s[1..], t[1..]);
    }
  }

  lemma SameHead(s: seq<string>, t: seq<string>)
    requires Ascending(s) && Ascending(t) && s != [] && t != []
    requires Elements(s) == Elements(t)
    ensures s[0] == t[0]
  {
    assert s[0] in Elements(t) && t[0] in Elements(s);
    if s[0] != t[0] {
      LessAsymmetric(s[0], t[0]);
    }
  }

  lemma HeadRemoved(s: seq<string>)
    requires Ascending(s) && s != []
    ensures Elements(s[1..]) == Elements(s) - {s[0]}
    ensures Ascending(s[1..])
  {
    LessIrreflexive(s[0]);
    forall x | x in Elements(s) - {s[0]}
      ensures x in s[1..]
    {
      var i :| 0 <= i < |s| && s[i] == x;
      assert s[1..][i - 1] == x;
    }
  }

  // Where a new element goes in an ascending list.
  function Insert(x: string, s: seq<string>): (r: seq<string>) {
    if s == [] || Less(x, s[0]) then [x] + s else [s[0]] + Insert(x, s[1..])
  }

  lemma {:induction false} InsertKeepsOrder(x: string, s: seq<string>)
    requires Ascending(s) && x !in s
    ensures Ascending(Insert(x, s))
    ensures Elements(Insert(x, s)) == Elements(s) + {x}
  {
    if s != [] {
      if Less(x, s[0]) {
        forall i | 0 <= i < |s|
          ensures Less(x, s[i])
        {
          if i > 0 { LessTransitive(x, s[0], s[i]); }
        }
      } else {
        LessTotal(x, s[0]);
        InsertKeepsOrder(x, s[1..]);
        var r := Insert(x, s[1..]);
        assert s == [s[0]] + s[1..];
        forall i | 0 <= i < |r|
          ensures Less(s[0], r[i])
        {
          assert r[i] in Elements(r);
        }
      }
    }
  }

  predicate Sorted(s: seq<string>) {
    forall i, j | 0 <= i < j < |s| :: !Less(s[j], s[i])
  }

  lemma NotLessTransitive(a: string, b: string, c: string)
    requires !Less(b, a) && !Less(c, b)
    ensures !Less(c, a)
  {
    LessTotal(a, b);
    LessTotal(b, c);
    if Less(a, b) && Less(b, c) {
      LessTransitive(a, b, c);
      LessAsymmetric(a, c);
    }
  }

  lemma {:induction false} InsertKeepsSorted(x: string, s: seq<string>)
    requires Sorted(s)
    ensures Sorted(Insert(x, s)) && multiset(Insert(x, s)) == multiset(s) + multiset{x}
  {
    if s != [] {
      assert s == [s[0]] + s[1..];
      if Less(x, s[0]) {
        LessAsymmetric(x, s[0]);
        InFrontOfAll(x, s);
      } else {
        InsertKeepsSorted(x, s[1..]);
        SortedFrom(s[0], x, s[1..]);
      }
    }
  }

  lemma InFrontOfAll(x: string, s: seq<string>)
    requires Sorted(s) && s != [] && !Less(s[0], x)
    ensures Sorted([x] + s)
  {
    hide Less;
    forall j | 0 <= j < |s|
      ensures !Less(s[j], x)
    {
      if j > 0 { NotLessTransitive(x, s[0], s[j]); }
    }
  }

  lemma SortedFrom(h: string, x: string, t: seq<string>)
    requires Sorted([h] + t) && !Less(x, h) && Sorted(Insert(x, t)) && multiset(Insert(x, t)) == multiset(t) + multiset{x}
    ensures Sorted([h] + Insert(x, t))
  {
    var r := Insert(x, t);
    hide Insert;
    forall i | 0 <= i < |t|
      ensures !Less(t[i], h)
    {
      assert ([h] + t)[i + 1] == t[i] && ([h] + t)[0] == h;
    }
    forall j | 0 <= j < |r|
      ensures !Less(r[j], h)
    {
      assert r[j] in multiset(r);
      assert r[j] in multiset(t) || r[j] == x;
    }
  }

  // sort.Strings
  method SortStrings(s: seq<string>) returns (r: seq<string>)
    ensures Sorted(r) && multiset(r) == multiset(s)
  {
    r := [];
    for i := 0 to |s|
      invariant Sorted(r) && multiset(r) == multiset(s[..i])
    {
      assert s[..i + 1] == s[..i] + [s[i]];
      InsertKeepsSorted(s[i], r);
      r := Insert(s[i], r);
    }
    assert s[..|s|] == s;
  }

  predicate NoDuplicates(s: seq<string>) {
    forall i, j | 0 <= i < j < |s| :: s[i] != s[j]
  }

  lemma {:induction false} CountOnce(s: seq<string>, x: string)
    requires NoDuplicates(s)
    ensures multiset(s)[x] <= 1
  {
    if s != [] {
      var n := |s| - 1;
      CountOnce(s[..n], x);
      assert s == s[..n] + [s[n]];
      assert forall i | 0 <= i < n :: s[i] != s[n];
      assert s[n] !in s[..n];
    }
  }

  lemma CountTwice(r: seq<string>, i: nat, j: nat)
    requires i < j < |r| && r[i] == r[j]
    ensures multiset(r)[r[i]] >= 2
  {
    assert r == r[..j] + [r[j]] + r[j + 1..];
    assert r[..j][i] == r[i];
    assert r[i] in multiset(r[..j]);
  }

  // Without duplicates sorting gives the strictly ascending list of the elements.
  lemma SortedIsAscending(s: seq<string>, r: seq<string>)
    requires NoDuplicates(s) && Sorted(r) && multiset(r) == multiset(s)
    ensures Ascending(r) && Elements(r) == Elements(s)
  {
    forall i, j | 0 <= i < j < |r|
      ensures Less(r[i], r[j])
    {
      CountOnce(s, r[i]);
      assert multiset(r)[r[i]] <= 1;
      assert r[i] != r[j] by {
        if r[i] == r[j] { CountTwice(r, i, j); }
      }
      LessTotal(r[i], r[j]);
      assert !Less(r[j], r[i]);
    }
    assert forall x :: x in r <==> x in multiset(r);
    assert forall x :: x in s <==> x in multiset(s);
  }
}
