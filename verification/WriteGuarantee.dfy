/**
The rely-guarantee core of the write proofs. Every step by one call satisfies Guarantee towards
all others, and everything the invariant says about a call is stable under another call's
Guarantee. Commits are the only steps that change the tables.
*/
module WriteGuarantee {
  import opened Tables
  import opened AtomicDocuments
  import opened WriteProtocol
  import opened WriteInvariant

  // Documents with other keys keep their rows and their chunk rows, and none appears.
  predicate ChangesOnly(db: Tables, after: Tables, keys: set<Key>) {
    && (forall d | d in db.docs && db.docs[d].key !in keys ::
          d in after.docs && after.docs[d] == db.docs[d] && ChunksOf(after, d) == ChunksOf(db, d))
    && (forall d | d in after.docs && after.docs[d].key !in keys :: d in db.docs && after.docs[d] == db.docs[d])
  }

  predicate ExtendsBy(old_: map<int, Pid>, new_: map<int, Pid>, p: Pid) {
    && (forall x | x in old_ :: x in new_ && new_[x] == old_[x])
    && (forall x | x in new_ && x !in old_ :: new_[x] == p)
  }

  predicate LogGrows(s: State, t: State, p: Pid, keys: set<Key>) {
    || (t.log == s.log && t.db == s.db && keys == {})
    || (|t.log| == |s.log| + 1 && t.log[..|s.log|] == s.log
        && t.log[|s.log|].pid == p && t.log[|s.log|].changed == keys)
  }

  predicate Guarantee(s: State, t: State, p: Pid, keys: set<Key>) {
    && LogGrows(s, t, p, keys)
    && ChangesOnly(s.db, t.db, keys)
    && (forall d | d in t.db.docs && d !in s.db.docs :: d in t.docIds && t.docIds[d] == p)
    && (forall c | c in t.db.chunks && c !in s.db.chunks :: c in t.chunkIds && t.chunkIds[c] == p)
    && (forall d | d in t.db.docs && t.db.docs[d].key in keys :: VersionId(d, t.db.docs[d].updatedAt) !in s.published)
    && ExtendsBy(s.docIds, t.docIds, p) && ExtendsBy(s.chunkIds, t.chunkIds, p) && ExtendsBy(s.stamps, t.stamps, p)
    && (forall v | v in s.published :: v in t.published && t.published[v] == s.published[v])
    && (forall v | v in t.published && v !in s.published :: v.at in t.stamps && t.stamps[v.at] == p)
    && s.produced <= t.produced
    && (forall k | k in s.advisory && s.advisory[k] != p :: k in t.advisory && t.advisory[k] == s.advisory[k])
    && (forall d | d in s.rowLocks && s.rowLocks[d] != p :: d in t.rowLocks && t.rowLocks[d] == s.rowLocks[d])
  }

  // ---- Stability, one part of the invariant at a time ----

  lemma HoldsStable(db: Tables, after: Tables, keys: set<Key>, k: Key, v: Version)
    requires ChangesOnly(db, after, keys) && k !in keys && Holds(db, k, v)
    ensures Holds(after, k, v)
  {}

  lemma NoEventsStable(s: State, t: State, p: Pid, q: Pid, keys: set<Key>)
    requires LogGrows(s, t, p, keys) && q != p && NoEventsBy(s.log, q)
    ensures NoEventsBy(t.log, q)
  {
    forall i | 0 <= i < |t.log|
      ensures t.log[i].pid != q
    {
      if i < |s.log| { assert t.log[i] == t.log[..|s.log|][i] == s.log[i]; }
    }
  }

  lemma LogPrefix(s: State, t: State, p: Pid, keys: set<Key>, n: nat)
    requires LogGrows(s, t, p, keys) && n <= |s.log|
    ensures |s.log| <= |t.log|
    ensures t.log[..n] == s.log[..n]
    ensures forall i | 0 <= i < n :: t.log[i] == s.log[i]
  {
    assert t.log[..|s.log|] == s.log;
    assert t.log[..n] == t.log[..|s.log|][..n];
    assert forall i | 0 <= i < n :: t.log[i] == t.log[..|s.log|][i];
  }

  lemma ForeignChangeStable(s: State, t: State, p: Pid, q: Pid, keys: set<Key>, k: Key, lo: nat, hi: nat)
    requires LogGrows(s, t, p, keys) && ForeignChange(s.log, q, k, lo, hi)
    ensures ForeignChange(t.log, q, k, lo, hi)
  {
    LogPrefix(s, t, p, keys, |s.log|);
    var i :| lo <= i < hi && s.log[i].pid != q && k in s.log[i].changed;
    assert t.log[i] == s.log[i];
  }

  lemma CallStable(s: State, t: State, p: Pid, q: Pid, keys: set<Key>, pr: Proc)
    requires pr.Writer? && q != p && LogGrows(s, t, p, keys) && CallInv(s, q, pr)
    ensures CallInv(t, q, pr)
  {
    if !Succeeded(pr.pc) { NoEventsStable(s, t, p, q, keys); }
    LogPrefix(s, t, p, keys, |s.log|);
    forall j | 0 <= j < |pr.past.restarts|
      ensures ForeignChange(t.log, q, pr.past.restarts[j].key, pr.past.restarts[j].lo, pr.past.restarts[j].hi)
    {
      var r := pr.past.restarts[j];
      ForeignChangeStable(s, t, p, q, keys, r.key, r.lo, r.hi);
    }
  }

  lemma QuietStable(s: State, t: State, p: Pid, keys: set<Key>, lo: nat, k: Key)
    requires LogGrows(s, t, p, keys) && lo <= |s.log|
    ensures |s.log| <= |t.log|
    ensures Quiet(t.log, lo, |t.log|, k) <==> Quiet(s.log, lo, |s.log|, k) && k !in keys
  {
    LogPrefix(s, t, p, keys, |s.log|);
    if |t.log| == |s.log| + 1 && Quiet(t.log, lo, |t.log|, k) {
      assert k !in t.log[|s.log|].changed;
      forall i | lo <= i < |s.log|
        ensures k !in s.log[i].changed
      {
        assert t.log[i] == s.log[i];
      }
    }
  }

  // A version never comes back once its key has changed.
  lemma StillThereStable(s: State, t: State, p: Pid, keys: set<Key>, k: Key, v: Version)
    requires Guarantee(s, t, p, keys) && VersionsPublished(s)
    requires v.Version? && v.row.key == k
    requires VersionId(v.id, v.row.updatedAt) in s.published && s.published[VersionId(v.id, v.row.updatedAt)] == v
    requires StillThere(t.db, v)
    ensures StillThere(s.db, v) && k !in keys
  {
    assert t.db.docs[v.id].key !in keys;
    assert s.db.docs[v.id] == t.db.docs[v.id];
    assert s.published[VersionId(v.id, s.db.docs[v.id].updatedAt)] == Version(v.id, s.db.docs[v.id], ChunksOf(s.db, v.id));
  }

  lemma ReadStable(env: Env, s: State, t: State, p: Pid, keys: set<Key>, pr: Proc)
    requires pr.Writer? && Guarantee(s, t, p, keys) && VersionsPublished(s) && ReadInv(env, s, pr)
    ensures ReadInv(env, t, pr)
  {
    var k := KeyOf(pr.req);
    var v := pr.past.seen;
    LogPrefix(s, t, p, keys, pr.past.readAt);
    QuietStable(s, t, p, keys, pr.past.readAt, k);
    if Quiet(t.log, pr.past.readAt, |t.log|, k) {
      HoldsStable(s.db, t.db, keys, k, v);
    }
    if v.Version? && StillThere(t.db, v) {
      StillThereStable(s, t, p, keys, k, v);
    }
  }

  lemma TxStable(s: State, t: State, p: Pid, q: Pid, keys: set<Key>, pr: Proc)
    requires pr.Writer? && q != p && Guarantee(s, t, p, keys) && TxInv(s, q, pr)
    ensures TxInv(t, q, pr)
  {}

  lemma BodyStable(env: Env, s: State, t: State, p: Pid, q: Pid, keys: set<Key>, pr: Proc)
    requires pr.Writer? && q != p && Guarantee(s, t, p, keys) && BodyInv(env, s, q, pr)
    requires KeyOf(pr.req) !in keys
    ensures BodyInv(env, t, q, pr)
  {
    HoldsStable(s.db, t.db, keys, KeyOf(pr.req), pr.past.lockedSeen);
  }

  lemma WritesStable(env: Env, s: State, t: State, p: Pid, q: Pid, keys: set<Key>, pr: Proc)
    requires pr.Writer? && q != p && Guarantee(s, t, p, keys) && WritesInv(env, s, q, pr)
    ensures WritesInv(env, t, q, pr)
  {
    if IdInv(s, q, pr) {
      assert IdInv(t, q, pr);
    }
    forall n: nat | Built(s, q, pr, n)
      ensures Built(t, q, pr, n)
    {
      BuiltStable(s, t, p, q, keys, pr, n);
    }
  }

  lemma BuiltStable(s: State, t: State, p: Pid, q: Pid, keys: set<Key>, pr: Proc, n: nat)
    requires pr.Writer? && q != p && Guarantee(s, t, p, keys) && Built(s, q, pr, n)
    ensures Built(t, q, pr, n)
  {}

  lemma DoneStable(env: Env, s: State, t: State, p: Pid, q: Pid, keys: set<Key>, pr: Proc)
    requires pr.Writer? && q != p && Guarantee(s, t, p, keys)
    requires Succeeded(pr.pc) && DoneInv(env, s, q, pr)
    ensures DoneInv(env, t, q, pr)
  {
    var i := pr.past.committedAt;
    LogPrefix(s, t, p, keys, |s.log|);
    LogPrefix(s, t, p, keys, pr.past.readAt);
    assert t.log[i] == s.log[i];
    forall j | 0 <= j < |t.log| && j != i
      ensures t.log[j].pid != q
    {
      if j < |s.log| { assert t.log[j] == s.log[j]; }
    }
    if pr.mode.Rebuild? && pr.past.seen.Version? {
      forall j | pr.past.readAt <= j < i
        ensures KeyOf(pr.req) !in t.log[j].changed
      {
        assert t.log[j] == s.log[j];
      }
    }
  }

  // What the invariant says of a call survives any step of another call that leaves the
  // document alone while the call is between its locked read and its commit.
  lemma WriterStable(env: Env, s: State, t: State, p: Pid, q: Pid, keys: set<Key>, pr: Proc)
    requires pr.Writer? && q != p && Guarantee(s, t, p, keys) && VersionsPublished(s)
    requires WriterInv(env, s, q, pr)
    requires InBody(pr.pc) ==> KeyOf(pr.req) !in keys
    ensures WriterInv(env, t, q, pr)
  {
    hide CallInv, ReadInv, TxInv, BodyInv, WritesInv, DoneInv;
    CallStable(s, t, p, q, keys, pr);
    if HasRead(pr.pc) { ReadStable(env, s, t, p, keys, pr); }
    if InTx(pr.pc) { TxStable(s, t, p, q, keys, pr); }
    if InBody(pr.pc) {
      BodyStable(env, s, t, p, q, keys, pr);
      WritesStable(env, s, t, p, q, keys, pr);
    }
    if Succeeded(pr.pc) { DoneStable(env, s, t, p, q, keys, pr); }
  }
}
