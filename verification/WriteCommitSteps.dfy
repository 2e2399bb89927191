/** Each committing step is one honest atomic operation on the documents. */
module WriteCommitSteps {
  import opened Tables
  import opened AtomicDocuments
  import opened WriteProtocol
  import opened WriteInvariant
  import opened WriteGuarantee
  import opened WriteLocalSteps
  import opened WriteStatements
  import opened WriteCommits

  // A step that publishes: the data invariant, and the guarantee towards everyone else.
  ghost predicate GoodCommit(env: Env, s: State, t: State, p: Pid) {
    && |t.log| == |s.log| + 1
    && DataInv(env, t)
    && Guarantee(s, t, p, t.log[|s.log|].changed)
    && LocksInv(env, t)
    && p in t.procs && t.procs == s.procs[p := t.procs[p]]
  }

  // ---- Commit: the operation ----

  lemma NoopHonest(env: Env, m: Documents, p: Pid, pr: Proc)
    requires pr.Writer? && pr.pc.Committing? && pr.pc.action.Noop?
    requires pr.pc.chunkCount == CountOf(pr.locked) && pr.locked == SnapshotOfVersion(pr.past.lockedSeen)
    requires AgreesWith(m, KeyOf(pr.req), pr.past.lockedSeen)
    requires Decide(m, KeyOf(pr.req), MetaOf(pr.req), HashOf(env, pr.req), pr.force).Noop?
    ensures Honest(m, CommitEvent(env, p, pr))
    ensures Apply(m, CommitEvent(env, p, pr)) == m
  {
    hide Pieces;
  }

  lemma NoopIsHonest(env: Env, s: State, p: Pid, pr: Proc)
    requires pr.Writer? && pr.pc.Committing? && pr.pc.action.Noop?
    requires DataInv(env, s) && WriterInv(env, s, p, pr)
    ensures Honest(Replay(s.log), CommitEvent(env, p, pr))
    ensures Apply(Replay(s.log), CommitEvent(env, p, pr)) == Replay(s.log)
  {
    hide DataInv, CallInv, ReadInv, TxInv, BodyInv, WritesInv, Replay, Honest, Apply, Decide, CommitEvent, AgreesWith;
    BranchIsDecision(env, s, p, pr);
    NoopCount(env, s, p, pr);
    NoopHonest(env, Replay(s.log), p, pr);
  }

  lemma NoopCount(env: Env, s: State, p: Pid, pr: Proc)
    requires pr.Writer? && pr.pc.Committing? && pr.pc.action.Noop? && WriterInv(env, s, p, pr)
    ensures pr.pc.chunkCount == CountOf(pr.locked) && pr.locked == SnapshotOfVersion(pr.past.lockedSeen)
  {
    hide CallInv, ReadInv, TxInv, Holds, BranchInv;
  }

  lemma RebuildIsHonest(env: Env, m: Documents, p: Pid, pr: Proc)
    requires AtRealCommit(pr) && pr.pc.action.Reindex? && pr.pc.chunkCount == |pr.prepared| > 0
    requires Decide(m, KeyOf(pr.req), MetaOf(pr.req), HashOf(env, pr.req), pr.force).Reindex?
    requires Pieces(pr.tx.chunks) == PieceSet(pr.prepared)
    ensures Honest(m, CommitEvent(env, p, pr))
    ensures Apply(m, CommitEvent(env, p, pr))
            == m[KeyOf(pr.req) := DocumentOf(CommittedRow(env, pr), pr.tx.chunks)]
  {
    hide Decide, Pieces, PieceSet;
  }

  lemma RefreshIsHonest(env: Env, m: Documents, p: Pid, pr: Proc)
    requires AtRealCommit(pr) && pr.pc.action.MetadataRefresh?
    requires pr.past.lockedSeen.Version? && pr.locked == SnapshotOfVersion(pr.past.lockedSeen)
    requires pr.pc.chunkCount == CountOf(pr.locked)
    requires AgreesWith(m, KeyOf(pr.req), pr.past.lockedSeen)
    requires Decide(m, KeyOf(pr.req), MetaOf(pr.req), HashOf(env, pr.req), pr.force).MetadataRefresh?
    requires Pieces(pr.tx.chunks) == Pieces(pr.past.lockedSeen.chunks)
    ensures Honest(m, CommitEvent(env, p, pr))
    ensures Apply(m, CommitEvent(env, p, pr))
            == m[KeyOf(pr.req) := DocumentOf(CommittedRow(env, pr), pr.tx.chunks)]
  {
    hide Pieces;
  }

  lemma RealCommitIsHonest(env: Env, s: State, p: Pid, pr: Proc)
    requires AtRealCommit(pr) && DataInv(env, s) && WriterInv(env, s, p, pr)
    ensures pr.pc.action.MetadataRefresh? ==> pr.past.lockedSeen.Version?
    ensures Honest(Replay(s.log), CommitEvent(env, p, pr))
    ensures Apply(Replay(s.log), CommitEvent(env, p, pr))
            == Replay(s.log)[KeyOf(pr.req) := DocumentOf(CommittedRow(env, pr), pr.tx.chunks)]
  {
    hide CallInv, ReadInv, TxInv, Replay, Replaces, Honest, Apply, CommittedRow, Decide, Classify, DocumentOf,
         CommitEvent;
    BranchIsDecision(env, s, p, pr);
    if pr.pc.action.MetadataRefresh? {
      RefreshReplaces(env, s, p, pr);
      RefreshIsHonest(env, Replay(s.log), p, pr);
    } else {
      PreparedNonEmpty(env, s, p, pr);
      RebuildReplaces(env, s, p, pr);
      RebuildIsHonest(env, Replay(s.log), p, pr);
    }
  }

  // ---- Commit: what is published ----

  lemma PublishedAfter(env: Env, s: State, t: State, p: Pid, d: int, row: DocRow, cs: map<int, ChunkRow>)
    requires VersionsPublished(s) && OneReplaced(s.db, t.db, d, row, cs)
    requires t.published == s.published[VersionId(d, row.updatedAt) := Version(d, row, cs)]
    requires t.stamps == s.stamps && row.updatedAt in s.stamps
    requires forall v | v in s.published :: v.at != row.updatedAt
    ensures VersionsPublished(t)
  {
    hide ChunksOf;
  }

  lemma SourcedAfter(env: Env, s: State, t: State, d: int, row: DocRow, cs: map<int, ChunkRow>)
    requires AllSourced(env, s) && OneReplaced(s.db, t.db, d, row, cs)
    requires t.produced == s.produced && Sourced(env, s.produced, row, cs)
    ensures AllSourced(env, t)
  {
    hide ChunksOf, Sourced;
  }

  lemma IdsAfter(s: State, t: State, p: Pid, d: int, row: DocRow, tx: Tx)
    requires IdsAllocated(s) && t.db == Merge(s.db, tx) && t.docIds == s.docIds && t.chunkIds == s.chunkIds
    requires t.db.docs == s.db.docs[d := row]
    requires d in s.db.docs || (d in s.docIds && s.docIds[d] == p)
    requires forall c | c in tx.chunks :: c in s.db.chunks || (c in s.chunkIds && s.chunkIds[c] == p)
    ensures IdsAllocated(t)
    ensures forall e | e in t.db.docs && e !in s.db.docs :: e in t.docIds && t.docIds[e] == p
    ensures forall c | c in t.db.chunks && c !in s.db.chunks :: c in t.chunkIds && t.chunkIds[c] == p
  {
    MergedChunkIds(s.db, tx);
    hide Merge;
  }

  // Every id the transaction wrote is a committed row of this document or one handed to this call.
  lemma OwnIds(env: Env, s: State, p: Pid, pr: Proc)
    requires AtRealCommit(pr) && WriterInv(env, s, p, pr)
    ensures pr.docId in s.db.docs || (pr.docId in s.docIds && s.docIds[pr.docId] == p)
    ensures forall c | c in pr.tx.chunks :: c in s.db.chunks || (c in s.chunkIds && s.chunkIds[c] == p)
  {
    hide CallInv, ReadInv, TxInv, Classify, OrdinalsDistinct, Pieces, PieceSet;
    var v := pr.past.lockedSeen;
    if v.Version? {
      assert forall c | c in v.chunks :: c in ChunksOf(s.db, v.id);
    }
  }

  lemma FreeLocks(env: Env, s: State, t: State, p: Pid, next: Proc)
    requires LocksInv(env, s) && next.Writer?
    requires t.procs == s.procs[p := next] && t.advisory == Free(s.advisory, p) && t.rowLocks == Free(s.rowLocks, p)
    ensures LocksInv(env, t)
    ensures forall k | k in s.advisory && s.advisory[k] != p :: k in t.advisory && t.advisory[k] == s.advisory[k]
    ensures forall d | d in s.rowLocks && s.rowLocks[d] != p :: d in t.rowLocks && t.rowLocks[d] == s.rowLocks[d]
  {
    var u := Unlock(SetProc(s, p, next), p);
    UnlockMoves(env, s, p, next);
    LocksMoveKeeps(env, s, u, p);
  }

  // The state a real commit leaves, in the terms the proofs need.
  predicate CommittedState(s: State, t: State, p: Pid, pr: Proc, row: DocRow, e: Event)
    requires pr.Writer?
  {
    && t.db == Merge(s.db, pr.tx)
    && t.log == s.log + [e]
    && t.published == s.published[VersionId(pr.docId, row.updatedAt) := Version(pr.docId, row, pr.tx.chunks)]
    && t.docIds == s.docIds && t.chunkIds == s.chunkIds && t.stamps == s.stamps && t.produced == s.produced
    && t.advisory == Free(s.advisory, p) && t.rowLocks == Free(s.rowLocks, p)
  }

  lemma StateOfCommit(env: Env, s: State, p: Pid, pr: Proc, row: DocRow)
    requires AtRealCommit(pr) && row.updatedAt == pr.tx.stamp
    requires OneReplaced(s.db, Merge(s.db, pr.tx), pr.docId, row, pr.tx.chunks)
    ensures CommittedState(s, DoCommit(env, s, p, pr), p, pr, row, CommitEvent(env, p, pr))
  {
    hide Merge, ChunksOf, CommitEvent, Free;
  }

  lemma RealCommitState(env: Env, s: State, p: Pid, pr: Proc)
    requires AtRealCommit(pr)
    requires pr.pc.action.MetadataRefresh? ==> pr.past.lockedSeen.Version?
    requires Replaces(s.db, pr.tx, pr.docId, CommittedRow(env, pr))
    requires CommittedRow(env, pr).updatedAt == pr.tx.stamp
    ensures CommittedState(s, DoCommit(env, s, p, pr), p, pr, CommittedRow(env, pr), CommitEvent(env, p, pr))
  {
    hide Replaces, Merge, CommittedRow, CommitEvent, Free, DoCommit, OneReplaced;
    var row := CommittedRow(env, pr);
    MergedIsOneReplaced(s.db, pr.tx, pr.docId, row);
    StateOfCommit(env, s, p, pr, row);
  }

  lemma RealCommitData(env: Env, s: State, t: State, p: Pid, pr: Proc, row: DocRow, e: Event)
    requires AtRealCommit(pr) && DataInv(env, s) && WriterInv(env, s, p, pr)
    requires CommittedState(s, t, p, pr, row, e)
    requires Replaces(s.db, pr.tx, pr.docId, row) && row.updatedAt == pr.tx.stamp
    requires Sourced(env, s.produced, row, pr.tx.chunks)
    requires Honest(Replay(s.log), e)
    requires Apply(Replay(s.log), e) == Replay(s.log)[row.key := DocumentOf(row, pr.tx.chunks)]
    ensures DataInv(env, t)
  {
    hide CallInv, ReadInv, BodyInv, WritesInv, HonestLog, Honest, Replaces, Consistent, Represents, Sourced, DocumentOf;
    MergedConsistent(s.db, pr.tx, pr.docId, row);
    MergedIsOneReplaced(s.db, pr.tx, pr.docId, row);
    OneReplacedRepresents(s.db, t.db, pr.docId, row, pr.tx.chunks, Replay(s.log));
    ReplayExtend(s.log, e);
    PublishedAfter(env, s, t, p, pr.docId, row, pr.tx.chunks);
    SourcedAfter(env, s, t, pr.docId, row, pr.tx.chunks);
    OwnIds(env, s, p, pr);
    IdsAfter(s, t, p, pr.docId, row, pr.tx);
    hide WriterInv, Merge, OneReplaced, VersionsPublished, IdsAllocated, AllSourced, Apply;
  }

  lemma RealCommitGuarantee(env: Env, s: State, t: State, p: Pid, pr: Proc, row: DocRow, e: Event)
    requires AtRealCommit(pr) && DataInv(env, s) && WriterInv(env, s, p, pr)
    requires CommittedState(s, t, p, pr, row, e)
    requires Replaces(s.db, pr.tx, pr.docId, row) && row.updatedAt == pr.tx.stamp
    requires e.changed == {row.key} && e.pid == p
    ensures Guarantee(s, t, p, e.changed)
  {
    hide CallInv, ReadInv, TxInv, BodyInv, WritesInv, HonestLog, Replaces, Consistent, Represents, AllSourced,
         VersionsPublished, IdsAllocated, Merge, OneReplaced, ChangesOnly;
    MergedIsOneReplaced(s.db, pr.tx, pr.docId, row);
    OwnIds(env, s, p, pr);
    NewVersionUnpublished(s, t, p, pr, row);
    StampOfCommit(env, s, p, pr);
    hide WriterInv;
    RowOfReplaced(s.db, t.db, pr.docId, row, pr.tx.chunks);
    OneReplacedChanges(s.db, t.db, pr.docId, row, pr.tx.chunks);
    IdsAfter(s, t, p, pr.docId, row, pr.tx);
    assert t.log[..|s.log|] == s.log;
    hide DataInv;
  }

  lemma StampOfCommit(env: Env, s: State, p: Pid, pr: Proc)
    requires AtRealCommit(pr) && WriterInv(env, s, p, pr)
    ensures pr.tx.stamp in s.stamps && s.stamps[pr.tx.stamp] == p
    ensures forall v | v in s.published :: v.at != pr.tx.stamp
  {
    hide CallInv, ReadInv, BodyInv, WritesInv;
  }

  lemma RowOfReplaced(db: Tables, after: Tables, d: int, row: DocRow, cs: map<int, ChunkRow>)
    requires OneReplaced(db, after, d, row, cs)
    ensures after.docs == db.docs[d := row]
  {}

  lemma NewVersionUnpublished(s: State, t: State, p: Pid, pr: Proc, row: DocRow)
    requires pr.Writer? && TxInv(s, p, pr) && row.updatedAt == pr.tx.stamp
    requires OneReplaced(s.db, t.db, pr.docId, row, pr.tx.chunks)
    ensures forall d | d in t.db.docs && t.db.docs[d].key in {row.key} :: VersionId(d, t.db.docs[d].updatedAt) !in s.published
  {
    hide ChunksOf;
  }

  lemma CommitProcs(env: Env, s: State, p: Pid, pr: Proc)
    requires pr.Writer? && pr.pc.Committing?
    ensures var t := DoCommit(env, s, p, pr);
      && p in t.procs && t.procs == s.procs[p := t.procs[p]] && t.procs[p].Writer?
      && t.log == s.log + [CommitEvent(env, p, pr)]
      && t.advisory == Free(s.advisory, p) && t.rowLocks == Free(s.rowLocks, p)
  {
    hide CommitEvent, Merge, ChunksOf, Free;
  }

  lemma RealCommitStep(env: Env, s: State, p: Pid, pr: Proc)
    requires AtRealCommit(pr) && Inv(env, s) && p in s.procs && s.procs[p] == pr
    ensures GoodCommit(env, s, DoCommit(env, s, p, pr), p)
  {
    assert WriterInv(env, s, p, pr);
    assert CommitEvent(env, p, pr).changed == {KeyOf(pr.req)} && CommitEvent(env, p, pr).pid == p;
    hide DataInv, Guarantee, LocksInv, ProcsInv, WriterInv, CommitEvent, DoCommit, Replaces, CommittedRow, Free,
         Honest, Apply;
    var t := DoCommit(env, s, p, pr);
    RealCommitIsHonest(env, s, p, pr);
    CommitReplaces(env, s, p, pr);
    var row := CommittedRow(env, pr);
    var e := CommitEvent(env, p, pr);
    CommitProcs(env, s, p, pr);
    RealCommitState(env, s, p, pr);
    RealCommitData(env, s, t, p, pr, row, e);
    RealCommitGuarantee(env, s, t, p, pr, row, e);
    FreeLocks(env, s, t, p, t.procs[p]);
  }

  // ---- A no-op's commit ----

  lemma NothingMerged(db: Tables, t: Stamp)
    ensures Merge(db, Tx(t, map[], {}, map[])) == db
  {
    assert db.docs + map[] == db.docs && (db.chunks - {}) + map[] == db.chunks;
  }

  lemma SameTablesGuarantee(s: State, t: State, p: Pid, e: Event)
    requires t.db == s.db && t.log == s.log + [e] && e.pid == p && e.changed == {}
    requires t.published == s.published && t.docIds == s.docIds && t.chunkIds == s.chunkIds
    requires t.stamps == s.stamps && t.produced == s.produced
    requires forall k | k in s.advisory && s.advisory[k] != p :: k in t.advisory && t.advisory[k] == s.advisory[k]
    requires forall d | d in s.rowLocks && s.rowLocks[d] != p :: d in t.rowLocks && t.rowLocks[d] == s.rowLocks[d]
    ensures Guarantee(s, t, p, {})
  {
    SameTables(s.db, {});
    assert t.log[..|s.log|] == s.log;
    hide ChangesOnly;
  }

  // The no-op commit changes no row and no timestamp.
  lemma NoopCommitStep(env: Env, s: State, p: Pid, pr: Proc)
    requires pr.Writer? && pr.pc.Committing? && pr.pc.action.Noop?
    requires Inv(env, s) && p in s.procs && s.procs[p] == pr
    ensures GoodCommit(env, s, DoCommit(env, s, p, pr), p)
    ensures DoCommit(env, s, p, pr).db == s.db
  {
    assert WriterInv(env, s, p, pr);
    hide WriterInv, DoCommit, CommitEvent, Honest, Merge, DataInv, ProcsInv, Free, Apply, Replay, LocksInv, Guarantee;
    NoopIsHonest(env, s, p, pr);
    NoopWritesNothing(env, s, p, pr);
    var t := DoCommit(env, s, p, pr);
    var e := CommitEvent(env, p, pr);
    NoopState(env, s, p, pr);
    CommitProcs(env, s, p, pr);
    NoopData(env, s, t, e);
    FreeLocks(env, s, t, p, t.procs[p]);
    SameTablesGuarantee(s, t, p, e);
  }

  lemma NoopWritesNothing(env: Env, s: State, p: Pid, pr: Proc)
    requires pr.Writer? && pr.pc.Committing? && pr.pc.action.Noop? && WriterInv(env, s, p, pr)
    ensures Merge(s.db, pr.tx) == s.db
  {
    hide CallInv, ReadInv, TxInv, BodyInv;
    NothingMerged(s.db, pr.tx.stamp);
  }

  lemma NoopState(env: Env, s: State, p: Pid, pr: Proc)
    requires pr.Writer? && pr.pc.Committing? && pr.pc.action.Noop?
    requires Merge(s.db, pr.tx) == s.db
    ensures var t := DoCommit(env, s, p, pr);
      && t.db == s.db && t.published == s.published && t.docIds == s.docIds && t.chunkIds == s.chunkIds
      && t.stamps == s.stamps && t.produced == s.produced
    ensures CommitEvent(env, p, pr).changed == {} && CommitEvent(env, p, pr).pid == p
  {
    hide Merge, Free;
  }

  lemma NoopData(env: Env, s: State, t: State, e: Event)
    requires DataInv(env, s) && t.db == s.db && t.log == s.log + [e] && t.published == s.published
    requires t.docIds == s.docIds && t.chunkIds == s.chunkIds && t.stamps == s.stamps && t.produced == s.produced
    requires Honest(Replay(s.log), e) && Apply(Replay(s.log), e) == Replay(s.log)
    ensures DataInv(env, t)
  {
    hide Consistent, HonestLog, Represents, Sourced, Honest, Apply, ChunksOf, PreparedOk;
    ReplayExtend(s.log, e);
  }

  // ---- The call itself after its commit ----

  lemma RestartsAfterCommit(s: State, t: State, p: Pid, pr: Proc, next: Proc, e: Event)
    requires pr.Writer? && next.Writer? && RestartsOk(s, p, pr) && t.log == s.log + [e]
    requires next.attempt == pr.attempt
    requires next.past.restarts == pr.past.restarts && next.past.callAt == pr.past.callAt
    requires !pr.pc.Returned? && Succeeded(next.pc)
    ensures RestartsOk(t, p, next)
  {
    forall j | 0 <= j < |pr.past.restarts|
      ensures ForeignChange(t.log, p, pr.past.restarts[j].key, pr.past.restarts[j].lo, pr.past.restarts[j].hi)
    {
      var r := pr.past.restarts[j];
      var i :| r.lo <= i < r.hi && s.log[i].pid != p && r.key in s.log[i].changed;
      assert t.log[i] == s.log[i];
    }
    hide ForeignChange;
  }

  lemma DoneAfterCommit(env: Env, s: State, t: State, p: Pid, pr: Proc, next: Proc, e: Event)
    requires pr.Writer? && next.Writer? && pr.pc.Committing? && t.log == s.log + [e]
    requires NoEventsBy(s.log, p) && ReadInv(env, s, pr) && BodyInv(env, s, p, pr)
    requires pr.mode.Cheap? ==> pr.past.prepares <= pr.attempt
    requires e == CommitEvent(env, p, pr)
    requires next == pr.(pc := Returned(Ok(e.stats)), past := pr.past.(committedAt := |s.log|))
    ensures DoneInv(env, t, p, next)
  {
    var r := pr.past.readAt;
    var k := KeyOf(pr.req);
    assert t.log[..r] == s.log[..r];
    assert forall j | 0 <= j < |s.log| :: t.log[j] == s.log[j];
    if pr.mode.Rebuild? && pr.past.seen.Version? {
      assert StillThere(s.db, pr.past.seen);
      assert Quiet(s.log, r, |s.log|, k);
    }
    hide Replay, AgreesWith, Classify, BranchInv;
  }

  lemma CommitOwn(env: Env, s: State, p: Pid, pr: Proc)
    requires pr.Writer? && pr.pc.Committing? && WriterInv(env, s, p, pr)
    ensures WriterInv(env, DoCommit(env, s, p, pr), p, DoCommit(env, s, p, pr).procs[p])
  {
    hide ReadInv, BodyInv, WritesInv, TxInv, DoneInv, RestartsOk;
    var e := CommitEvent(env, p, pr);
    var t := DoCommit(env, s, p, pr);
    var next := t.procs[p];
    CommitProcs(env, s, p, pr);
    assert next == pr.(pc := Returned(Ok(e.stats)), past := pr.past.(committedAt := |s.log|));
    hide DoCommit, CommitEvent;
    RestartsAfterCommit(s, t, p, pr, next, e);
    DoneAfterCommit(env, s, t, p, pr, next, e);
  }

  // ---- Deletes ----

  function KeysOfIds(db: Tables, ids: set<int>): set<Key> {
    set d | d in ids && d in db.docs :: db.docs[d].key
  }

  lemma DeletedIds(db: Tables, ids: set<int>, d: int)
    requires UniqueKeys(db) && d in db.docs
    ensures db.docs[d].key in KeysOfIds(db, ids) <==> d in ids
  {}

  lemma DeletedKeys(db: Tables, ids: set<int>)
    requires UniqueKeys(db)
    ensures KeysOf(DeleteDocs(db, ids)) == KeysOf(db) - KeysOfIds(db, ids)
  {
    var after := DeleteDocs(db, ids);
    forall k | k in KeysOf(db) - KeysOfIds(db, ids)
      ensures k in KeysOf(after)
    {
      var d :| d in db.docs && db.docs[d].key == k;
      assert d in after.docs && after.docs[d].key == k;
    }
    forall k | k in KeysOf(after)
      ensures k in KeysOf(db) - KeysOfIds(db, ids)
    {
      var d :| d in after.docs && after.docs[d].key == k;
      DeletedIds(db, ids, d);
    }
  }

  lemma DeletedRepresents(db: Tables, ids: set<int>, m: Documents)
    requires Consistent(db) && Represents(db, m)
    ensures Represents(DeleteDocs(db, ids), m - KeysOfIds(db, ids))
  {
    var after := DeleteDocs(db, ids);
    DeleteKeepsConsistent(db, ids);
    DeletedKeys(db, ids);
    forall d | d in after.docs
      ensures db.docs[d].key !in KeysOfIds(db, ids)
    {
      DeletedIds(db, ids, d);
    }
    hide ChunksOf, Consistent, KeysOf, KeysOfIds, DocumentOf;
  }

  lemma DeletedChanges(db: Tables, ids: set<int>)
    requires Consistent(db)
    ensures ChangesOnly(db, DeleteDocs(db, ids), KeysOfIds(db, ids))
    ensures forall d | d in DeleteDocs(db, ids).docs :: db.docs[d].key !in KeysOfIds(db, ids)
  {
    DeleteKeepsConsistent(db, ids);
    forall d | d in db.docs
      ensures db.docs[d].key in KeysOfIds(db, ids) <==> d in ids
    {
      DeletedIds(db, ids, d);
    }
    hide ChunksOf, Consistent, KeysOfIds;
  }

  lemma DeleteKeepsRecords(env: Env, s: State, t: State, ids: set<int>)
    requires Consistent(s.db) && t.db == DeleteDocs(s.db, ids) && t.published == s.published && t.produced == s.produced
    requires t.stamps == s.stamps && t.docIds == s.docIds && t.chunkIds == s.chunkIds
    requires VersionsPublished(s) && AllSourced(env, s) && IdsAllocated(s)
    ensures VersionsPublished(t) && AllSourced(env, t) && IdsAllocated(t)
  {
    DeleteKeepsConsistent(s.db, ids);
    hide Consistent, ChunksOf, Sourced, PreparedOk;
  }

  lemma DeleteData(env: Env, s: State, t: State, p: Pid, ids: set<int>, e: Event)
    requires DataInv(env, s)
    requires t == s.(db := DeleteDocs(s.db, ids), procs := s.procs[p := Deleter], log := s.log + [e])
    requires Honest(Replay(s.log), e) && Apply(Replay(s.log), e) == Replay(s.log) - KeysOfIds(s.db, ids)
    ensures DataInv(env, t)
  {
    hide Consistent, HonestLog, Represents, VersionsPublished, AllSourced, IdsAllocated, Honest, Apply, KeysOfIds,
         DeleteDocs;
    DeleteKeepsConsistent(s.db, ids);
    DeletedRepresents(s.db, ids, Replay(s.log));
    DeleteKeepsRecords(env, s, t, ids);
    ReplayExtend(s.log, e);
  }

  lemma DeleteGuarantee(env: Env, s: State, t: State, p: Pid, ids: set<int>, e: Event)
    requires DataInv(env, s)
    requires t == s.(db := DeleteDocs(s.db, ids), procs := s.procs[p := Deleter], log := s.log + [e])
    requires e.pid == p && e.changed == KeysOfIds(s.db, ids)
    ensures Guarantee(s, t, p, e.changed)
  {
    DeletedChanges(s.db, ids);
    assert t.log[..|s.log|] == s.log;
    hide Consistent, HonestLog, Represents, AllSourced, ChangesOnly, KeysOfIds, ChunksOf, IdsAllocated,
         VersionsPublished;
  }

  lemma DeleterHoldsNothing(env: Env, s: State, t: State, p: Pid)
    requires LocksInv(env, s) && p !in s.procs
    requires t.procs == s.procs[p := Deleter] && t.advisory == s.advisory && t.rowLocks == s.rowLocks
    ensures LocksInv(env, t)
  {
    forall k | k in t.advisory
      ensures AdvisoryHolder(env, t, t.advisory[k], k)
    {
      assert AdvisoryHolder(env, s, s.advisory[k], k);
    }
    forall d | d in t.rowLocks
      ensures RowHolder(t, t.rowLocks[d], d)
    {
      assert RowHolder(s, s.rowLocks[d], d);
    }
  }

  lemma DeleteStep(env: Env, s: State, t: State, p: Pid, ids: set<int>, e: Event)
    requires Inv(env, s) && p !in s.procs
    requires t == s.(db := DeleteDocs(s.db, ids), procs := s.procs[p := Deleter], log := s.log + [e])
    requires e.pid == p && e.changed == KeysOfIds(s.db, ids)
    requires Honest(Replay(s.log), e) && Apply(Replay(s.log), e) == Replay(s.log) - KeysOfIds(s.db, ids)
    ensures GoodCommit(env, s, t, p)
  {
    hide DataInv, Guarantee, LocksInv, ProcsInv, Honest, Apply, DeleteDocs, KeysOfIds;
    DeleteData(env, s, t, p, ids, e);
    DeleteGuarantee(env, s, t, p, ids, e);
    DeleterHoldsNothing(env, s, t, p);
  }

  lemma DeleteDocumentHonest(s: State, p: Pid, k: Key, snap: Snapshot)
    requires UniqueKeys(s.db) && Represents(s.db, Replay(s.log)) && Loads(s.db.docs, k, snap)
    ensures var ids := if snap.Present? then {snap.id} else {};
      var e := Removed(p, k, if snap.Present? then {k} else {});
      && e.changed == KeysOfIds(s.db, ids)
      && Honest(Replay(s.log), e)
      && Apply(Replay(s.log), e) == Replay(s.log) - KeysOfIds(s.db, ids)
  {
    hide DocumentOf, ChunksOf, Replay;
    if snap.Present? {
      assert s.db.docs[snap.id].key in KeysOf(s.db);
    } else {
      assert k !in KeysOf(s.db);
    }
  }

  lemma DeleteDocumentStep(env: Env, s: State, p: Pid, k: Key, snap: Snapshot)
    requires Inv(env, s) && p !in s.procs && Loads(s.db.docs, k, snap)
    ensures GoodCommit(env, s, DoDeleteDocument(s, p, k, snap), p)
  {
    DeleteDocumentHonest(s, p, k, snap);
    hide Honest, Apply, DeleteDocs, KeysOfIds, Loads, Inv;
    DeleteStep(env, s, DoDeleteDocument(s, p, k, snap), p, if snap.Present? then {snap.id} else {},
               Removed(p, k, if snap.Present? then {k} else {}));
  }

  lemma DeleteCollectionHonest(s: State, p: Pid, c: string)
    requires Represents(s.db, Replay(s.log))
    ensures var ids := IdsIn(s.db, c);
      var e := Dropped(p, c, KeysOfIds(s.db, ids));
      && Honest(Replay(s.log), e)
      && Apply(Replay(s.log), e) == Replay(s.log) - KeysOfIds(s.db, ids)
  {
    hide DocumentOf, ChunksOf, Replay;
    var gone := KeysOfIds(s.db, IdsIn(s.db, c));
    forall k | k in KeysOf(s.db)
      ensures k in gone <==> k.collection == c
    {
      var d :| d in s.db.docs && s.db.docs[d].key == k;
      if k.collection == c { assert d in IdsIn(s.db, c); }
    }
    assert gone <= KeysOf(s.db);
  }

  lemma DeleteCollectionStep(env: Env, s: State, p: Pid, c: string)
    requires Inv(env, s) && p !in s.procs
    ensures GoodCommit(env, s, DoDeleteCollection(s, p, c), p)
  {
    var ids := IdsIn(s.db, c);
    assert (set d | d in ids :: s.db.docs[d].key) == KeysOfIds(s.db, ids);
    DeleteCollectionHonest(s, p, c);
    hide Honest, Apply, DeleteDocs, KeysOfIds, IdsIn, Inv;
    DeleteStep(env, s, DoDeleteCollection(s, p, c), p, ids, Dropped(p, c, KeysOfIds(s.db, ids)));
  }
}
