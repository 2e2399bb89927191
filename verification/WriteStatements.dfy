/** The statements of a transaction, one lemma each: what the transaction has written so far. */
module WriteStatements {
  import opened Printers
  import opened Requests
  import opened Tables
  import opened AtomicDocuments
  import opened WriteProtocol
  import opened WriteInvariant
  import opened WriteGuarantee
  import opened WriteLocalSteps
  import opened WriteBodySteps

  lemma BodyKept(env: Env, s: State, t: State, p: Pid, pr: Proc, next: Proc)
    requires pr.Writer? && next.Writer? && BodyInv(env, s, p, pr) && t.db == s.db
    requires next.req == pr.req && next.mode == pr.mode && next.locked == pr.locked && next.past == pr.past
    requires pr.locked.Present? ==> pr.locked.id in t.rowLocks && t.rowLocks[pr.locked.id] == p
    requires BranchInv(env, next)
    ensures BodyInv(env, t, p, next)
  {}

  // ---- What each statement computes, given what the committed document is ----

  lemma OwnChunks(db: Tables, k: Key, v: Version)
    requires ParentsAgree(db) && Holds(db, k, v) && v.Version?
    ensures v.chunks.Keys == set c | c in db.chunks && db.chunks[c].collection == k.collection && db.chunks[c].documentId == v.id
    ensures forall c | c in v.chunks :: c in db.chunks && v.chunks[c] == db.chunks[c]
  {
    forall c | c in db.chunks && db.chunks[c].documentId == v.id
      ensures c in v.chunks && db.chunks[c].collection == k.collection
    {
      assert c in ChunksOf(db, v.id);
      assert ChunkMatches(db.chunks[c], v.id, db.docs[v.id]);
    }
    assert forall c | c in v.chunks :: c in ChunksOf(db, v.id);
  }

  lemma NoOwnChunks(db: Tables, d: int)
    requires ParentsAgree(db) && d !in db.docs
    ensures forall c | c in db.chunks :: db.chunks[c].documentId != d
    ensures ChunksOf(db, d) == map[]
  {
    assert forall c | c in db.chunks :: db.chunks[c].documentId in db.docs;
  }

  lemma RefreshDocumentEffect(db: Tables, t: Stamp, k: Key, v: Version, meta: Meta)
    requires Holds(db, k, v) && v.Version?
    ensures RefreshDocument(db, Tx(t, map[], {}, map[]), k.collection, v.id, meta)
            == Tx(t, map[v.id := RefreshedRow(v.row, meta, t)], {}, map[])
  {
    assert db.docs + map[] == db.docs;
  }

  lemma NothingWritten(db: Tables, t: Stamp, docs: map<int, DocRow>)
    ensures VisibleChunks(db, Tx(t, docs, {}, map[])) == db.chunks
  {
    assert (db.chunks - {}) + map[] == db.chunks;
  }

  lemma RefreshChunksEffect(db: Tables, t: Stamp, docs: map<int, DocRow>, k: Key, v: Version, meta: Meta)
    requires ParentsAgree(db) && Holds(db, k, v) && v.Version?
    ensures RefreshChunks(db, Tx(t, docs, {}, map[]), k.collection, v.id, meta)
            == Tx(t, docs, {}, RefreshedChunks(v.chunks, meta, t))
  {
    OwnChunks(db, k, v);
    NothingWritten(db, t, docs);
    hide ParentsAgree, Holds, VisibleChunks;
    var out := RefreshChunks(db, Tx(t, docs, {}, map[]), k.collection, v.id, meta).chunks;
    var all := RefreshedChunks(v.chunks, meta, t);
    forall c
      ensures c in out <==> c in all
      ensures c in out ==> out[c] == all[c]
    {
      assert c in v.chunks.Keys <==> c in db.chunks && db.chunks[c].collection == k.collection && db.chunks[c].documentId == v.id;
    }
    assert out == all;
  }

  lemma UpsertRowEffect(db: Tables, t: Stamp, k: Key, v: Version, meta: Meta, h: string, conflict: Snapshot, newId: int)
    requires UniqueKeys(db) && Holds(db, k, v) && Loads(VisibleDocs(db, Tx(t, map[], {}, map[])), k, conflict)
    ensures conflict == SnapshotOfVersion(v)
    ensures var d := if v.Version? then v.id else newId;
      UpsertRow(db, Tx(t, map[], {}, map[]), k, meta, h, conflict, newId)
      == Tx(t, map[d := UpsertedRow(v, k, meta, h, t)], {}, map[])
  {
    assert db.docs + map[] == db.docs;
    LoadDetermines(db, k, v, conflict);
  }

  lemma DeleteChunksEffect(db: Tables, t: Stamp, docs: map<int, DocRow>, k: Key, v: Version, d: int)
    requires ParentsAgree(db) && Holds(db, k, v)
    requires if v.Version? then d == v.id else d !in db.docs
    ensures DeleteChunks(db, Tx(t, docs, {}, map[]), k.collection, d) == Tx(t, docs, OldChunks(v), map[])
  {
    NothingWritten(db, t, docs);
    hide VisibleChunks;
    if v.Version? { OwnChunks(db, k, v); } else { NoOwnChunks(db, d); }
  }

  lemma BuiltNothing(s: State, p: Pid, pr: Proc)
    requires pr.Writer? && pr.tx.chunks == map[]
    ensures Built(s, p, pr, 0)
  {
    NothingInserted(s.db, pr.tx, pr.req, pr.docId, pr.prepared);
    hide InsertedUpTo;
  }

  lemma PieceSetSnoc(ps: seq<Piece>, n: nat)
    requires n < |ps|
    ensures PieceSet(ps[..n + 1]) == PieceSet(ps[..n]) + {ps[n]}
  {
    assert ps[..n + 1] == ps[..n] + [ps[n]];
    var a, b := ps[..n + 1], ps[..n];
    assert forall x | x in PieceSet(a) :: x in PieceSet(b) + {ps[n]};
    forall x | x in PieceSet(b) + {ps[n]}
      ensures x in PieceSet(a)
    {
      if x == ps[n] { assert a[n] == x; }
      else {
        var i :| 0 <= i < |b| && b[i] == x;
        assert a[i] == x;
      }
    }
  }

  lemma PiecesSnoc(cs: map<int, ChunkRow>, c: int, row: ChunkRow)
    requires c !in cs
    ensures Pieces(cs[c := row]) == Pieces(cs) + {row.piece}
    ensures |cs[c := row]| == |cs| + 1
  {
    var m := cs[c := row];
    assert c in m && m[c].piece == row.piece;
    forall x | x in Pieces(cs)
      ensures x in Pieces(m)
    {
      var b :| b in cs && cs[b].piece == x;
      assert b in m && m[b].piece == x;
    }
  }

  // The uniqueness check on insert keeps the new chunks' ordinals distinct.
  lemma OrdinalsSnoc(db: Tables, tx: Tx, c: int, row: ChunkRow)
    requires OrdinalsDistinct(tx.chunks) && c !in tx.chunks && Insertable(db, tx, row)
    requires forall b | b in tx.chunks :: tx.chunks[b].collection == row.collection && tx.chunks[b].externalId == row.externalId
    ensures OrdinalsDistinct(tx.chunks[c := row])
  {
    forall b | b in tx.chunks
      ensures tx.chunks[b].piece.ordinal != row.piece.ordinal
    {
      assert b in VisibleChunks(db, tx) && VisibleChunks(db, tx)[b] == tx.chunks[b];
      assert !Clash(tx.chunks[b], row);
    }
  }

  lemma InsertOne(db: Tables, tx: Tx, r: Request, id: int, ps: seq<Piece>, n: nat, c: int)
    requires InsertedUpTo(db, tx, r, id, ps, n) && n < |ps| && c !in db.chunks && c !in tx.chunks
    requires Insertable(db, tx, NewChunk(tx, r, id, ps[n]))
    ensures InsertedUpTo(db, tx.(chunks := tx.chunks[c := NewChunk(tx, r, id, ps[n])]), r, id, ps, n + 1)
  {
    hide ChunkKey;
    var row := NewChunk(tx, r, id, ps[n]);
    OrdinalsSnoc(db, tx, c, row);
    PiecesSnoc(tx.chunks, c, row);
    PieceSetSnoc(ps, n);
    hide Pieces, PieceSet, OrdinalsDistinct, Insertable;
  }

  lemma BuiltSnoc(s: State, t: State, p: Pid, pr: Proc, next: Proc, n: nat, newId: int)
    requires pr.Writer? && next.Writer? && Built(s, p, pr, n) && n < |pr.prepared|
    requires newId !in s.chunkIds && IdsAllocated(s)
    requires t.chunkIds == s.chunkIds[newId := p] && t.db == s.db
    requires next.req == pr.req && next.docId == pr.docId && next.prepared == pr.prepared
    requires var row := NewChunk(pr.tx, pr.req, pr.docId, pr.prepared[n]);
      && Insertable(s.db, pr.tx, row)
      && next.tx == pr.tx.(chunks := pr.tx.chunks[newId := row])
    ensures Built(t, p, next, n + 1)
  {
    assert newId !in pr.tx.chunks && newId !in s.db.chunks;
    InsertOne(s.db, pr.tx, pr.req, pr.docId, pr.prepared, n, newId);
    hide InsertedUpTo, Insertable, ChunkKey;
  }

  // A chunk already there that is not one of this transaction's belongs to another document.
  lemma OthersDoNotClash(db: Tables, tx: Tx, r: Request, v: Version, c: int, row: ChunkRow)
    requires UniqueKeys(db) && ParentsAgree(db) && Holds(db, KeyOf(r), v) && tx.gone == OldChunks(v)
    requires c in VisibleChunks(db, tx) && c !in tx.chunks
    requires row.collection == r.collection && row.externalId == r.documentId
    requires row.chunkKey == ChunkKey(row.externalId, row.piece.ordinal)
    ensures !Clash(VisibleChunks(db, tx)[c], row)
  {
    assert c in db.chunks && c !in tx.gone && VisibleChunks(db, tx)[c] == db.chunks[c];
    var x := db.chunks[c];
    var doc := db.docs[x.documentId];
    assert ChunkMatches(x, x.documentId, doc);
    assert doc.key == KeyOf(r) <==> (x.collection == row.collection && x.externalId == row.externalId);
    assert c in ChunksOf(db, x.documentId);
    assert doc.key != KeyOf(r);
    ChunkKeyInjective(x.externalId, x.piece.ordinal, row.externalId, row.piece.ordinal);
    hide ChunkKey, ParentsAgree, UniqueKeys, Holds;
  }

  lemma OwnClash(db: Tables, tx: Tx, r: Request, id: int, ps: seq<Piece>, n: nat, c: int, p: Piece)
    requires InsertedUpTo(db, tx, r, id, ps, n) && c in tx.chunks
    ensures c in VisibleChunks(db, tx) && VisibleChunks(db, tx)[c] == tx.chunks[c]
    ensures Clash(tx.chunks[c], NewChunk(tx, r, id, p)) <==> tx.chunks[c].piece.ordinal == p.ordinal
  {
    ChunkKeyInjective(r.documentId, tx.chunks[c].piece.ordinal, r.documentId, p.ordinal);
    hide ChunkKey, Pieces, PieceSet, OrdinalsDistinct;
  }

  lemma OrdinalsSoFar(db: Tables, tx: Tx, r: Request, id: int, ps: seq<Piece>, n: nat, ordinal: int)
    requires InsertedUpTo(db, tx, r, id, ps, n)
    ensures (exists c | c in tx.chunks :: tx.chunks[c].piece.ordinal == ordinal) <==> (exists j | 0 <= j < n :: ps[j].ordinal == ordinal)
  {
    var before := ps[..n];
    hide NewChunk, OrdinalsDistinct;
    forall c | c in tx.chunks
      ensures exists j | 0 <= j < n :: ps[j] == tx.chunks[c].piece
    {
      assert tx.chunks[c].piece in PieceSet(before);
      var j :| 0 <= j < |before| && before[j] == tx.chunks[c].piece;
      assert ps[j] == before[j];
    }
    forall j | 0 <= j < n
      ensures exists c | c in tx.chunks :: tx.chunks[c].piece == ps[j]
    {
      assert before[j] in PieceSet(before);
      assert ps[j] in Pieces(tx.chunks);
    }
  }

  // The next piece fits in exactly when its ordinal is new.
  lemma FitsExactly(db: Tables, tx: Tx, r: Request, v: Version, id: int, ps: seq<Piece>, n: nat)
    requires UniqueKeys(db) && ParentsAgree(db) && Holds(db, KeyOf(r), v) && tx.gone == OldChunks(v)
    requires InsertedUpTo(db, tx, r, id, ps, n) && n < |ps|
    ensures Insertable(db, tx, NewChunk(tx, r, id, ps[n])) <==> forall j | 0 <= j < n :: ps[j].ordinal != ps[n].ordinal
  {
    var row := NewChunk(tx, r, id, ps[n]);
    OrdinalsSoFar(db, tx, r, id, ps, n, ps[n].ordinal);
    hide UniqueKeys, ParentsAgree, Holds, Clash, VisibleChunks, InsertedUpTo, ChunkKey;
    forall c | c in VisibleChunks(db, tx) && c !in tx.chunks
      ensures !Clash(VisibleChunks(db, tx)[c], row)
    {
      OthersDoNotClash(db, tx, r, v, c, row);
    }
    forall c | c in tx.chunks
      ensures c in VisibleChunks(db, tx)
      ensures Clash(VisibleChunks(db, tx)[c], row) <==> tx.chunks[c].piece.ordinal == ps[n].ordinal
    {
      OwnClash(db, tx, r, id, ps, n, c, ps[n]);
    }
  }

  lemma NothingInserted(db: Tables, tx: Tx, r: Request, id: int, ps: seq<Piece>)
    requires tx.chunks == map[]
    ensures InsertedUpTo(db, tx, r, id, ps, 0)
  {}

  lemma SetCountEffect(db: Tables, tx: Tx, k: Key, d: int, row: DocRow, n: int)
    requires tx.docs == map[d := row] && row.key == k && row.updatedAt == tx.stamp
    ensures SetCount(db, tx, k.collection, d, n) == tx.(docs := map[d := row.(chunkCount := n)])
  {}

  // ---- The steps ----

  // What a statement leaves alone.
  predicate SameButWrites(pr: Proc, next: Proc)
    requires pr.Writer?
  {
    && next.Writer? && InBody(next.pc)
    && next.req == pr.req && next.force == pr.force && next.attempt == pr.attempt && next.mode == pr.mode
    && next.expected == pr.expected && next.prepared == pr.prepared && next.tx.stamp == pr.tx.stamp
    && next.locked == pr.locked && next.past == pr.past
  }

  predicate OnlyAllocates(s: State, t: State, p: Pid, next: Proc) {
    && t.db == s.db && t.log == s.log && t.published == s.published && t.produced == s.produced
    && t.stamps == s.stamps && t.advisory == s.advisory && t.rowLocks == s.rowLocks
    && t.procs == s.procs[p := next]
    && ExtendsBy(s.docIds, t.docIds, p) && ExtendsBy(s.chunkIds, t.chunkIds, p)
  }

  // A statement whose writes are as described is a good step.
  lemma StatementGood(env: Env, s: State, t: State, p: Pid, pr: Proc, next: Proc)
    requires LocksInv(env, s) && p in s.procs && s.procs[p] == pr && pr.Writer? && InBody(pr.pc)
    requires WriterInv(env, s, p, pr)
    requires SameButWrites(pr, next) && OnlyAllocates(s, t, p, next)
    requires BranchInv(env, next) && WritesInv(env, t, p, next)
    ensures GoodStep(env, s, t, p)
  {
    hide CallInv, ReadInv, TxInv, WritesInv, BranchInv, GoodStep, LocksInv;
    assert BodyInv(env, s, p, pr);
    BodyKept(env, s, t, p, pr, next);
    hide BodyInv;
    SameLocks(env, s, p, next);
    LocksAgree(env, s, SetProc(s, p, next), t, p);
    hide LocksMove;
    BodyStepGood(env, s, t, p, pr, next);
  }

  lemma RefreshDocumentStep(env: Env, s: State, p: Pid, pr: Proc)
    requires Inv(env, s) && WriterAt(s, p, RefreshingDocument) && s.procs[p] == pr
    ensures GoodStep(env, s, RefreshDocumentNow(s, p, pr), p)
  {
    hide DataInv, LocksInv, CallInv, ReadInv, TxInv, Classify, GoodStep;
    assert WriterInv(env, s, p, pr);
    var t := RefreshDocumentNow(s, p, pr);
    RefreshDocumentEffect(s.db, pr.tx.stamp, KeyOf(pr.req), pr.past.lockedSeen, MetaOf(pr.req));
    StatementGood(env, s, t, p, pr, t.procs[p]);
  }

  lemma WritesOfRefreshChunks(env: Env, s: State, p: Pid, pr: Proc)
    requires pr.Writer? && pr.pc.RefreshingChunks? && ParentsAgree(s.db)
    requires Holds(s.db, KeyOf(pr.req), pr.past.lockedSeen) && WritesInv(env, s, p, pr)
    ensures WritesInv(env, RefreshChunksNow(s, p, pr), p, RefreshChunksNow(s, p, pr).procs[p])
  {
    RefreshChunksEffect(s.db, pr.tx.stamp, pr.tx.docs, KeyOf(pr.req), pr.past.lockedSeen, MetaOf(pr.req));
    hide ParentsAgree, RefreshChunks, Holds, RefreshedChunks, RefreshedRow;
  }

  lemma RefreshChunksStep(env: Env, s: State, p: Pid, pr: Proc)
    requires Inv(env, s) && WriterAt(s, p, RefreshingChunks) && s.procs[p] == pr
    ensures GoodStep(env, s, RefreshChunksNow(s, p, pr), p)
  {
    hide LocksInv, CallInv, ReadInv, TxInv, WritesInv, Classify, GoodStep, RefreshChunks;
    assert WriterInv(env, s, p, pr);
    WritesOfRefreshChunks(env, s, p, pr);
    hide DataInv;
    StatementGood(env, s, RefreshChunksNow(s, p, pr), p, pr, RefreshChunksNow(s, p, pr).procs[p]);
  }

  lemma WritesOfUpsert(env: Env, s: State, p: Pid, pr: Proc, conflict: Snapshot, newId: int)
    requires pr.Writer? && pr.pc.UpsertingRow? && UniqueKeys(s.db) && IdsAllocated(s)
    requires Holds(s.db, KeyOf(pr.req), pr.past.lockedSeen) && WritesInv(env, s, p, pr)
    requires Loads(VisibleDocs(s.db, pr.tx), KeyOf(pr.req), conflict)
    requires conflict.Absent? ==> newId !in s.docIds
    ensures var t := DoUpsert(s, p, pr, conflict, newId, HashOf(env, pr.req)); WritesInv(env, t, p, t.procs[p])
    ensures conflict == SnapshotOfVersion(pr.past.lockedSeen)
  {
    UpsertRowEffect(s.db, pr.tx.stamp, KeyOf(pr.req), pr.past.lockedSeen, MetaOf(pr.req), HashOf(env, pr.req), conflict, newId);
    assert conflict.Absent? ==> newId !in s.db.docs;
    hide UniqueKeys, IdsAllocated, UpsertRow, Holds, Loads, UpsertedRow;
  }

  lemma UpsertBranch(env: Env, pr: Proc, next: Proc)
    requires pr.Writer? && next.Writer? && BranchInv(env, pr) && pr.pc.UpsertingRow? && next.pc.DeletingChunks? && next.mode == pr.mode
    ensures pr.mode.Rebuild? && BranchInv(env, next)
  {
    hide Classify;
  }

  lemma UpsertStep(env: Env, s: State, p: Pid, pr: Proc, conflict: Snapshot, newId: int)
    requires Inv(env, s) && WriterAt(s, p, UpsertingRow) && s.procs[p] == pr
    requires Loads(VisibleDocs(s.db, pr.tx), KeyOf(pr.req), conflict)
    requires conflict.Absent? ==> newId !in s.docIds
    ensures GoodStep(env, s, DoUpsert(s, p, pr, conflict, newId, HashOf(env, pr.req)), p)
  {
    hide LocksInv, CallInv, ReadInv, TxInv, WritesInv, Classify, GoodStep, UpsertRow, HonestLog, Represents,
         VersionsPublished, AllSourced, IdsAllocated, Holds, Loads, UniqueKeys, ParentsAgree, DocumentWhole, VisibleDocs,
         BranchInv;
    assert WriterInv(env, s, p, pr);
    var t := DoUpsert(s, p, pr, conflict, newId, HashOf(env, pr.req));
    WritesOfUpsert(env, s, p, pr, conflict, newId);
    hide DataInv;
    assert conflict.Present? ==> s.rowLocks[conflict.id := p] == s.rowLocks;
    assert pr.mode.Rebuild? && BranchInv(env, t.procs[p]) by { UpsertBranch(env, pr, t.procs[p]); }
    StatementGood(env, s, t, p, pr, t.procs[p]);
  }

  lemma DeletedTx(env: Env, s: State, p: Pid, pr: Proc)
    requires pr.Writer? && pr.pc.DeletingChunks? && ParentsAgree(s.db)
    requires Holds(s.db, KeyOf(pr.req), pr.past.lockedSeen) && WritesInv(env, s, p, pr)
    ensures DeleteChunks(s.db, pr.tx, pr.req.collection, pr.docId)
            == Tx(pr.tx.stamp, map[pr.docId := NewRow(env, pr)], OldChunks(pr.past.lockedSeen), map[])
    ensures IdInv(s, p, pr)
  {
    hide NewRow, Built, OldChunks, ParentsAgree, DeleteChunks;
    assert IdInv(s, p, pr);
    DeleteChunksEffect(s.db, pr.tx.stamp, pr.tx.docs, KeyOf(pr.req), pr.past.lockedSeen, pr.docId);
  }

  lemma WritesOfDelete(env: Env, s: State, p: Pid, pr: Proc)
    requires pr.Writer? && pr.pc.DeletingChunks? && ParentsAgree(s.db) && |pr.prepared| > 0
    requires Holds(s.db, KeyOf(pr.req), pr.past.lockedSeen) && WritesInv(env, s, p, pr)
    ensures WritesInv(env, DeleteChunksNow(s, p, pr), p, DeleteChunksNow(s, p, pr).procs[p])
  {
    DeletedTx(env, s, p, pr);
    hide WritesInv, Built, OldChunks, ParentsAgree, DeleteChunks, Holds, NewRow, IdInv;
    var t := DeleteChunksNow(s, p, pr);
    var next := t.procs[p];
    BuiltNothing(t, p, next);
    SameId(s, t, p, pr, next);
    SameNewRow(env, pr, next);
    InsertingHolds(env, t, p, next);
  }

  lemma InsertingHolds(env: Env, t: State, p: Pid, next: Proc)
    requires next.Writer? && next.pc == InsertingChunk(0) && |next.prepared| > 0
    requires IdInv(t, p, next) && Built(t, p, next, 0)
    requires next.tx == Tx(next.tx.stamp, map[next.docId := NewRow(env, next)], OldChunks(next.past.lockedSeen), map[])
    ensures WritesInv(env, t, p, next)
  {
    hide IdInv, Built, NewRow, OldChunks;
  }

  lemma SameNewRow(env: Env, pr: Proc, next: Proc)
    requires pr.Writer? && next.Writer?
    requires next.req == pr.req && next.tx.stamp == pr.tx.stamp && next.past == pr.past
    ensures NewRow(env, next) == NewRow(env, pr)
  {}

  lemma SameId(s: State, t: State, p: Pid, pr: Proc, next: Proc)
    requires pr.Writer? && next.Writer? && IdInv(s, p, pr)
    requires t.db == s.db && t.docIds == s.docIds && next.docId == pr.docId && next.past == pr.past
    ensures IdInv(t, p, next)
  {}

  lemma DeleteChunksStep(env: Env, s: State, p: Pid, pr: Proc)
    requires Inv(env, s) && WriterAt(s, p, DeletingChunks) && s.procs[p] == pr
    ensures GoodStep(env, s, DeleteChunksNow(s, p, pr), p)
  {
    hide LocksInv, CallInv, ReadInv, TxInv, WritesInv, Classify, GoodStep, DeleteChunks, HonestLog, Represents,
         VersionsPublished, AllSourced;
    assert WriterInv(env, s, p, pr);
    PreparedNonEmpty(env, s, p, pr);
    WritesOfDelete(env, s, p, pr);
    hide DataInv, PreparedOk;
    StatementGood(env, s, DeleteChunksNow(s, p, pr), p, pr, DeleteChunksNow(s, p, pr).procs[p]);
  }

  lemma PreparedNonEmpty(env: Env, s: State, p: Pid, pr: Proc)
    requires AllSourced(env, s) && pr.Writer? && InBody(pr.pc) && pr.mode.Rebuild? && ReadInv(env, s, pr)
    ensures PreparedOk(env, pr.prepared) && |pr.prepared| > 0
    ensures Production(pr.req.content, pr.prepared) in s.produced
  {
    hide Replay, AgreesWith, Holds, Quiet, StillThere, Classify, Sourced;
    var x := Production(pr.req.content, pr.prepared);
    assert x in s.produced;
  }

  lemma WritesOfInsert(env: Env, s: State, p: Pid, pr: Proc, newId: int)
    requires pr.Writer? && pr.pc.InsertingChunk? && IdsAllocated(s) && WritesInv(env, s, p, pr)
    requires pr.pc.next < |pr.prepared| && newId !in s.chunkIds
    requires Insertable(s.db, pr.tx, NewChunk(pr.tx, pr.req, pr.docId, pr.prepared[pr.pc.next]))
    ensures WritesInv(env, DoInsert(s, p, pr, newId), p, DoInsert(s, p, pr, newId).procs[p])
  {
    hide Built, Insertable, NewChunk;
    var t := DoInsert(s, p, pr, newId);
    BuiltSnoc(s, t, p, pr, t.procs[p], pr.pc.next, newId);
  }

  lemma InsertStep(env: Env, s: State, p: Pid, pr: Proc, newId: int)
    requires Inv(env, s) && p in s.procs && s.procs[p] == pr && pr.Writer? && pr.pc.InsertingChunk?
    requires pr.pc.next < |pr.prepared| && newId !in s.chunkIds
    requires Insertable(s.db, pr.tx, NewChunk(pr.tx, pr.req, pr.docId, pr.prepared[pr.pc.next]))
    ensures GoodStep(env, s, DoInsert(s, p, pr, newId), p)
  {
    hide LocksInv, CallInv, ReadInv, TxInv, WritesInv, Classify, GoodStep, Insertable, NewChunk;
    assert WriterInv(env, s, p, pr);
    WritesOfInsert(env, s, p, pr, newId);
    hide DataInv;
    StatementGood(env, s, DoInsert(s, p, pr, newId), p, pr, DoInsert(s, p, pr, newId).procs[p]);
  }

  lemma WritesOfSetCount(env: Env, s: State, p: Pid, pr: Proc)
    requires pr.Writer? && pr.pc.SettingCount? && WritesInv(env, s, p, pr) && NewRow(env, pr).key == KeyOf(pr.req)
    ensures WritesInv(env, SetCountNow(s, p, pr), p, SetCountNow(s, p, pr).procs[p])
  {
    hide OldChunks, Built, IdInv, SetCount;
    var t := SetCountNow(s, p, pr);
    var next := t.procs[p];
    SetCountEffect(s.db, pr.tx, KeyOf(pr.req), pr.docId, NewRow(env, pr), |pr.prepared|);
    SameBuilt(s, t, p, pr, next, |pr.prepared|);
    SameId(s, t, p, pr, next);
    SameNewRow(env, pr, next);
    hide SetCountNow, NewRow;
  }

  lemma SameBuilt(s: State, t: State, p: Pid, pr: Proc, next: Proc, n: nat)
    requires pr.Writer? && next.Writer? && Built(s, p, pr, n)
    requires t.db == s.db && t.chunkIds == s.chunkIds && next.req == pr.req && next.docId == pr.docId
    requires next.prepared == pr.prepared && next.tx == pr.tx.(docs := next.tx.docs)
    ensures Built(t, p, next, n)
  {
    hide Pieces, PieceSet, OrdinalsDistinct;
  }

  lemma SetCountStep(env: Env, s: State, p: Pid, pr: Proc)
    requires Inv(env, s) && WriterAt(s, p, SettingCount) && s.procs[p] == pr
    ensures GoodStep(env, s, SetCountNow(s, p, pr), p)
  {
    hide DataInv, LocksInv, CallInv, ReadInv, TxInv, WritesInv, Classify, GoodStep, SetCount;
    assert WriterInv(env, s, p, pr);
    assert NewRow(env, pr).key == KeyOf(pr.req);
    WritesOfSetCount(env, s, p, pr);
    StatementGood(env, s, SetCountNow(s, p, pr), p, pr, SetCountNow(s, p, pr).procs[p]);
  }
}
