/** The steps that change committed rows: a write's commit and the two deletes. */
module WriteCommits {
  import opened Printers
  import opened Requests
  import opened Tables
  import opened AtomicDocuments
  import opened WriteProtocol
  import opened WriteInvariant
  import opened WriteGuarantee
  import opened WriteStatements

  // ---- Replacing one document ----

  // The transaction rewrites the row of document d, the only one with its key.
  predicate ReplacesRow(db: Tables, tx: Tx, d: int, row: DocRow) {
    && tx.docs == map[d := row]
    && (forall e | e in db.docs :: db.docs[e].key == row.key <==> e == d)
  }

  // And it replaces exactly that document's chunks.
  predicate ReplacesChunks(db: Tables, tx: Tx, d: int, row: DocRow) {
    && tx.gone <= ChunksOf(db, d).Keys
    && ChunksOf(db, d).Keys <= tx.gone + tx.chunks.Keys
    && (forall c | c in tx.chunks && c in db.chunks :: db.chunks[c].documentId == d)
    && (forall c | c in tx.chunks :: ChunkMatches(tx.chunks[c], d, row))
    && row.chunkCount > 0 && |tx.chunks| == row.chunkCount
    && OrdinalsDistinct(tx.chunks)
  }

  predicate Replaces(db: Tables, tx: Tx, d: int, row: DocRow) {
    ReplacesRow(db, tx, d, row) && ReplacesChunks(db, tx, d, row)
  }

  lemma MergedChunk(db: Tables, tx: Tx, c: int)
    ensures c in Merge(db, tx).chunks <==> c in tx.chunks || (c in db.chunks && c !in tx.gone)
    ensures c in tx.chunks ==> Merge(db, tx).chunks[c] == tx.chunks[c]
    ensures c in db.chunks && c !in tx.gone && c !in tx.chunks ==> Merge(db, tx).chunks[c] == db.chunks[c]
  {}

  // Where the merged chunks of one document come from, given minimal facts about the writes.
  lemma MergedOwnChunks(db: Tables, tx: Tx, d: int)
    requires ChunksOf(db, d).Keys <= tx.gone + tx.chunks.Keys
    requires forall c | c in tx.chunks :: tx.chunks[c].documentId == d
    ensures ChunksOf(Merge(db, tx), d) == tx.chunks
  {
    var own := ChunksOf(Merge(db, tx), d);
    forall c
      ensures c in own <==> c in tx.chunks
      ensures c in own ==> own[c] == tx.chunks[c]
    {
      MergedChunk(db, tx, c);
      assert c in db.chunks && db.chunks[c].documentId == d ==> c in ChunksOf(db, d);
    }
  }

  lemma MergedOtherChunks(db: Tables, tx: Tx, d: int, e: int)
    requires e != d && tx.gone <= ChunksOf(db, d).Keys
    requires forall c | c in tx.chunks && c in db.chunks :: db.chunks[c].documentId == d
    requires forall c | c in tx.chunks :: tx.chunks[c].documentId == d
    ensures ChunksOf(Merge(db, tx), e) == ChunksOf(db, e)
  {
    var others, before := ChunksOf(Merge(db, tx), e), ChunksOf(db, e);
    forall c
      ensures c in others <==> c in before
      ensures c in others ==> others[c] == before[c]
    {
      MergedChunk(db, tx, c);
      assert c in ChunksOf(db, d) ==> db.chunks[c].documentId == d;
    }
  }

  lemma ReplacesOwners(db: Tables, tx: Tx, d: int, row: DocRow)
    requires Replaces(db, tx, d, row)
    ensures forall c | c in tx.chunks :: tx.chunks[c].documentId == d
  {
    hide ChunkKey, OrdinalsDistinct, ChunksOf;
  }

  lemma MergedChunks(db: Tables, tx: Tx, d: int, row: DocRow)
    requires Replaces(db, tx, d, row)
    ensures ChunksOf(Merge(db, tx), d) == tx.chunks
    ensures forall e | e != d :: ChunksOf(Merge(db, tx), e) == ChunksOf(db, e)
  {
    ReplacesOwners(db, tx, d, row);
    MergedOwnChunks(db, tx, d);
    forall e | e != d
      ensures ChunksOf(Merge(db, tx), e) == ChunksOf(db, e)
    {
      MergedOtherChunks(db, tx, d, e);
    }
  }

  lemma MergedDocs(db: Tables, tx: Tx, d: int, row: DocRow)
    requires ReplacesRow(db, tx, d, row)
    ensures Merge(db, tx).docs == db.docs[d := row]
  {}

  lemma MergedParents(db: Tables, tx: Tx, d: int, row: DocRow)
    requires ParentsAgree(db) && Replaces(db, tx, d, row)
    ensures ParentsAgree(Merge(db, tx))
  {
    hide ChunkKey, OrdinalsDistinct, UniqueKeys;
    var after := Merge(db, tx);
    MergedDocs(db, tx, d, row);
    forall c | c in after.chunks
      ensures after.chunks[c].documentId in after.docs
      ensures ChunkMatches(after.chunks[c], after.chunks[c].documentId, after.docs[after.chunks[c].documentId])
    {
      if c !in tx.chunks {
        assert c in db.chunks && c !in tx.gone;
        assert c !in ChunksOf(db, d);
      }
    }
  }

  lemma MergedWhole(db: Tables, tx: Tx, d: int, row: DocRow, e: int)
    requires Replaces(db, tx, d, row)
    requires e in db.docs ==> DocumentWhole(db, e)
    requires e in Merge(db, tx).docs
    ensures DocumentWhole(Merge(db, tx), e)
  {
    MergedDocs(db, tx, d, row);
    MergedChunks(db, tx, d, row);
    hide ReplacesRow, ChunksOf, ChunkMatches, Merge;
  }

  lemma MergedConsistent(db: Tables, tx: Tx, d: int, row: DocRow)
    requires Consistent(db) && Replaces(db, tx, d, row)
    ensures Consistent(Merge(db, tx))
  {
    var after := Merge(db, tx);
    MergedDocs(db, tx, d, row);
    MergedParents(db, tx, d, row);
    hide ParentsAgree, DocumentWhole;
    forall e | e in after.docs
      ensures DocumentWhole(after, e)
    {
      MergedWhole(db, tx, d, row, e);
    }
    UniqueAfter(db, tx, d, row);
    hide Merge, Replaces, UniqueKeys;
  }

  lemma UniqueAfter(db: Tables, tx: Tx, d: int, row: DocRow)
    requires UniqueKeys(db) && ReplacesRow(db, tx, d, row)
    ensures UniqueKeys(Merge(db, tx))
    ensures forall e | e in Merge(db, tx).docs && Merge(db, tx).docs[e].key == row.key :: e == d
  {
    MergedDocs(db, tx, d, row);
    hide Merge;
  }

  lemma MergedChunkIds(db: Tables, tx: Tx)
    ensures forall c | c in Merge(db, tx).chunks :: c in db.chunks || c in tx.chunks
  {
    forall c | c in Merge(db, tx).chunks
      ensures c in db.chunks || c in tx.chunks
    {
      MergedChunk(db, tx, c);
    }
  }

  // after is db with document d's row rewritten and only its chunks replaced.
  ghost predicate OneReplaced(db: Tables, after: Tables, d: int, row: DocRow, cs: map<int, ChunkRow>) {
    && after.docs == db.docs[d := row]
    && (forall e | e in db.docs :: db.docs[e].key == row.key <==> e == d)
    && ChunksOf(after, d) == cs
    && (forall e | e != d :: ChunksOf(after, e) == ChunksOf(db, e))
  }

  lemma MergedIsOneReplaced(db: Tables, tx: Tx, d: int, row: DocRow)
    requires Replaces(db, tx, d, row)
    ensures OneReplaced(db, Merge(db, tx), d, row, tx.chunks)
  {
    MergedDocs(db, tx, d, row);
    MergedChunks(db, tx, d, row);
    hide ReplacesChunks, ChunksOf, Merge;
  }

  lemma OneReplacedChanges(db: Tables, after: Tables, d: int, row: DocRow, cs: map<int, ChunkRow>)
    requires OneReplaced(db, after, d, row, cs)
    ensures ChangesOnly(db, after, {row.key})
  {
    hide ChunksOf;
  }

  lemma KeysAfter(db: Tables, after: Tables, d: int, row: DocRow)
    requires after.docs == db.docs[d := row]
    requires forall e | e in db.docs :: db.docs[e].key == row.key <==> e == d
    ensures KeysOf(after) == KeysOf(db) + {row.key}
  {
    forall k | k in KeysOf(db)
      ensures k in KeysOf(after)
    {
      var e :| e in db.docs && db.docs[e].key == k;
      assert after.docs[e].key == k;
    }
    assert after.docs[d].key in KeysOf(after);
    assert forall e | e in after.docs :: e == d || (e in db.docs && after.docs[e].key in KeysOf(db));
  }

  lemma OneReplacedRepresents(db: Tables, after: Tables, d: int, row: DocRow, cs: map<int, ChunkRow>, m: Documents)
    requires OneReplaced(db, after, d, row, cs) && Represents(db, m)
    ensures Represents(after, m[row.key := DocumentOf(row, cs)])
  {
    hide ChunksOf, DocumentOf;
    KeysAfter(db, after, d, row);
    var n := m[row.key := DocumentOf(row, cs)];
    hide KeysOf;
    forall e | e in after.docs
      ensures n[after.docs[e].key] == DocumentOf(after.docs[e], ChunksOf(after, e))
    {
      if e != d { assert e in db.docs && db.docs[e].key != row.key; }
    }
  }

  // ---- A write's transaction is such a replacement ----

  lemma RefreshReplaces(env: Env, s: State, p: Pid, pr: Proc)
    requires Consistent(s.db) && pr.Writer? && BodyInv(env, s, p, pr) && WritesInv(env, s, p, pr)
    requires pr.pc.Committing? && pr.pc.action.MetadataRefresh?
    ensures pr.past.lockedSeen.Version? && pr.docId == pr.past.lockedSeen.id
    ensures Replaces(s.db, pr.tx, pr.docId, RefreshedRow(pr.past.lockedSeen.row, MetaOf(pr.req), pr.tx.stamp))
    ensures Pieces(pr.tx.chunks) == Pieces(pr.past.lockedSeen.chunks)
    ensures |pr.tx.chunks| == |pr.past.lockedSeen.chunks|
  {
    hide ChunkKey, Classify, Built;
    var v := pr.past.lockedSeen;
    OwnChunks(s.db, KeyOf(pr.req), v);
    RefreshKeepsPieces(v.chunks, MetaOf(pr.req), pr.tx.stamp);
    assert DocumentWhole(s.db, v.id);
    forall c | c in pr.tx.chunks
      ensures ChunkMatches(pr.tx.chunks[c], v.id, RefreshedRow(v.row, MetaOf(pr.req), pr.tx.stamp))
    {
      assert c in v.chunks && ChunkMatches(s.db.chunks[c], v.id, s.db.docs[v.id]);
    }
  }

  // A refresh keeps chunk ids, numbers, texts and vectors.
  lemma RefreshKeepsPieces(cs: map<int, ChunkRow>, meta: Meta, t: Stamp)
    ensures RefreshedChunks(cs, meta, t).Keys == cs.Keys
    ensures forall c | c in cs :: RefreshedChunks(cs, meta, t)[c].piece == cs[c].piece
    ensures Pieces(RefreshedChunks(cs, meta, t)) == Pieces(cs)
    ensures |RefreshedChunks(cs, meta, t)| == |cs|
    ensures OrdinalsDistinct(cs) ==> OrdinalsDistinct(RefreshedChunks(cs, meta, t))
  {
    var rs := RefreshedChunks(cs, meta, t);
    assert rs.Keys == cs.Keys;
    assert |rs| == |rs.Keys| && |cs| == |cs.Keys|;
    forall x | x in Pieces(cs)
      ensures x in Pieces(rs)
    {
      var c :| c in cs && cs[c].piece == x;
      assert rs[c].piece == x;
    }
  }

  lemma RebuildReplacesRow(env: Env, s: State, p: Pid, pr: Proc)
    requires UniqueKeys(s.db) && pr.Writer? && Holds(s.db, KeyOf(pr.req), pr.past.lockedSeen) && IdInv(s, p, pr)
    requires pr.tx.docs == map[pr.docId := NewRow(env, pr).(chunkCount := |pr.prepared|)]
    ensures ReplacesRow(s.db, pr.tx, pr.docId, NewRow(env, pr).(chunkCount := |pr.prepared|))
    ensures NewRow(env, pr).key == KeyOf(pr.req)
  {}

  lemma RebuildReplacesChunks(env: Env, s: State, p: Pid, pr: Proc)
    requires ParentsAgree(s.db) && pr.Writer? && Holds(s.db, KeyOf(pr.req), pr.past.lockedSeen) && IdInv(s, p, pr)
    requires Built(s, p, pr, |pr.prepared|) && |pr.prepared| > 0
    requires pr.tx.gone == OldChunks(pr.past.lockedSeen)
    ensures ReplacesChunks(s.db, pr.tx, pr.docId, NewRow(env, pr).(chunkCount := |pr.prepared|))
  {
    var v := pr.past.lockedSeen;
    if v.NoVersion? { NoOwnChunks(s.db, pr.docId); }
    hide ChunkKey, ParentsAgree, Pieces, PieceSet, OrdinalsDistinct, ChunksOf;
  }

  lemma RebuildReplaces(env: Env, s: State, p: Pid, pr: Proc)
    requires Consistent(s.db) && pr.Writer? && BodyInv(env, s, p, pr) && WritesInv(env, s, p, pr)
    requires pr.pc.Committing? && pr.pc.action.Reindex? && |pr.prepared| > 0
    ensures Replaces(s.db, pr.tx, pr.docId, NewRow(env, pr).(chunkCount := |pr.prepared|))
    ensures NewRow(env, pr).key == KeyOf(pr.req)
    ensures Pieces(pr.tx.chunks) == PieceSet(pr.prepared) && |pr.tx.chunks| == |pr.prepared|
  {
    hide Holds, IdInv, Replaces, ReplacesRow, ReplacesChunks, UniqueKeys, ParentsAgree, NewRow;
    RebuildReplacesRow(env, s, p, pr);
    RebuildReplacesChunks(env, s, p, pr);
    assert pr.prepared[..|pr.prepared|] == pr.prepared;
    assert Replaces(s.db, pr.tx, pr.docId, NewRow(env, pr).(chunkCount := |pr.prepared|)) by {
      IntroReplaces(s.db, pr.tx, pr.docId, NewRow(env, pr).(chunkCount := |pr.prepared|));
    }
  }

  lemma IntroReplaces(db: Tables, tx: Tx, d: int, row: DocRow)
    requires ReplacesRow(db, tx, d, row) && ReplacesChunks(db, tx, d, row)
    ensures Replaces(db, tx, d, row)
  {}

  // ---- The commit against the history ----

  lemma HoldsAgrees(db: Tables, m: Documents, k: Key, v: Version)
    requires Represents(db, m) && Holds(db, k, v)
    ensures AgreesWith(m, k, v)
  {
    hide ChunksOf;
    if v.NoVersion? {
      assert k !in KeysOf(db);
    } else {
      assert db.docs[v.id].key in KeysOf(db);
    }
  }

  lemma DecideIsClassify(m: Documents, r: Request, h: string, force: bool, v: Version)
    requires AgreesWith(m, KeyOf(r), v)
    ensures Decide(m, KeyOf(r), MetaOf(r), h, force) == Classify(SnapshotOfVersion(v), r, h, force)
  {}

  predicate AtRealCommit(pr: Proc) {
    pr.Writer? && pr.pc.Committing? && !pr.pc.action.Noop?
  }

  // The branch taken under the lock is the one the documents, as they stand at the commit, call for.
  lemma BranchIsDecision(env: Env, s: State, p: Pid, pr: Proc)
    requires pr.Writer? && pr.pc.Committing? && DataInv(env, s)
    requires ReadInv(env, s, pr) && BodyInv(env, s, p, pr)
    ensures AgreesWith(Replay(s.log), KeyOf(pr.req), pr.past.lockedSeen)
    ensures Decide(Replay(s.log), KeyOf(pr.req), MetaOf(pr.req), HashOf(env, pr.req), pr.force) == pr.pc.action
  {
    hide Replay, AgreesWith, Holds, Quiet, StillThere, Consistent, HonestLog, Represents, VersionsPublished,
         AllSourced, IdsAllocated, Decide;
    HoldsAgrees(s.db, Replay(s.log), KeyOf(pr.req), pr.past.lockedSeen);
    DecideIsClassify(Replay(s.log), pr.req, HashOf(env, pr.req), pr.force, pr.past.lockedSeen);
    hide DataInv;
  }

  // What the commit leaves behind, as a row and its chunks.
  function CommittedRow(env: Env, pr: Proc): DocRow
    requires pr.Writer? && pr.pc.Committing? && !pr.pc.action.Noop?
    requires pr.pc.action.MetadataRefresh? ==> pr.past.lockedSeen.Version?
  {
    if pr.pc.action.MetadataRefresh? then RefreshedRow(pr.past.lockedSeen.row, MetaOf(pr.req), pr.tx.stamp)
    else NewRow(env, pr).(chunkCount := |pr.prepared|)
  }

  lemma CommitReplaces(env: Env, s: State, p: Pid, pr: Proc)
    requires AtRealCommit(pr) && DataInv(env, s) && WriterInv(env, s, p, pr)
    ensures pr.pc.action.MetadataRefresh? ==> pr.past.lockedSeen.Version?
    ensures Replaces(s.db, pr.tx, pr.docId, CommittedRow(env, pr))
    ensures CommittedRow(env, pr).key == KeyOf(pr.req) && CommittedRow(env, pr).updatedAt == pr.tx.stamp
    ensures Sourced(env, s.produced, CommittedRow(env, pr), pr.tx.chunks)
  {
    hide CallInv, ReadInv, TxInv, Replaces, ChunksOf, Classify, Pieces, PieceSet;
    if pr.pc.action.MetadataRefresh? {
      RefreshReplaces(env, s, p, pr);
      var v := pr.past.lockedSeen;
      assert Sourced(env, s.produced, v.row, v.chunks);
      var x :| x in s.produced && FromPrepare(env, v.row, v.chunks, x.content, x.pieces);
      assert FromPrepare(env, CommittedRow(env, pr), pr.tx.chunks, x.content, x.pieces);
    } else {
      PreparedNonEmpty(env, s, p, pr);
      RebuildReplaces(env, s, p, pr);
      assert pr.prepared[..|pr.prepared|] == pr.prepared;
      var x := Production(pr.req.content, pr.prepared);
      assert x in s.produced && FromPrepare(env, CommittedRow(env, pr), pr.tx.chunks, x.content, x.pieces);
    }
  }
}
