/**
The statements of a write's transaction as the code issues them, on an object that holds the rows
the transaction has written so far. What other transactions may commit meanwhile is the business of
the step system: from the locked read on it cannot concern this document, so the committed rows
the statements see of it are fixed.
*/
module WriteTransaction {
  import opened Printers
  import opened Requests
  import opened Tables
  import opened AtomicDocuments
  import opened WriteProtocol
  import opened WriteInvariant
  import opened WriteStatements
  import opened WriteCommits

  // The splitter gave every piece an ordinal of its own.
  predicate DistinctOrdinals(ps: seq<Piece>) {
    forall i, j | 0 <= i < j < |ps| :: ps[i].ordinal != ps[j].ordinal
  }

  // Committing these writes makes the tables stand for the documents with k at doc, and keeps every
  // constraint.
  ghost predicate Leaves(db: Tables, tx: Tx, k: Key, doc: Document) {
    && Consistent(Merge(db, tx))
    && forall m | Represents(db, m) :: Represents(Merge(db, tx), m[k := doc])
  }

  lemma ReplacingLeaves(db: Tables, tx: Tx, d: int, row: DocRow)
    requires Consistent(db) && Replaces(db, tx, d, row)
    ensures Leaves(db, tx, row.key, DocumentOf(row, tx.chunks))
  {
    hide Replaces, Consistent, Merge, OneReplaced, Represents, DocumentOf;
    MergedConsistent(db, tx, d, row);
    MergedIsOneReplaced(db, tx, d, row);
    forall m | Represents(db, m)
      ensures Represents(Merge(db, tx), m[row.key := DocumentOf(row, tx.chunks)])
    {
      OneReplacedRepresents(db, Merge(db, tx), d, row, tx.chunks, m);
    }
  }

  lemma RefreshedReplaces(db: Tables, k: Key, v: Version, meta: Meta, t: Stamp)
    requires Consistent(db) && Holds(db, k, v) && v.Version?
    ensures Replaces(db, Tx(t, map[v.id := RefreshedRow(v.row, meta, t)], {}, RefreshedChunks(v.chunks, meta, t)),
                     v.id, RefreshedRow(v.row, meta, t))
  {
    hide ChunkKey;
    OwnChunks(db, k, v);
    RefreshKeepsPieces(v.chunks, meta, t);
    assert DocumentWhole(db, v.id);
    forall c | c in v.chunks
      ensures ChunkMatches(RefreshedChunks(v.chunks, meta, t)[c], v.id, RefreshedRow(v.row, meta, t))
    {
      assert ChunkMatches(db.chunks[c], v.id, db.docs[v.id]);
    }
  }

  lemma RebuiltReplaces(db: Tables, tx: Tx, r: Request, v: Version, id: int, h: string, ps: seq<Piece>)
    requires Consistent(db) && Holds(db, KeyOf(r), v) && |ps| > 0
    requires if v.Version? then id == v.id else id !in db.docs
    requires InsertedUpTo(db, tx, r, id, ps, |ps|) && tx.gone == OldChunks(v)
    requires tx.docs == map[id := UpsertedRow(v, KeyOf(r), MetaOf(r), h, tx.stamp).(chunkCount := |ps|)]
    ensures Replaces(db, tx, id, UpsertedRow(v, KeyOf(r), MetaOf(r), h, tx.stamp).(chunkCount := |ps|))
  {
    if v.NoVersion? { NoOwnChunks(db, id); }
    hide ChunkKey, Pieces, PieceSet, OrdinalsDistinct, ParentsAgree, DocumentWhole;
  }

  lemma ConsistentParents(db: Tables)
    requires Consistent(db)
    ensures ParentsAgree(db) && UniqueKeys(db)
  {}

  lemma UpsertedShape(db: Tables, v: Version, k: Key, meta: Meta, h: string, t: Stamp)
    requires Holds(db, k, v)
    ensures UpsertedRow(v, k, meta, h, t).key == k
    ensures UpsertedRow(v, k, meta, h, t).updatedAt == t
    ensures UpsertedRow(v, k, meta, h, t).meta == meta && UpsertedRow(v, k, meta, h, t).contentHash == h
  {}

  lemma CountKeepsInserted(db: Tables, tx: Tx, r: Request, id: int, ps: seq<Piece>, n: nat)
    requires InsertedUpTo(db, tx, r, id, ps, n)
    ensures forall docs :: InsertedUpTo(db, tx.(docs := docs), r, id, ps, n)
  {
    hide ChunkKey, Pieces, PieceSet, OrdinalsDistinct;
  }

  lemma InsertedPieces(db: Tables, tx: Tx, r: Request, id: int, ps: seq<Piece>)
    requires InsertedUpTo(db, tx, r, id, ps, |ps|)
    ensures Pieces(tx.chunks) == PieceSet(ps)
  {
    assert ps[..|ps|] == ps;
  }

  // ---- The code ----

  class Transaction {
    const db: Tables          // the committed rows its statements see
    var tx: Tx                // its own writes, stamped NOW()
    var nextDocument: int     // the two BIGSERIAL sequences
    var nextChunk: int

    predicate Fresh()
      reads this
    {
      && (forall d | d in db.docs :: d < nextDocument)
      && (forall c | c in db.chunks :: c < nextChunk)
      && (forall c | c in tx.chunks :: c < nextChunk)
    }

    constructor (db: Tables, stamp: Stamp, nextDocument: int, nextChunk: int)
      requires (forall d | d in db.docs :: d < nextDocument) && (forall c | c in db.chunks :: c < nextChunk)
      ensures Fresh() && this.db == db && tx == Tx(stamp, map[], {}, map[])
    {
      this.db := db;
      this.tx := Tx(stamp, map[], {}, map[]);
      this.nextDocument, this.nextChunk := nextDocument, nextChunk;
    }

    // refreshDocumentMetadata. Committed, it gives the document the request's metadata and leaves
    // its content hash, count, texts and vectors alone.
    method RefreshDocumentMetadata(snapshot: Snapshot, req: Request, ghost v: Version)
      requires Consistent(db) && Holds(db, KeyOf(req), v) && v.Version? && snapshot == SnapshotOfVersion(v)
      requires tx == Tx(tx.stamp, map[], {}, map[])
      modifies this`tx
      ensures tx == Tx(old(tx).stamp, map[v.id := RefreshedRow(v.row, MetaOf(req), old(tx).stamp)], {},
                       RefreshedChunks(v.chunks, MetaOf(req), old(tx).stamp))
      ensures Leaves(db, tx, KeyOf(req), Document(MetaOf(req), v.row.contentHash, v.row.chunkCount, Pieces(v.chunks)))
    {
      hide ChunkKey, RefreshDocument, RefreshChunks, Consistent, Replaces, Leaves, Pieces;
      ConsistentParents(db);
      RefreshDocumentEffect(db, tx.stamp, KeyOf(req), v, MetaOf(req));
      RefreshChunksEffect(db, tx.stamp, map[v.id := RefreshedRow(v.row, MetaOf(req), tx.stamp)], KeyOf(req), v, MetaOf(req));
      RefreshedReplaces(db, KeyOf(req), v, MetaOf(req), tx.stamp);
      RefreshKeepsPieces(v.chunks, MetaOf(req), tx.stamp);
      tx := RefreshDocument(db, tx, req.collection, snapshot.id, MetaOf(req));
      tx := RefreshChunks(db, tx, req.collection, snapshot.id, MetaOf(req));
      ReplacingLeaves(db, tx, v.id, RefreshedRow(v.row, MetaOf(req), tx.stamp));
    }

    // upsertDocumentRow: the existing row with this key keeps its id, count and creation time; else
    // a new row takes the next id.
    method UpsertDocumentRow(req: Request, contentHash: string, ghost v: Version) returns (id: int)
      requires Fresh() && UniqueKeys(db) && Holds(db, KeyOf(req), v) && tx == Tx(tx.stamp, map[], {}, map[])
      modifies this`tx, this`nextDocument
      ensures Fresh()
      ensures if v.Version? then id == v.id else id !in db.docs
      ensures tx == Tx(old(tx).stamp, map[id := UpsertedRow(v, KeyOf(req), MetaOf(req), contentHash, old(tx).stamp)], {}, map[])
    {
      var rows := VisibleDocs(db, tx);
      assert rows == db.docs;
      var conflict := Absent;
      if d :| d in rows && rows[d].key == KeyOf(req) {
        conflict := SnapshotOf(d, rows[d]);
      }
      id := if conflict.Present? then conflict.id else nextDocument;
      UpsertRowEffect(db, tx.stamp, KeyOf(req), v, MetaOf(req), contentHash, conflict, id);
      tx := UpsertRow(db, tx, KeyOf(req), MetaOf(req), contentHash, conflict, id);
      if conflict.Absent? {
        nextDocument := nextDocument + 1;
      }
    }

    // The batch of INSERTs in replaceDocumentChunks, run in order until one violates a constraint.
    method InsertChunks(req: Request, id: int, prepared: seq<Piece>, ghost v: Version) returns (ok: bool)
      requires Fresh() && ParentsAgree(db) && UniqueKeys(db) && Holds(db, KeyOf(req), v)
      requires tx.gone == OldChunks(v) && tx.chunks == map[]
      modifies this`tx, this`nextChunk
      ensures Fresh() && tx.stamp == old(tx).stamp && tx.docs == old(tx).docs && tx.gone == old(tx).gone
      ensures ok <==> DistinctOrdinals(prepared)
      ensures ok ==> InsertedUpTo(db, tx, req, id, prepared, |prepared|)
    {
      hide ChunkKey, Insertable, InsertedUpTo, Holds, UniqueKeys, ParentsAgree, NewChunk, OldChunks;
      NothingInserted(db, tx, req, id, prepared);
      for i := 0 to |prepared|
        invariant Fresh() && tx.stamp == old(tx).stamp && tx.docs == old(tx).docs && tx.gone == old(tx).gone
        invariant InsertedUpTo(db, tx, req, id, prepared, i)
        invariant DistinctOrdinals(prepared[..i])
      {
        var row := NewChunk(tx, req, id, prepared[i]);
        FitsExactly(db, tx, req, v, id, prepared, i);
        if !Insertable(db, tx, row) {
          return false;
        }
        InsertOne(db, tx, req, id, prepared, i, nextChunk);
        tx := tx.(chunks := tx.chunks[nextChunk := row]);
        nextChunk := nextChunk + 1;
      }
      assert prepared[..|prepared|] == prepared;
      ok := true;
    }

    // replaceDocumentChunks: delete the old chunks, insert the prepared ones, record their number.
    // It fails exactly when two pieces share an ordinal.
    method ReplaceDocumentChunks(req: Request, id: int, contentHash: string, prepared: seq<Piece>, ghost v: Version) returns (ok: bool)
      requires Fresh() && ParentsAgree(db) && UniqueKeys(db) && Holds(db, KeyOf(req), v)
      requires if v.Version? then id == v.id else id !in db.docs
      requires tx == Tx(tx.stamp, map[id := UpsertedRow(v, KeyOf(req), MetaOf(req), contentHash, tx.stamp)], {}, map[])
      modifies this`tx, this`nextChunk
      ensures Fresh() && tx.stamp == old(tx).stamp
      ensures ok <==> DistinctOrdinals(prepared)
      ensures ok ==> tx.docs == map[id := UpsertedRow(v, KeyOf(req), MetaOf(req), contentHash, tx.stamp).(chunkCount := |prepared|)]
      ensures ok ==> tx.gone == OldChunks(v) && InsertedUpTo(db, tx, req, id, prepared, |prepared|)
    {
      hide ChunkKey, DeleteChunks, SetCount, InsertedUpTo, Holds, UniqueKeys, ParentsAgree, UpsertedRow, OldChunks,
           DistinctOrdinals;
      DeleteChunksEffect(db, tx.stamp, tx.docs, KeyOf(req), v, id);
      tx := DeleteChunks(db, tx, req.collection, id);
      ok := InsertChunks(req, id, prepared, v);
      if !ok {
        return;
      }
      UpsertedShape(db, v, KeyOf(req), MetaOf(req), contentHash, tx.stamp);
      SetCountEffect(db, tx, KeyOf(req), id, UpsertedRow(v, KeyOf(req), MetaOf(req), contentHash, tx.stamp), |prepared|);
      CountKeepsInserted(db, tx, req, id, prepared, |prepared|);
      tx := SetCount(db, tx, req.collection, id, |prepared|);
    }

    // The writing half of commitReindexDocumentWrite. Committed, it leaves the document as the
    // atomic map's reindex does.
    method Rebuild(req: Request, contentHash: string, prepared: seq<Piece>, ghost v: Version) returns (ok: bool)
      requires Fresh() && Consistent(db) && Holds(db, KeyOf(req), v) && |prepared| > 0
      requires tx == Tx(tx.stamp, map[], {}, map[])
      modifies this`tx, this`nextDocument, this`nextChunk
      ensures Fresh()
      ensures ok <==> DistinctOrdinals(prepared)
      ensures ok ==> Leaves(db, tx, KeyOf(req), Document(MetaOf(req), contentHash, |prepared|, PieceSet(prepared)))
    {
      hide ChunkKey, Consistent, Holds, InsertedUpTo, Replaces, UniqueKeys, UpsertedRow, Leaves, Pieces, PieceSet,
           OldChunks, Fresh;
      ConsistentParents(db);
      var id := UpsertDocumentRow(req, contentHash, v);
      ok := ReplaceDocumentChunks(req, id, contentHash, prepared, v);
      if ok {
        RebuiltReplaces(db, tx, req, v, id, contentHash, prepared);
        UpsertedShape(db, v, KeyOf(req), MetaOf(req), contentHash, tx.stamp);
        ReplacingLeaves(db, tx, id, UpsertedRow(v, KeyOf(req), MetaOf(req), contentHash, tx.stamp).(chunkCount := |prepared|));
        InsertedPieces(db, tx, req, id, prepared);
      }
    }
  }
}
