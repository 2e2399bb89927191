/**
The two tables, kb_documents and kb_chunks, keyed by their BIGSERIAL ids, with the constraints
of the schema and the statements the write path issues against them.
*/
module Tables {
  import opened Printers

  type Stamp = int   // a TIMESTAMPTZ

  datatype Key = Key(collection: string, externalId: string)

  // The columns a metadata refresh rewrites, on a document and on each of its chunks.
  datatype Meta = Meta(title: string, sourceUri: string, tags: seq<string>, metadata: string)

  // chunk_no, content and embedding of a chunk: what one split-and-embed yields per chunk.
  datatype Piece = Piece(ordinal: int, content: string, vector: seq<int>)

  datatype DocRow = DocRow(
    key: Key, meta: Meta, contentHash: string, chunkCount: int, createdAt: Stamp, updatedAt: Stamp)

  datatype ChunkRow = ChunkRow(
    collection: string, documentId: int, externalId: string, chunkKey: string,
    piece: Piece, meta: Meta, createdAt: Stamp, updatedAt: Stamp)

  datatype Tables = Tables(docs: map<int, DocRow>, chunks: map<int, ChunkRow>)

  function ChunksOf(db: Tables, d: int): map<int, ChunkRow> {
    map c | c in db.chunks && db.chunks[c].documentId == d :: db.chunks[c]
  }

  function Pieces(cs: map<int, ChunkRow>): set<Piece> {
    set c | c in cs :: cs[c].piece
  }

  // ---- Constraints every committed state keeps ----

  // UNIQUE (collection, external_id)
  predicate UniqueKeys(db: Tables) {
    forall d, e | d in db.docs && e in db.docs && db.docs[d].key == db.docs[e].key :: d == e
  }

  predicate ChunkMatches(r: ChunkRow, d: int, doc: DocRow) {
    && r.documentId == d
    && r.collection == doc.key.collection
    && r.externalId == doc.key.externalId
    && r.chunkKey == ChunkKey(doc.key.externalId, r.piece.ordinal)
    && r.meta == doc.meta
  }

  // The foreign key, and each chunk's copy of its parent's columns.
  predicate ParentsAgree(db: Tables) {
    forall c | c in db.chunks ::
      && db.chunks[c].documentId in db.docs
      && ChunkMatches(db.chunks[c], db.chunks[c].documentId, db.docs[db.chunks[c].documentId])
  }

  predicate OrdinalsDistinct(cs: map<int, ChunkRow>) {
    forall b, c | b in cs && c in cs && cs[b].piece.ordinal == cs[c].piece.ordinal :: b == c
  }

  predicate DocumentWhole(db: Tables, d: int)
    requires d in db.docs
  {
    && db.docs[d].chunkCount > 0
    && |ChunksOf(db, d)| == db.docs[d].chunkCount
    && OrdinalsDistinct(ChunksOf(db, d))
  }

  predicate Consistent(db: Tables) {
    && UniqueKeys(db)
    && ParentsAgree(db)
    && forall d | d in db.docs :: DocumentWhole(db, d)
  }

  // UNIQUE (collection, document_external_id, chunk_no) and UNIQUE (collection, chunk_key)
  predicate Clash(a: ChunkRow, b: ChunkRow) {
    && a.collection == b.collection
    && ((a.externalId == b.externalId && a.piece.ordinal == b.piece.ordinal) || a.chunkKey == b.chunkKey)
  }

  // Both unique constraints on kb_chunks follow from agreement with the parents: documents never
  // collide on a chunk key, whatever colons their ids hold.
  lemma ConsistentHasNoClash(db: Tables, b: int, c: int)
    requires Consistent(db) && b in db.chunks && c in db.chunks && b != c
    ensures !Clash(db.chunks[b], db.chunks[c])
  {
    var x, y := db.chunks[b], db.chunks[c];
    ChunkKeyInjective(x.externalId, x.piece.ordinal, y.externalId, y.piece.ordinal);
    assert x.collection == y.collection && x.externalId == y.externalId ==>
        db.docs[x.documentId].key == db.docs[y.documentId].key;
    assert b in ChunksOf(db, x.documentId) && c in ChunksOf(db, y.documentId);
    assert DocumentWhole(db, x.documentId);
  }

  // ---- Reading ----

  // documentSnapshot: created_at is not loaded.
  datatype Snapshot =
    | Absent
    | Present(id: int, meta: Meta, contentHash: string, chunkCount: int, updatedAt: Stamp)

  function SnapshotOf(d: int, r: DocRow): Snapshot {
    Present(d, r.meta, r.contentHash, r.chunkCount, r.updatedAt)
  }

  // loadDocumentSnapshot: the row with this key, or none.
  predicate Loads(docs: map<int, DocRow>, k: Key, snap: Snapshot) {
    match snap
    case Absent => forall d | d in docs :: docs[d].key != k
    case Present(d, _, _, _, _) => d in docs && docs[d].key == k && snap == SnapshotOf(d, docs[d])
  }

  // documentSnapshotsEqual
  predicate SnapshotsEqual(a: Snapshot, b: Snapshot) {
    if a.Absent? != b.Absent? then false
    else if a.Absent? then true
    else
      && a.id == b.id
      && a.meta.title == b.meta.title
      && a.meta.sourceUri == b.meta.sourceUri
      && a.meta.metadata == b.meta.metadata
      && a.contentHash == b.contentHash
      && a.chunkCount == b.chunkCount
      && a.updatedAt == b.updatedAt
      && a.meta.tags == b.meta.tags
  }

  // Everything committed about one document: its row and its chunk rows.
  datatype Version =
    | NoVersion
    | Version(id: int, row: DocRow, chunks: map<int, ChunkRow>)

  function VersionAt(db: Tables, snap: Snapshot): Version
    requires snap.Present? ==> snap.id in db.docs
  {
    match snap
    case Absent => NoVersion
    case Present(d, _, _, _, _) => Version(d, db.docs[d], ChunksOf(db, d))
  }

  function SnapshotOfVersion(v: Version): Snapshot {
    match v
    case NoVersion => Absent
    case Version(d, row, _) => SnapshotOf(d, row)
  }

  // v is exactly what the committed tables hold for key k.
  predicate Holds(db: Tables, k: Key, v: Version) {
    match v
    case NoVersion => forall d | d in db.docs :: db.docs[d].key != k
    case Version(d, row, cs) => d in db.docs && db.docs[d] == row && row.key == k && ChunksOf(db, d) == cs
  }

  // ---- Deleting, with ON DELETE CASCADE ----

  function DeleteDocs(db: Tables, ids: set<int>): Tables {
    Tables(db.docs - ids, map c | c in db.chunks && db.chunks[c].documentId !in ids :: db.chunks[c])
  }

  function IdsIn(db: Tables, collection: string): set<int> {
    set d | d in db.docs && db.docs[d].key.collection == collection
  }

  // ---- CollectionStats ----

  function ChunkIdsIn(db: Tables, collection: string): set<int> {
    set c | c in db.chunks && db.chunks[c].collection == collection
  }

  datatype CollectionStats = CollectionStats(documentCount: nat, chunkCount: nat)

  function ReadStats(db: Tables, collection: string): CollectionStats {
    CollectionStats(|IdsIn(db, collection)|, |ChunkIdsIn(db, collection)|)
  }

  ghost function Pick(ids: set<int>): (d: int)
    requires ids != {}
    ensures d in ids
  {
    assert (forall d :: d !in ids) ==> ids == {};
    var d :| d in ids;
    d
  }

  ghost function SumCounts(docs: map<int, DocRow>, ids: set<int>): int
    requires ids <= docs.Keys
    decreases |ids|
  {
    if ids == {} then 0
    else docs[Pick(ids)].chunkCount + SumCounts(docs, ids - {Pick(ids)})
  }

  ghost function ChunkIdsOf(db: Tables, ids: set<int>): set<int> {
    set c | c in db.chunks && db.chunks[c].documentId in ids
  }

  lemma OneMoreDocument(db: Tables, ids: set<int>, d: int)
    requires d in ids
    ensures |ChunkIdsOf(db, ids)| == |ChunkIdsOf(db, ids - {d})| + |ChunksOf(db, d)|
  {
    assert ChunkIdsOf(db, ids) == ChunkIdsOf(db, ids - {d}) + ChunksOf(db, d).Keys;
    assert ChunkIdsOf(db, ids - {d}) !! ChunksOf(db, d).Keys;
  }

  lemma {:induction false} ChunksPartition(db: Tables, ids: set<int>)
    requires Consistent(db) && ids <= db.docs.Keys
    ensures |ChunkIdsOf(db, ids)| == SumCounts(db.docs, ids)
    decreases |ids|
  {
    if ids == {} {
      assert ChunkIdsOf(db, ids) == {};
    } else {
      var d := Pick(ids);
      ChunksPartition(db, ids - {d});
      OneMoreDocument(db, ids, d);
      hide ChunksOf, ChunkIdsOf, UniqueKeys, ParentsAgree;
      assert DocumentWhole(db, d);
    }
  }

  // The two counts of CollectionStats: the documents of the collection, and the sum of their
  // stored chunk counts.
  lemma StatsConserved(db: Tables, collection: string)
    requires Consistent(db)
    ensures ReadStats(db, collection).documentCount == |IdsIn(db, collection)|
    ensures ReadStats(db, collection).chunkCount == SumCounts(db.docs, IdsIn(db, collection))
  {
    ChunksPartition(db, IdsIn(db, collection));
    ChunksFollowParents(db, collection);
  }

  lemma ChunksFollowParents(db: Tables, collection: string)
    requires ParentsAgree(db)
    ensures ChunkIdsIn(db, collection) == ChunkIdsOf(db, IdsIn(db, collection))
  {
    forall c | c in db.chunks
      ensures c in ChunkIdsIn(db, collection) <==> c in ChunkIdsOf(db, IdsIn(db, collection))
    {
      assert ChunkMatches(db.chunks[c], db.chunks[c].documentId, db.docs[db.chunks[c].documentId]);
    }
  }

  // DeleteCollection empties one collection, orphans nothing and leaves every other collection's
  // rows as they were.
  lemma DeleteCollectionEffect(db: Tables, collection: string)
    requires Consistent(db)
    ensures var after := DeleteDocs(db, IdsIn(db, collection));
      && Consistent(after)
      && ReadStats(after, collection) == CollectionStats(0, 0)
      && (forall d | d in db.docs && db.docs[d].key.collection != collection ::
            d in after.docs && after.docs[d] == db.docs[d] && ChunksOf(after, d) == ChunksOf(db, d))
      && (forall other | other != collection :: ReadStats(after, other) == ReadStats(db, other))
  {
    var ids := IdsIn(db, collection);
    var after := DeleteDocs(db, ids);
    DeleteKeepsConsistent(db, ids);
    assert IdsIn(after, collection) == {};
    ChunksFollowParents(after, collection);
    assert ChunkIdsIn(after, collection) == {};
    forall other | other != collection
      ensures ReadStats(after, other) == ReadStats(db, other)
    {
      assert IdsIn(after, other) == IdsIn(db, other);
      ChunksFollowParents(db, other);
      ChunksFollowParents(after, other);
      assert ChunkIdsOf(after, IdsIn(db, other)) == ChunkIdsOf(db, IdsIn(db, other));
    }
    forall d | d in db.docs && db.docs[d].key.collection != collection
      ensures ChunksOf(after, d) == ChunksOf(db, d)
    {}
  }

  lemma DeleteKeepsConsistent(db: Tables, ids: set<int>)
    requires Consistent(db)
    ensures Consistent(DeleteDocs(db, ids))
    ensures forall d | d !in ids :: ChunksOf(DeleteDocs(db, ids), d) == ChunksOf(db, d)
  {
    var after := DeleteDocs(db, ids);
    forall d | d !in ids
      ensures ChunksOf(after, d) == ChunksOf(db, d)
    {}
    forall d | d in after.docs
      ensures DocumentWhole(after, d)
    {
      assert DocumentWhole(db, d);
    }
  }
}
