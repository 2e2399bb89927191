/**
The optimistic document-write protocol as a step system. Any number of API calls run at once,
each identified by its own pid. One step is one SQL statement, one unlocked call to the splitter
and embedder, or one local decision, so every interleaving the database allows is a run.

READ COMMITTED: a statement sees the committed tables and its own transaction's writes. NOW()
is a stamp taken when the transaction begins; stamps are distinct but need not follow commit
order. BIGSERIAL ids are handed out once. The advisory lock key is an arbitrary function of the
document key, so unrelated documents may share a lock.
*/
module WriteProtocol {
  import opened Text
  import opened Requests
  import opened Runs
  import opened Printers
  import opened Tables
  import opened AtomicDocuments

  type Pid = nat

  datatype Env = Env(
    defaultCollection: string,
    maxDocumentBytes: int,
    maxChunkChars: int,
    dimensions: nat,
    byteLength: string -> nat,
    hash: string -> string,
    lockKey: Key -> int)

  // ---- One call ----

  datatype Result = Ok(stats: Stats) | Rejected | Failed | ChangedConcurrently

  // Which of the two commit routines the call is in.
  datatype Mode = Cheap | Rebuild

  datatype Pc =
    | Entering              // writeDocument: normalise and validate
    | PreReading            // loadDocumentSnapshot without a lock
    | Preparing             // prepareDocumentWrite
    | Beginning             // BeginTx
    | Locking               // pg_advisory_xact_lock
    | LockedReading         // loadDocumentSnapshot FOR UPDATE, then compare and classify
    | RefreshingDocument | RefreshingChunks
    | UpsertingRow | DeletingChunks | InsertingChunk(next: nat) | SettingCount
    | Committing(action: Action, chunkCount: int)
    | Returned(result: Result)

  // A transaction's uncommitted writes over the committed tables.
  datatype Tx = Tx(stamp: Stamp, docs: map<int, DocRow>, gone: set<int>, chunks: map<int, ChunkRow>)

  // A restart, with the stretch of history between the pre-read and the locked read behind it.
  datatype Restart = Restart(key: Key, lo: nat, hi: nat)

  // What the call has been through; the code keeps none of it.
  datatype Past = Past(
    callAt: nat,             // length of the history when the call was made
    readAt: nat,             // and at its latest pre-read
    seen: Version,           // what was committed at that pre-read
    lockedSeen: Version,     // and at the locked read
    restarts: seq<Restart>,
    prepares: nat,           // calls to prepareDocumentWrite so far
    committedAt: nat)        // index of its own commit in the history

  datatype Proc =
    | Deleter
    | Writer(
        pc: Pc, req: Request, force: bool, attempt: nat, mode: Mode,
        expected: Snapshot, prepared: seq<Piece>,
        tx: Tx, locked: Snapshot, docId: int,
        past: Past)

  // A committed version is named by its row id and updated_at.
  datatype VersionId = VersionId(id: int, at: Stamp)

  datatype Production = Production(content: string, pieces: seq<Piece>)

  datatype State = State(
    db: Tables,
    advisory: map<int, Pid>,           // advisory lock key -> owner
    rowLocks: map<int, Pid>,           // kb_documents id -> owner
    docIds: map<int, Pid>,             // every kb_documents id ever handed out, and to whom
    chunkIds: map<int, Pid>,
    stamps: map<Stamp, Pid>,           // every transaction stamp ever taken
    procs: map<Pid, Proc>,
    log: seq<Event>,                   // the commits, in order
    published: map<VersionId, Version>,  // every version ever committed, by id and updated_at
    produced: set<Production>)    // every (content, prepared chunks) ever produced

  const START: State :=
    State(Tables(map[], map[]), map[], map[], map[], map[], map[], map[], [], map[], {})

  // ---- Pure pieces of the code ----

  function HashOf(env: Env, r: Request): string {
    env.hash(r.content)
  }

  // classifyDocumentWrite
  function Classify(existing: Snapshot, r: Request, contentHash: string, force: bool): Action {
    if force then Reindex
    else if existing.Absent? || existing.chunkCount <= 0 then Reindex
    else if existing.contentHash != contentHash then Reindex
    else if existing.meta.title != r.title || existing.meta.sourceUri != r.sourceUri
            || existing.meta.tags != r.tags || existing.meta.metadata != r.metadata then MetadataRefresh
    else Noop
  }

  function CountOf(snap: Snapshot): int {
    if snap.Present? then snap.chunkCount else 0
  }

  // What prepareDocumentWrite checks of the splitter's and embedder's output.
  predicate PreparedOk(env: Env, ps: seq<Piece>) {
    && |ps| > 0
    && forall i | 0 <= i < |ps| ::
         Trim(ps[i].content) != "" && |ps[i].content| <= env.maxChunkChars && |ps[i].vector| == env.dimensions
  }

  // ---- Statements, on committed tables plus the transaction's own writes ----

  function VisibleDocs(db: Tables, tx: Tx): map<int, DocRow> {
    db.docs + tx.docs
  }

  function VisibleChunks(db: Tables, tx: Tx): map<int, ChunkRow> {
    (db.chunks - tx.gone) + tx.chunks
  }

  function Merge(db: Tables, tx: Tx): Tables {
    Tables(VisibleDocs(db, tx), VisibleChunks(db, tx))
  }

  // refreshDocumentMetadata, first statement
  function RefreshDocument(db: Tables, tx: Tx, collection: string, id: int, meta: Meta): (r: Tx)
    ensures r.stamp == tx.stamp
  {
    var rows := VisibleDocs(db, tx);
    if id in rows && rows[id].key.collection == collection then
      tx.(docs := tx.docs[id := rows[id].(meta := meta, updatedAt := tx.stamp)])
    else tx
  }

  // refreshDocumentMetadata, second statement
  function RefreshChunks(db: Tables, tx: Tx, collection: string, id: int, meta: Meta): (r: Tx)
    ensures r.stamp == tx.stamp
  {
    var rows := VisibleChunks(db, tx);
    tx.(chunks := tx.chunks + map c | c in rows && rows[c].collection == collection && rows[c].documentId == id ::
          rows[c].(meta := meta, updatedAt := tx.stamp))
  }

  // upsertDocumentRow: INSERT ... ON CONFLICT DO UPDATE, given the conflicting row if any. The
  // update leaves chunk_count and created_at alone.
  function UpsertRow(db: Tables, tx: Tx, k: Key, meta: Meta, contentHash: string, conflict: Snapshot, newId: int): (r: Tx)
    requires Loads(VisibleDocs(db, tx), k, conflict)
    ensures r.stamp == tx.stamp
  {
    match conflict
    case Present(d, _, _, _, _) =>
      tx.(docs := tx.docs[d := VisibleDocs(db, tx)[d].(meta := meta, contentHash := contentHash, updatedAt := tx.stamp)])
    case Absent =>
      tx.(docs := tx.docs[newId := DocRow(k, meta, contentHash, 0, tx.stamp, tx.stamp)])
  }

  // replaceDocumentChunks, first statement
  function DeleteChunks(db: Tables, tx: Tx, collection: string, id: int): (r: Tx)
    ensures r.stamp == tx.stamp
  {
    var rows := VisibleChunks(db, tx);
    var hit := set c | c in rows && rows[c].collection == collection && rows[c].documentId == id;
    tx.(gone := tx.gone + hit, chunks := tx.chunks - hit)
  }

  function NewChunk(tx: Tx, r: Request, id: int, p: Piece): ChunkRow {
    ChunkRow(r.collection, id, r.documentId, ChunkKey(r.documentId, p.ordinal), p, MetaOf(r), tx.stamp, tx.stamp)
  }

  // The unique constraints on kb_chunks let the row in.
  predicate Insertable(db: Tables, tx: Tx, row: ChunkRow) {
    var rows := VisibleChunks(db, tx);
    forall c | c in rows :: !Clash(rows[c], row)
  }

  // replaceDocumentChunks, last statement
  function SetCount(db: Tables, tx: Tx, collection: string, id: int, n: int): (r: Tx)
    ensures r.stamp == tx.stamp
  {
    var rows := VisibleDocs(db, tx);
    if id in rows && rows[id].key.collection == collection then
      tx.(docs := tx.docs[id := rows[id].(chunkCount := n, updatedAt := tx.stamp)])
    else tx
  }

  // ---- Steps ----

  datatype Move =
    | Call(req: Request, force: bool)
    | Enter
    | PreRead(snap: Snapshot)
    | Prepare(pieces: seq<Piece>)
    | Begin(stamp: Stamp)
    | Lock
    | LockedRead(snap: Snapshot)
    | DoRefreshDocument
    | DoRefreshChunks
    | DoUpsertRow(conflict: Snapshot, newId: int)
    | DoDeleteChunks
    | DoInsertChunk(newId: int)
    | DoSetCount
    | Commit
    | Fail
    | DeleteDocument(collection: string, documentId: string, snap: Snapshot)
    | DeleteCollection(collection: string)

  predicate Unlocked(s: State, p: Pid, d: int) {
    d in s.rowLocks ==> s.rowLocks[d] == p
  }

  predicate WriterAt(s: State, p: Pid, pc: Pc) {
    p in s.procs && s.procs[p].Writer? && s.procs[p].pc == pc
  }

  predicate Running(s: State, p: Pid) {
    p in s.procs && s.procs[p].Writer? && !s.procs[p].pc.Returned?
  }

  predicate Enabled(env: Env, s: State, p: Pid, m: Move) {
    match m
    case Call(_, _) => p !in s.procs
    case Enter => WriterAt(s, p, Entering)
    case PreRead(snap) => WriterAt(s, p, PreReading) && Loads(s.db.docs, KeyOf(s.procs[p].req), snap)
    case Prepare(ps) => WriterAt(s, p, Preparing) && PreparedOk(env, ps)
    case Begin(t) => WriterAt(s, p, Beginning) && t !in s.stamps
    case Lock => WriterAt(s, p, Locking) && env.lockKey(KeyOf(s.procs[p].req)) !in s.advisory
    case LockedRead(snap) =>
      && WriterAt(s, p, LockedReading)
      && Loads(VisibleDocs(s.db, s.procs[p].tx), KeyOf(s.procs[p].req), snap)
      && (snap.Present? ==> snap.id in s.db.docs && Unlocked(s, p, snap.id))
    case DoRefreshDocument => WriterAt(s, p, RefreshingDocument) && Unlocked(s, p, s.procs[p].docId)
    case DoRefreshChunks => WriterAt(s, p, RefreshingChunks)
    case DoUpsertRow(conflict, newId) =>
      && WriterAt(s, p, UpsertingRow)
      && Loads(VisibleDocs(s.db, s.procs[p].tx), KeyOf(s.procs[p].req), conflict)
      && (conflict.Present? ==> Unlocked(s, p, conflict.id))
      && (conflict.Absent? ==> newId !in s.docIds)
    case DoDeleteChunks => WriterAt(s, p, DeletingChunks)
    case DoInsertChunk(newId) =>
      && p in s.procs && s.procs[p].Writer? && s.procs[p].pc.InsertingChunk?
      && s.procs[p].pc.next < |s.procs[p].prepared|
      && newId !in s.chunkIds
      && Insertable(s.db, s.procs[p].tx,
                    NewChunk(s.procs[p].tx, s.procs[p].req, s.procs[p].docId, s.procs[p].prepared[s.procs[p].pc.next]))
    case DoSetCount => WriterAt(s, p, SettingCount)
    case Commit => p in s.procs && s.procs[p].Writer? && s.procs[p].pc.Committing?
    case Fail => Running(s, p)
    case DeleteDocument(c, id, snap) =>
      && p !in s.procs
      && Trim(id) != ""
      && Loads(s.db.docs, Key(ResolveCollection(env.defaultCollection, c), Trim(id)), snap)
      && (snap.Present? ==> snap.id !in s.rowLocks)
    case DeleteCollection(c) =>
      && p !in s.procs
      && Trim(c) != ""
      && forall d | d in IdsIn(s.db, Trim(c)) :: d !in s.rowLocks
  }

  // The end of a transaction, committed or rolled back, frees its locks.
  function Free(locks: map<int, Pid>, p: Pid): map<int, Pid> {
    map k | k in locks && locks[k] != p :: locks[k]
  }

  function Unlock(s: State, p: Pid): State {
    s.(advisory := Free(s.advisory, p), rowLocks := Free(s.rowLocks, p))
  }

  function SetProc(s: State, p: Pid, pr: Proc): State {
    s.(procs := s.procs[p := pr])
  }

  // Rollback followed by restartDocumentWrite
  function RollbackAndRestart(s: State, p: Pid, pr: Proc): State
    requires pr.Writer?
  {
    var past := pr.past.(restarts := pr.past.restarts + [Restart(KeyOf(pr.req), pr.past.readAt, |s.log|)]);
    Unlock(SetProc(s, p,
      if pr.attempt >= 1 then pr.(pc := Returned(ChangedConcurrently), past := past)
      else pr.(pc := Entering, attempt := pr.attempt + 1, prepared := [], past := past)), p)
  }

  const NO_TX := Tx(0, map[], {}, map[])

  function DoCall(s: State, p: Pid, req: Request, force: bool): State {
    SetProc(s, p, Writer(Entering, req, force, 0, Cheap, Absent, [], NO_TX, Absent, 0,
      Past(|s.log|, |s.log|, NoVersion, NoVersion, [], 0, 0)))
  }

  function DoEnter(env: Env, s: State, p: Pid, pr: Proc): State
    requires pr.Writer?
  {
    var req := NormalizeRequest(env.defaultCollection, pr.req);
    SetProc(s, p, pr.(req := req,
      pc := if ValidRequest(env.maxDocumentBytes, env.byteLength, req) then PreReading else Returned(Rejected)))
  }

  function DoPreRead(env: Env, s: State, p: Pid, pr: Proc, snap: Snapshot): State
    requires pr.Writer? && Loads(s.db.docs, KeyOf(pr.req), snap)
  {
    var past := pr.past.(readAt := |s.log|, seen := VersionAt(s.db, snap));
    var action := Classify(snap, pr.req, HashOf(env, pr.req), pr.force);
    SetProc(s, p,
      if action.Reindex? then
        pr.(pc := Preparing, mode := Rebuild, expected := snap, past := past.(prepares := past.prepares + 1))
      else
        pr.(pc := Beginning, mode := Cheap, expected := snap, past := past))
  }

  function DoPrepare(s: State, p: Pid, pr: Proc, pieces: seq<Piece>): State
    requires pr.Writer?
  {
    SetProc(s, p, pr.(pc := Beginning, prepared := pieces)).(produced := s.produced + {Production(pr.req.content, pieces)})
  }

  function DoBegin(s: State, p: Pid, pr: Proc, t: Stamp): State
    requires pr.Writer?
  {
    SetProc(s, p, pr.(pc := Locking, tx := Tx(t, map[], {}, map[]))).(stamps := s.stamps[t := p])
  }

  function DoLock(env: Env, s: State, p: Pid, pr: Proc): State
    requires pr.Writer?
  {
    SetProc(s, p, pr.(pc := LockedReading)).(advisory := s.advisory[env.lockKey(KeyOf(pr.req)) := p])
  }

  datatype Verdict = Restarts | Proceeds(pc: Pc)

  // commitCheapDocumentWrite and commitReindexDocumentWrite between the locked read and the
  // first write: reindexing restarts on any difference from the pre-read, then both classify
  // again, the cheap one restarting if only a reindex will do.
  function Judge(env: Env, pr: Proc, snap: Snapshot): Verdict
    requires pr.Writer?
  {
    var again := Classify(snap, pr.req, HashOf(env, pr.req), false);
    if pr.mode.Rebuild? && !SnapshotsEqual(snap, pr.expected) then Restarts
    else if pr.mode.Rebuild? && pr.force then Proceeds(UpsertingRow)
    else match again
      case Noop => Proceeds(Committing(Noop, CountOf(snap)))
      case MetadataRefresh => Proceeds(RefreshingDocument)
      case Reindex => if pr.mode.Cheap? then Restarts else Proceeds(UpsertingRow)
  }

  function AfterLockedRead(s: State, pr: Proc, snap: Snapshot, pc: Pc): Proc
    requires pr.Writer? && (snap.Present? ==> snap.id in s.db.docs)
  {
    pr.(locked := snap,
        docId := if snap.Present? then snap.id else 0,
        pc := pc,
        past := pr.past.(lockedSeen := VersionAt(s.db, snap)))
  }

  // FOR UPDATE locks the row it returns.
  function HoldRow(s: State, p: Pid, snap: Snapshot): State {
    if snap.Present? then s.(rowLocks := s.rowLocks[snap.id := p]) else s
  }

  function DoLockedRead(env: Env, s: State, p: Pid, pr: Proc, snap: Snapshot): State
    requires pr.Writer? && (snap.Present? ==> snap.id in s.db.docs)
  {
    match Judge(env, pr, snap)
    case Restarts => RollbackAndRestart(HoldRow(s, p, snap), p, AfterLockedRead(s, pr, snap, pr.pc))
    case Proceeds(pc) => SetProc(HoldRow(s, p, snap), p, AfterLockedRead(s, pr, snap, pc))
  }

  function RefreshDocumentNow(s: State, p: Pid, pr: Proc): State
    requires pr.Writer?
  {
    SetProc(s, p, pr.(pc := RefreshingChunks,
                      tx := RefreshDocument(s.db, pr.tx, pr.req.collection, pr.docId, MetaOf(pr.req))))
  }

  function RefreshChunksNow(s: State, p: Pid, pr: Proc): State
    requires pr.Writer?
  {
    SetProc(s, p, pr.(pc := Committing(MetadataRefresh, CountOf(pr.locked)),
                      tx := RefreshChunks(s.db, pr.tx, pr.req.collection, pr.docId, MetaOf(pr.req))))
  }

  function DeleteChunksNow(s: State, p: Pid, pr: Proc): State
    requires pr.Writer?
  {
    SetProc(s, p, pr.(pc := InsertingChunk(0), tx := DeleteChunks(s.db, pr.tx, pr.req.collection, pr.docId)))
  }

  function SetCountNow(s: State, p: Pid, pr: Proc): State
    requires pr.Writer?
  {
    SetProc(s, p, pr.(pc := Committing(Reindex, |pr.prepared|),
                      tx := SetCount(s.db, pr.tx, pr.req.collection, pr.docId, |pr.prepared|)))
  }

  function DoFail(s: State, p: Pid, pr: Proc): State
    requires pr.Writer?
  {
    Unlock(SetProc(s, p, pr.(pc := Returned(Failed))), p)
  }

  function DoUpsert(s: State, p: Pid, pr: Proc, conflict: Snapshot, newId: int, hash: string): State
    requires pr.Writer? && Loads(VisibleDocs(s.db, pr.tx), KeyOf(pr.req), conflict)
  {
    var tx := UpsertRow(s.db, pr.tx, KeyOf(pr.req), MetaOf(pr.req), hash, conflict, newId);
    if conflict.Present? then
      SetProc(s, p, pr.(pc := DeletingChunks, tx := tx, docId := conflict.id)).(rowLocks := s.rowLocks[conflict.id := p])
    else
      SetProc(s, p, pr.(pc := DeletingChunks, tx := tx, docId := newId)).(docIds := s.docIds[newId := p])
  }

  function DoInsert(s: State, p: Pid, pr: Proc, newId: int): State
    requires pr.Writer? && pr.pc.InsertingChunk? && pr.pc.next < |pr.prepared|
  {
    var row := NewChunk(pr.tx, pr.req, pr.docId, pr.prepared[pr.pc.next]);
    var next := pr.pc.next + 1;
    SetProc(s, p, pr.(pc := if next < |pr.prepared| then InsertingChunk(next) else SettingCount,
                      tx := pr.tx.(chunks := pr.tx.chunks[newId := row])))
      .(chunkIds := s.chunkIds[newId := p])
  }

  function CommitEvent(env: Env, p: Pid, pr: Proc): Event
    requires pr.Writer? && pr.pc.Committing?
  {
    var k := KeyOf(pr.req);
    var h := HashOf(env, pr.req);
    Wrote(p, pr.req, h, pr.force, pr.prepared, Stats(k, h, pr.pc.chunkCount), if pr.pc.action.Noop? then {} else {k})
  }

  function DoCommit(env: Env, s: State, p: Pid, pr: Proc): State
    requires pr.Writer? && pr.pc.Committing?
  {
    var db := Merge(s.db, pr.tx);
    var e := CommitEvent(env, p, pr);
    Unlock(SetProc(s, p, pr.(pc := Returned(Ok(e.stats)), past := pr.past.(committedAt := |s.log|)))
      .(db := db,
        log := s.log + [e],
        published := if !pr.pc.action.Noop? && pr.docId in db.docs
                     then s.published[VersionId(pr.docId, pr.tx.stamp) := Version(pr.docId, db.docs[pr.docId], ChunksOf(db, pr.docId))]
                     else s.published), p)
  }

  function DoDeleteDocument(s: State, p: Pid, k: Key, snap: Snapshot): State {
    var ids := if snap.Present? then {snap.id} else {};
    s.(db := DeleteDocs(s.db, ids),
       procs := s.procs[p := Deleter],
       log := s.log + [Removed(p, k, if snap.Present? then {k} else {})])
  }

  function DoDeleteCollection(s: State, p: Pid, collection: string): State {
    var ids := IdsIn(s.db, collection);
    s.(db := DeleteDocs(s.db, ids),
       procs := s.procs[p := Deleter],
       log := s.log + [Dropped(p, collection, set d | d in ids :: s.db.docs[d].key)])
  }

  function Step(env: Env, s: State, p: Pid, m: Move): State
    requires Enabled(env, s, p, m)
  {
    match m
    case Call(req, force) => DoCall(s, p, req, force)
    case DeleteDocument(c, id, snap) =>
      DoDeleteDocument(s, p, Key(ResolveCollection(env.defaultCollection, c), Trim(id)), snap)
    case DeleteCollection(c) => DoDeleteCollection(s, p, Trim(c))
    case _ => WriterStep(env, s, p, s.procs[p], m)
  }

  function WriterStep(env: Env, s: State, p: Pid, pr: Proc, m: Move): State
    requires Enabled(env, s, p, m) && p in s.procs && s.procs[p] == pr
    requires !m.Call? && !m.DeleteDocument? && !m.DeleteCollection?
  {
    match m
    case Enter => DoEnter(env, s, p, pr)
    case PreRead(snap) => DoPreRead(env, s, p, pr, snap)
    case Prepare(ps) => DoPrepare(s, p, pr, ps)
    case Begin(t) => DoBegin(s, p, pr, t)
    case Lock => DoLock(env, s, p, pr)
    case LockedRead(snap) => DoLockedRead(env, s, p, pr, snap)
    case DoRefreshDocument => RefreshDocumentNow(s, p, pr)
    case DoRefreshChunks => RefreshChunksNow(s, p, pr)
    case DoUpsertRow(conflict, newId) => DoUpsert(s, p, pr, conflict, newId, HashOf(env, pr.req))
    case DoDeleteChunks => DeleteChunksNow(s, p, pr)
    case DoInsertChunk(newId) => DoInsert(s, p, pr, newId)
    case DoSetCount => SetCountNow(s, p, pr)
    case Commit => DoCommit(env, s, p, pr)
    case Fail => DoFail(s, p, pr)
  }

  // ---- Runs ----

  // Some call has a move that leads from s to t.
  ghost predicate CanStep(env: Env, s: State, t: State) {
    exists p, m :: Enabled(env, s, p, m) && t == Step(env, s, p, m)
  }

  ghost function Next(env: Env): (State, State) -> bool {
    (s, t) => CanStep(env, s, t)
  }

  ghost predicate Reachable(env: Env, s: State) {
    Reaches(Next(env), START, s)
  }
}
