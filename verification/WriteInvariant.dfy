/** What every reachable state of the write protocol satisfies, globally and per call. */
module WriteInvariant {
  import opened Requests
  import opened Tables
  import opened AtomicDocuments
  import opened WriteProtocol

  // ---- The committed tables and the history ----

  function DocumentOf(row: DocRow, cs: map<int, ChunkRow>): Document {
    Document(row.meta, row.contentHash, row.chunkCount, Pieces(cs))
  }

  function KeysOf(db: Tables): set<Key> {
    set d | d in db.docs :: db.docs[d].key
  }

  // The tables, read as an atomic map of documents.
  predicate Represents(db: Tables, m: Documents) {
    && m.Keys == KeysOf(db)
    && forall d | d in db.docs :: m[db.docs[d].key] == DocumentOf(db.docs[d], ChunksOf(db, d))
  }

  predicate IdsAllocated(s: State) {
    && (forall d | d in s.db.docs :: d in s.docIds)
    && (forall c | c in s.db.chunks :: c in s.chunkIds)
  }

  // Every committed version is on record under its id and updated_at.
  predicate VersionsPublished(s: State) {
    && (forall d | d in s.db.docs ::
          && VersionId(d, s.db.docs[d].updatedAt) in s.published
          && s.published[VersionId(d, s.db.docs[d].updatedAt)] == Version(d, s.db.docs[d], ChunksOf(s.db, d)))
    && (forall v | v in s.published :: v.at in s.stamps)
  }

  // A document's chunks are one prepare of content whose hash it stores.
  predicate FromPrepare(env: Env, row: DocRow, cs: map<int, ChunkRow>, content: string, ps: seq<Piece>) {
    && env.hash(content) == row.contentHash
    && Pieces(cs) == PieceSet(ps)
    && |cs| == row.chunkCount == |ps|
  }

  predicate Sourced(env: Env, produced: set<Production>, row: DocRow, cs: map<int, ChunkRow>) {
    exists x | x in produced :: FromPrepare(env, row, cs, x.content, x.pieces)
  }

  predicate AllSourced(env: Env, s: State) {
    && (forall d | d in s.db.docs :: Sourced(env, s.produced, s.db.docs[d], ChunksOf(s.db, d)))
    && (forall x | x in s.produced :: PreparedOk(env, x.pieces))
  }

  predicate DataInv(env: Env, s: State) {
    && Consistent(s.db)
    && IdsAllocated(s)
    && HonestLog(s.log)
    && Represents(s.db, Replay(s.log))
    && VersionsPublished(s)
    && AllSourced(env, s)
  }

  // ---- Where a call is ----

  predicate HasRead(pc: Pc) {
    !pc.Entering? && !pc.PreReading? && !pc.Returned?
  }

  predicate InTx(pc: Pc) {
    HasRead(pc) && !pc.Preparing? && !pc.Beginning?
  }

  predicate HoldsAdvisory(pc: Pc) {
    InTx(pc) && !pc.Locking?
  }

  // Past the locked read and before the commit.
  predicate InBody(pc: Pc) {
    HoldsAdvisory(pc) && !pc.LockedReading?
  }

  predicate Succeeded(pc: Pc) {
    pc.Returned? && pc.result.Ok?
  }

  // ---- Locks ----

  predicate AdvisoryHolder(env: Env, s: State, p: Pid, k: int) {
    && p in s.procs && s.procs[p].Writer?
    && HoldsAdvisory(s.procs[p].pc)
    && env.lockKey(KeyOf(s.procs[p].req)) == k
  }

  predicate RowHolder(s: State, p: Pid, d: int) {
    && p in s.procs && s.procs[p].Writer?
    && InBody(s.procs[p].pc)
    && s.procs[p].locked.Present? && s.procs[p].locked.id == d
  }

  predicate LocksInv(env: Env, s: State) {
    && (forall k | k in s.advisory :: AdvisoryHolder(env, s, s.advisory[k], k))
    && (forall d | d in s.rowLocks :: RowHolder(s, s.rowLocks[d], d))
  }

  // ---- One call ----

  predicate NoEventsBy(log: seq<Event>, p: Pid) {
    forall i | 0 <= i < |log| :: log[i].pid != p
  }

  // Another call changed key k within log[lo..hi].
  predicate ForeignChange(log: seq<Event>, p: Pid, k: Key, lo: nat, hi: nat) {
    lo <= hi <= |log| && exists i :: lo <= i < hi && log[i].pid != p && k in log[i].changed
  }

  predicate RestartsOk(s: State, p: Pid, pr: Proc)
    requires pr.Writer?
  {
    var rs := pr.past.restarts;
    && |rs| == pr.attempt + (if pr.pc == Returned(ChangedConcurrently) then 1 else 0)
    && |rs| <= 2 && pr.attempt <= 1
    && (pr.pc == Returned(ChangedConcurrently) ==> pr.attempt == 1)
    && (forall j | 0 <= j < |rs| ::
          pr.past.callAt <= rs[j].lo && ForeignChange(s.log, p, rs[j].key, rs[j].lo, rs[j].hi))
    && (|rs| == 2 ==> rs[0].hi <= rs[1].lo)
  }

  predicate CallInv(s: State, p: Pid, pr: Proc)
    requires pr.Writer?
  {
    && (!Succeeded(pr.pc) ==> NoEventsBy(s.log, p))
    && pr.past.callAt <= |s.log|
    && RestartsOk(s, p, pr)
    && pr.past.prepares <= pr.attempt + 1
    && (pr.pc.Entering? || pr.pc.PreReading? ==> pr.past.prepares <= pr.attempt)
    && (HasRead(pr.pc) && pr.mode.Cheap? ==> pr.past.prepares <= pr.attempt)
  }

  // What the pre-read saw was committed then, and still is unless the key changed since.
  predicate ReadInv(env: Env, s: State, pr: Proc)
    requires pr.Writer?
  {
    var k := KeyOf(pr.req);
    var v := pr.past.seen;
    && pr.past.callAt <= pr.past.readAt <= |s.log|
    && (|pr.past.restarts| == 1 ==> pr.past.restarts[0].hi <= pr.past.readAt)
    && pr.expected == SnapshotOfVersion(v)
    && (v.Version? ==>
          && v.row.key == k
          && VersionId(v.id, v.row.updatedAt) in s.published && s.published[VersionId(v.id, v.row.updatedAt)] == v)
    && (Quiet(s.log, pr.past.readAt, |s.log|, k) ==> Holds(s.db, k, v))
    && (v.Version? && StillThere(s.db, v) ==> Quiet(s.log, pr.past.readAt, |s.log|, k))
    && AgreesWith(Replay(s.log[..pr.past.readAt]), k, v)
    && (pr.mode.Rebuild? <==> Classify(pr.expected, pr.req, HashOf(env, pr.req), pr.force).Reindex?)
    && (pr.pc.Preparing? ==> pr.mode.Rebuild?)
    && (pr.mode.Rebuild? && !pr.pc.Preparing? ==> Production(pr.req.content, pr.prepared) in s.produced)
  }

  // The row is there under the same id and updated_at.
  predicate StillThere(db: Tables, v: Version)
    requires v.Version?
  {
    v.id in db.docs && db.docs[v.id].updatedAt == v.row.updatedAt
  }

  predicate AgreesWith(m: Documents, k: Key, v: Version) {
    match v
    case NoVersion => k !in m
    case Version(_, row, cs) => k in m && m[k] == DocumentOf(row, cs)
  }

  predicate TxInv(s: State, p: Pid, pr: Proc)
    requires pr.Writer?
  {
    && pr.tx.stamp in s.stamps && s.stamps[pr.tx.stamp] == p
    && (forall v | v in s.published :: v.at != pr.tx.stamp)
    && (pr.pc.Locking? || pr.pc.LockedReading? ==> pr.tx == Tx(pr.tx.stamp, map[], {}, map[]))
  }

  // From the locked read to the commit, the committed document is what the locked read saw; a
  // rebuild's is moreover what its pre-read saw.
  predicate BodyInv(env: Env, s: State, p: Pid, pr: Proc)
    requires pr.Writer?
  {
    var v := pr.past.lockedSeen;
    && Holds(s.db, KeyOf(pr.req), v)
    && pr.locked == SnapshotOfVersion(v)
    && (pr.locked.Present? ==> pr.locked.id in s.rowLocks && s.rowLocks[pr.locked.id] == p)
    && (pr.mode.Rebuild? ==> v == pr.past.seen)
    && BranchInv(env, pr)
  }

  // Which branch leads to which statement.
  predicate BranchInv(env: Env, pr: Proc)
    requires pr.Writer?
  {
    var again := Classify(pr.locked, pr.req, HashOf(env, pr.req), false);
    match pr.pc
    case RefreshingDocument => pr.mode.Cheap? && again.MetadataRefresh?
    case RefreshingChunks => pr.mode.Cheap? && again.MetadataRefresh?
    case Committing(Noop, _) => pr.mode.Cheap? && again.Noop?
    case Committing(MetadataRefresh, _) => pr.mode.Cheap? && again.MetadataRefresh?
    case _ => pr.mode.Rebuild?
  }

  // ---- The transaction's own writes, statement by statement ----

  function RefreshedRow(row: DocRow, meta: Meta, t: Stamp): DocRow {
    row.(meta := meta, updatedAt := t)
  }

  function RefreshedChunks(cs: map<int, ChunkRow>, meta: Meta, t: Stamp): map<int, ChunkRow> {
    map c | c in cs :: cs[c].(meta := meta, updatedAt := t)
  }

  function UpsertedRow(v: Version, k: Key, meta: Meta, contentHash: string, t: Stamp): DocRow {
    match v
    case NoVersion => DocRow(k, meta, contentHash, 0, t, t)
    case Version(_, row, _) => row.(meta := meta, contentHash := contentHash, updatedAt := t)
  }

  function OldChunks(v: Version): set<int> {
    if v.Version? then v.chunks.Keys else {}
  }

  predicate IdInv(s: State, p: Pid, pr: Proc)
    requires pr.Writer?
  {
    match pr.past.lockedSeen
    case Version(d, _, _) => pr.docId == d
    case NoVersion => pr.docId in s.docIds && s.docIds[pr.docId] == p && pr.docId !in s.db.docs
  }

  // The first n pieces are in, each once, under new ids.
  predicate InsertedUpTo(db: Tables, tx: Tx, r: Request, id: int, ps: seq<Piece>, n: nat) {
    && n <= |ps| && |tx.chunks| == n
    && Pieces(tx.chunks) == PieceSet(ps[..n])
    && OrdinalsDistinct(tx.chunks)
    && (forall c | c in tx.chunks :: c !in db.chunks && tx.chunks[c] == NewChunk(tx, r, id, tx.chunks[c].piece))
  }

  // The first n prepared pieces have been inserted, under ids of this call's own.
  predicate Built(s: State, p: Pid, pr: Proc, n: nat)
    requires pr.Writer?
  {
    && InsertedUpTo(s.db, pr.tx, pr.req, pr.docId, pr.prepared, n)
    && (forall c | c in pr.tx.chunks :: c in s.chunkIds && s.chunkIds[c] == p)
  }

  function NewRow(env: Env, pr: Proc): DocRow
    requires pr.Writer?
  {
    UpsertedRow(pr.past.lockedSeen, KeyOf(pr.req), MetaOf(pr.req), HashOf(env, pr.req), pr.tx.stamp)
  }

  predicate WritesInv(env: Env, s: State, p: Pid, pr: Proc)
    requires pr.Writer?
  {
    var tx := pr.tx;
    var v := pr.past.lockedSeen;
    var meta := MetaOf(pr.req);
    match pr.pc
    case RefreshingDocument =>
      v.Version? && pr.docId == v.id && tx == Tx(tx.stamp, map[], {}, map[])
    case RefreshingChunks =>
      v.Version? && pr.docId == v.id
      && tx == Tx(tx.stamp, map[v.id := RefreshedRow(v.row, meta, tx.stamp)], {}, map[])
    case Committing(Noop, n) =>
      tx == Tx(tx.stamp, map[], {}, map[]) && n == CountOf(pr.locked)
    case Committing(MetadataRefresh, n) =>
      v.Version? && pr.docId == v.id && n == CountOf(pr.locked)
      && tx == Tx(tx.stamp, map[v.id := RefreshedRow(v.row, meta, tx.stamp)], {},
                  RefreshedChunks(v.chunks, meta, tx.stamp))
    case UpsertingRow =>
      tx == Tx(tx.stamp, map[], {}, map[])
    case DeletingChunks =>
      IdInv(s, p, pr) && tx == Tx(tx.stamp, map[pr.docId := NewRow(env, pr)], {}, map[])
    case InsertingChunk(i) =>
      && IdInv(s, p, pr) && i < |pr.prepared| && Built(s, p, pr, i)
      && tx.docs == map[pr.docId := NewRow(env, pr)] && tx.gone == OldChunks(v)
    case SettingCount =>
      && IdInv(s, p, pr) && Built(s, p, pr, |pr.prepared|)
      && tx.docs == map[pr.docId := NewRow(env, pr)] && tx.gone == OldChunks(v)
    case Committing(Reindex, n) =>
      && IdInv(s, p, pr) && Built(s, p, pr, |pr.prepared|) && n == |pr.prepared|
      && tx.docs == map[pr.docId := NewRow(env, pr).(chunkCount := n)] && tx.gone == OldChunks(v)
    case _ => true
  }

  // A call that returned its statistics committed exactly once, with those statistics.
  predicate DoneInv(env: Env, s: State, p: Pid, pr: Proc)
    requires pr.Writer? && Succeeded(pr.pc)
  {
    var i := pr.past.committedAt;
    && pr.past.callAt <= pr.past.readAt <= i < |s.log|
    && (|pr.past.restarts| == 1 ==> pr.past.restarts[0].hi <= pr.past.readAt)
    && s.log[i].Wrote? && s.log[i].pid == p
    && s.log[i].req == pr.req && s.log[i].force == pr.force
    && s.log[i].contentHash == HashOf(env, pr.req)
    && s.log[i].stats == pr.pc.result.stats
    && (forall j | 0 <= j < |s.log| && j != i :: s.log[j].pid != p)
    && AgreesWith(Replay(s.log[..pr.past.readAt]), KeyOf(pr.req), pr.past.seen)
    && pr.expected == SnapshotOfVersion(pr.past.seen)
    && (pr.mode.Rebuild? <==> Classify(pr.expected, pr.req, HashOf(env, pr.req), pr.force).Reindex?)
    && (pr.mode.Rebuild? && pr.past.seen.Version? ==> Quiet(s.log, pr.past.readAt, i, KeyOf(pr.req)))
    && (pr.mode.Cheap? ==> pr.past.prepares <= pr.attempt)
  }

  predicate WriterInv(env: Env, s: State, p: Pid, pr: Proc)
    requires pr.Writer?
  {
    && CallInv(s, p, pr)
    && (HasRead(pr.pc) ==> ReadInv(env, s, pr))
    && (InTx(pr.pc) ==> TxInv(s, p, pr))
    && (HoldsAdvisory(pr.pc) ==>
          var k := env.lockKey(KeyOf(pr.req)); k in s.advisory && s.advisory[k] == p)
    && (InBody(pr.pc) ==> BodyInv(env, s, p, pr) && WritesInv(env, s, p, pr))
    && (Succeeded(pr.pc) ==> DoneInv(env, s, p, pr))
  }

  ghost predicate ProcsInv(env: Env, s: State) {
    && (forall p | p in s.procs && s.procs[p].Writer? :: WriterInv(env, s, p, s.procs[p]))
    && (forall p | p !in s.procs :: NoEventsBy(s.log, p))
  }

  ghost predicate Inv(env: Env, s: State) {
    DataInv(env, s) && LocksInv(env, s) && ProcsInv(env, s)
  }
}
