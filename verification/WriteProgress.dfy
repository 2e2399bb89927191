/** Waiting, repetition, and what each kind of write leaves in the rows. */
module WriteProgress {
  import opened Text
  import opened Requests
  import opened Tables
  import opened AtomicDocuments
  import opened WriteProtocol
  import opened WriteInvariant
  import opened WriteLocalSteps
  import opened WriteBodySteps
  import opened WriteStatements
  import opened WriteCommits
  import opened WriteCommitSteps
  import opened WriteSafety
  import opened WriteTheorems

  // ---- Waiting ----

  lemma UnusedId(ids: map<int, Pid>) returns (x: int)
    ensures x !in ids
  {
    var top := 0;
    var rest := ids.Keys;
    while rest != {}
      invariant forall y | y in ids.Keys && y !in rest :: y < top
      decreases |rest|
    {
      var y := Pick(rest);
      if y >= top { top := y + 1; }
      rest := rest - {y};
    }
    x := top;
  }

  predicate WriterIn(s: State, p: Pid) {
    p in s.procs && s.procs[p].Writer?
  }

  lemma SomeLoad(docs: map<int, DocRow>, k: Key) returns (snap: Snapshot)
    ensures Loads(docs, k, snap)
  {
    if d :| d in docs && docs[d].key == k {
      snap := SnapshotOf(d, docs[d]);
    } else {
      snap := Absent;
    }
  }

  lemma RowHolderWrites(env: Env, s: State, d: int)
    requires Inv(env, s) && d in s.db.docs && d in s.rowLocks
    ensures var q := s.rowLocks[d];
      WriterIn(s, q) && InBody(s.procs[q].pc) && KeyOf(s.procs[q].req) == s.db.docs[d].key
  {
    hide DataInv, CallInv, ReadInv, TxInv, WritesInv, BranchInv, ChunksOf;
    var q := s.rowLocks[d];
    assert RowHolder(s, q, d);
    assert WriterInv(env, s, q, s.procs[q]);
  }

  lemma RowsFree(env: Env, s: State, p: Pid, pr: Proc, snap: Snapshot)
    requires Inv(env, s) && p in s.procs && s.procs[p] == pr && pr.Writer? && HoldsAdvisory(pr.pc)
    requires Loads(s.db.docs, KeyOf(pr.req), snap)
    ensures snap.Present? ==> snap.id in s.db.docs && Unlocked(s, p, snap.id)
  {
    hide Inv, CallInv, ReadInv, TxInv, BodyInv, WritesInv;
    InvOf(env, s, p);
    if snap.Present? && snap.id in s.rowLocks {
      var q := s.rowLocks[snap.id];
      RowHolderWrites(env, s, snap.id);
      InvOf(env, s, q);
    }
  }

  // The next insert repeats an ordinal of the same list, which the unique constraints refuse.
  predicate RepeatsOrdinal(pr: Proc) {
    && pr.Writer? && pr.pc.InsertingChunk? && pr.pc.next < |pr.prepared|
    && exists j | 0 <= j < pr.pc.next :: pr.prepared[j].ordinal == pr.prepared[pr.pc.next].ordinal
  }

  // A call that holds its document's advisory lock never waits: whatever the others are doing, its
  // next statement can run, and the only statement that must fail is an insert that repeats an
  // ordinal.
  lemma HolderNeverWaits(env: Env, s: State, p: Pid) returns (m: Move)
    requires Reachable(env, s) && p in s.procs && s.procs[p].Writer? && HoldsAdvisory(s.procs[p].pc)
    ensures Enabled(env, s, p, m) && (m.Fail? <==> RepeatsOrdinal(s.procs[p]))
    ensures m.Fail? ==> forall newId :: !Enabled(env, s, p, DoInsertChunk(newId))
  {
    hide Inv, Reachable, Loads, Insertable, NewChunk, WriterInv, VisibleDocs;
    ReachableInv(env, s);
    var pr := s.procs[p];
    InvOf(env, s, p);
    if pr.pc.LockedReading? || pr.pc.UpsertingRow? {
      var snap := SomeLoad(s.db.docs, KeyOf(pr.req));
      RowsFree(env, s, p, pr, snap);
      EmptyBeforeWrites(env, s, p, pr);
      var newDoc := UnusedId(s.docIds);
      m := if pr.pc.LockedReading? then LockedRead(snap) else DoUpsertRow(snap, newDoc);
    } else if pr.pc.InsertingChunk? {
      InsertOnlyClashesWithItself(env, s, p);
      var newChunk := UnusedId(s.chunkIds);
      m := if RepeatsOrdinal(pr) then Fail else DoInsertChunk(newChunk);
    } else {
      if pr.pc.RefreshingDocument? { RefreshRowFree(env, s, p, pr); }
      m := match pr.pc
        case RefreshingDocument => DoRefreshDocument
        case RefreshingChunks => DoRefreshChunks
        case DeletingChunks => DoDeleteChunks
        case SettingCount => DoSetCount
        case _ => Commit;
    }
  }

  lemma EmptyBeforeWrites(env: Env, s: State, p: Pid, pr: Proc)
    requires pr.Writer? && WriterInv(env, s, p, pr) && (pr.pc.LockedReading? || pr.pc.UpsertingRow?)
    ensures VisibleDocs(s.db, pr.tx) == s.db.docs
  {
    assert pr.tx.docs == map[] by {
      hide CallInv, ReadInv, BodyInv;
    }
    hide WriterInv;
    assert s.db.docs + map[] == s.db.docs;
  }

  lemma RefreshRowFree(env: Env, s: State, p: Pid, pr: Proc)
    requires pr.Writer? && WriterInv(env, s, p, pr) && pr.pc.RefreshingDocument?
    ensures Unlocked(s, p, pr.docId)
  {
    hide CallInv, ReadInv, TxInv, Holds, BranchInv;
    assert BodyInv(env, s, p, pr) && WritesInv(env, s, p, pr);
    hide WriterInv;
  }

  // The call has no step but to fail: its next insert repeats an ordinal, or the chunk limit is so
  // low that the splitter can return nothing that passes. No store opens with such a limit.
  predicate MustFail(env: Env, pr: Proc) {
    RepeatsOrdinal(pr) || (pr.Writer? && pr.pc.Preparing? && env.maxChunkChars <= 0)
  }

  lemma LetterKept()
    ensures Trim("x") == "x"
  {
    assert !IsSpace('x');
    hide IsSpace, Trim;
    TrimFixed("x");
  }

  lemma SomePieces(env: Env) returns (ps: seq<Piece>)
    requires env.maxChunkChars > 0
    ensures PreparedOk(env, ps) && |ps| == 1
  {
    hide Trim;
    LetterKept();
    var zeros := seq(env.dimensions, i => 0);
    ps := [Piece(0, "x", zeros)];
    assert |"x"| == 1 && |zeros| == env.dimensions;
  }

  // A call outside the advisory lock can move unless it waits for that lock.
  lemma OutsiderMoves(env: Env, s: State, p: Pid) returns (m: Move)
    requires Running(s, p) && !HoldsAdvisory(s.procs[p].pc)
    requires s.procs[p].pc.Locking? ==> env.lockKey(KeyOf(s.procs[p].req)) !in s.advisory
    ensures Enabled(env, s, p, m) && (m.Fail? ==> MustFail(env, s.procs[p]))
  {
    hide Loads, PreparedOk;
    var pr := s.procs[p];
    match pr.pc {
      case Entering => m := Enter;
      case PreReading =>
        var snap := SomeLoad(s.db.docs, KeyOf(pr.req));
        m := PreRead(snap);
      case Preparing =>
        if env.maxChunkChars > 0 {
          var ps := SomePieces(env);
          m := Prepare(ps);
        } else {
          m := Fail;
        }
      case Beginning =>
        var t := UnusedId(s.stamps);
        m := Begin(t);
      case _ => m := Lock;
    }
  }

  // No deadlock: whenever a call is running, some running call can take a step, and it is a failure
  // only where that call has no other.
  lemma SomeCallMoves(env: Env, s: State, p: Pid) returns (q: Pid, m: Move)
    requires Reachable(env, s) && Running(s, p)
    ensures Running(s, q) && Enabled(env, s, q, m) && (m.Fail? ==> MustFail(env, s.procs[q]))
  {
    hide Reachable, Inv, Enabled;
    var pr := s.procs[p];
    var k := env.lockKey(KeyOf(pr.req));
    if HoldsAdvisory(pr.pc) {
      q := p;
      m := HolderNeverWaits(env, s, p);
    } else if pr.pc.Locking? && k in s.advisory {
      q := s.advisory[k];
      ReachableInv(env, s);
      LockHolderRuns(env, s, k);
      m := HolderNeverWaits(env, s, q);
    } else {
      q := p;
      m := OutsiderMoves(env, s, p);
    }
  }

  lemma LockHolderRuns(env: Env, s: State, k: int)
    requires Inv(env, s) && k in s.advisory
    ensures Running(s, s.advisory[k]) && HoldsAdvisory(s.procs[s.advisory[k]].pc)
  {
    hide DataInv, ProcsInv;
    assert AdvisoryHolder(env, s, s.advisory[k], k);
  }

  // ---- What the locked read decides ----

  // A call is rebuilding exactly if the documents called for a reindex at its pre-read. Under the lock a
  // rebuild goes on exactly if the row is the one its pre-read saw, and any other call exactly if the
  // documents, as they are now, call for no reindex: a no-op then commits, and a refresh writes. A call
  // that does not go on starts again, once.
  lemma LockedReadDecides(env: Env, s: State, p: Pid, snap: Snapshot)
    requires Reachable(env, s) && Enabled(env, s, p, LockedRead(snap))
    ensures var pr := s.procs[p];
      var k, meta, h := KeyOf(pr.req), MetaOf(pr.req), HashOf(env, pr.req);
      var now := Decide(Replay(s.log), k, meta, h, false);
      var t := Step(env, s, p, LockedRead(snap));
      && pr.past.readAt <= |s.log|
      && (pr.mode.Rebuild? <==> Decide(Replay(s.log[..pr.past.readAt]), k, meta, h, pr.force).Reindex?)
      && WriterIn(t, p)
      && t.procs[p].pc == (
           if pr.mode.Rebuild? && snap == pr.expected then UpsertingRow
           else if pr.mode.Cheap? && now.Noop? then Committing(Noop, CountOf(snap))
           else if pr.mode.Cheap? && now.MetadataRefresh? then RefreshingDocument
           else if pr.attempt == 0 then Entering
           else Returned(ChangedConcurrently))
  {
    hide Reachable, Inv, Replay, WriterInv, DoLockedRead, Loads, Decide, DataInv, VisibleDocs, Judge;
    ReachableInv(env, s);
    var pr := s.procs[p];
    InvOf(env, s, p);
    DataOf(env, s);
    LoadsCommitted(env, s, p, pr, snap);
    FreshRead(env, s, KeyOf(pr.req), snap);
    assert s.log[..|s.log|] == s.log;
    DecideIsClassify(Replay(s.log), pr.req, HashOf(env, pr.req), false, VersionAt(s.db, snap));
    ReadDecision(env, s, p, pr);
    JudgeDecides(env, s, p, pr, snap);
  }

  lemma ReadDecision(env: Env, s: State, p: Pid, pr: Proc)
    requires pr.Writer? && WriterInv(env, s, p, pr) && pr.pc.LockedReading?
    ensures pr.past.readAt <= |s.log|
    ensures pr.mode.Rebuild?
            <==> Decide(Replay(s.log[..pr.past.readAt]), KeyOf(pr.req), MetaOf(pr.req), HashOf(env, pr.req), pr.force).Reindex?
    ensures pr.mode.Rebuild? <==> Classify(pr.expected, pr.req, HashOf(env, pr.req), pr.force).Reindex?
  {
    assert ReadInv(env, s, pr);
    hide WriterInv, Replay, Decide, Classify, AgreesWith, Holds, Quiet, StillThere;
    DecideIsClassify(Replay(s.log[..pr.past.readAt]), pr.req, HashOf(env, pr.req), pr.force, pr.past.seen);
  }

  lemma JudgeDecides(env: Env, s: State, p: Pid, pr: Proc, snap: Snapshot)
    requires pr.Writer? && (snap.Present? ==> snap.id in s.db.docs)
    requires pr.mode.Rebuild? <==> Classify(pr.expected, pr.req, HashOf(env, pr.req), pr.force).Reindex?
    ensures var now := Classify(snap, pr.req, HashOf(env, pr.req), false);
      var t := DoLockedRead(env, s, p, pr, snap);
      && WriterIn(t, p)
      && t.procs[p].pc == (
           if pr.mode.Rebuild? && snap == pr.expected then UpsertingRow
           else if pr.mode.Cheap? && now.Noop? then Committing(Noop, CountOf(snap))
           else if pr.mode.Cheap? && now.MetadataRefresh? then RefreshingDocument
           else if pr.attempt == 0 then Entering
           else Returned(ChangedConcurrently))
  {
    hide Judge, Classify, VersionAt, RollbackAndRestart, HoldRow;
    JudgeIs(env, pr, snap);
    RestartedPc(HoldRow(s, p, snap), p, AfterLockedRead(s, pr, snap, pr.pc));
  }

  lemma JudgeIs(env: Env, pr: Proc, snap: Snapshot)
    requires pr.Writer?
    requires pr.mode.Rebuild? <==> Classify(pr.expected, pr.req, HashOf(env, pr.req), pr.force).Reindex?
    ensures var now := Classify(snap, pr.req, HashOf(env, pr.req), false);
      Judge(env, pr, snap) ==
        if pr.mode.Rebuild? && snap == pr.expected then Proceeds(UpsertingRow)
        else if pr.mode.Cheap? && now.Noop? then Proceeds(Committing(Noop, CountOf(snap)))
        else if pr.mode.Cheap? && now.MetadataRefresh? then Proceeds(RefreshingDocument)
        else Restarts
  {
    EqualSnapshots(snap, pr.expected);
    Forced(pr.expected, pr.req, HashOf(env, pr.req), pr.force);
    hide SnapshotsEqual, Classify;
  }

  lemma RestartedPc(s: State, p: Pid, pr: Proc)
    requires pr.Writer?
    ensures var t := RollbackAndRestart(s, p, pr);
      WriterIn(t, p) && t.procs[p].pc == if pr.attempt == 0 then Entering else Returned(ChangedConcurrently)
  {
    hide Free;
  }

  lemma Forced(snap: Snapshot, r: Request, h: string, force: bool)
    ensures !force ==> Classify(snap, r, h, force) == Classify(snap, r, h, false)
  {}

  // ---- Repeating a write ----

  // The document right after a successful write is what a repetition of the request asks for.
  lemma WrittenDocument(env: Env, s: State, p: Pid)
    requires Reachable(env, s) && p in s.procs && s.procs[p].Writer? && Succeeded(s.procs[p].pc)
    requires s.procs[p].past.committedAt < |s.log|
    ensures Decide(Replay(s.log[..s.procs[p].past.committedAt + 1]), KeyOf(s.procs[p].req), MetaOf(s.procs[p].req),
                   HashOf(env, s.procs[p].req), false).Noop?
  {
    SuccessIsOneCommit(env, s, p);
    hide Reachable, Replay;
  }

  // An upsert of a request, begun after a successful write of it and with no change to the document
  // until it commits in turn, takes the no-op path at its first attempt.
  lemma RepeatTakesNoop(env: Env, s: State, p: Pid, q: Pid)
    requires Reachable(env, s)
    requires p in s.procs && s.procs[p].Writer? && Succeeded(s.procs[p].pc)
    requires q in s.procs && s.procs[q].Writer? && Succeeded(s.procs[q].pc)
    requires s.procs[q].req == s.procs[p].req && !s.procs[q].force && RestartedOn(s.procs[q], KeyOf(s.procs[q].req))
    requires s.procs[p].past.committedAt < s.procs[q].past.callAt <= s.procs[q].past.committedAt <= |s.log|
    requires Quiet(s.log, s.procs[p].past.committedAt + 1, s.procs[q].past.committedAt, KeyOf(s.procs[p].req))
    ensures var pr := s.procs[q];
      var j := pr.past.committedAt;
      && pr.attempt == 0 && pr.past.prepares == 0
      && j < |s.log| && s.log[j].changed == {} && Replay(s.log[..j + 1]) == Replay(s.log[..j])
      && pr.pc.result == s.procs[p].pc.result
  {
    hide Inv, Reachable, Replay, Classify, AgreesWith, Write, DoneInv, RestartsOk, Decide, RestartedOn, HonestLog,
         Honest, WriterInv;
    ReachableInv(env, s);
    var pr := s.procs[q];
    var i, j, r := s.procs[p].past.committedAt, pr.past.committedAt, pr.past.readAt;
    var k := KeyOf(pr.req);
    SuccessIsOneCommit(env, s, p);
    SuccessIsOneCommit(env, s, q);
    RepeatFacts(env, s, q, pr);
    DoneFacts(env, s, q, pr);
    WrittenDocument(env, s, p);
    QuietKeepsDocument(s.log, i + 1, r, k);
    DecideAgrees(Replay(s.log[..i + 1]), Replay(s.log[..r]), k, MetaOf(pr.req), HashOf(env, pr.req));
    DecideIsClassify(Replay(s.log[..r]), pr.req, HashOf(env, pr.req), false, pr.past.seen);
    QuietKeepsDocument(s.log, i + 1, j, k);
    DecideAgrees(Replay(s.log[..i + 1]), Replay(s.log[..j]), k, MetaOf(pr.req), HashOf(env, pr.req));
    NoopEvent(s.log, j);
    if pr.past.restarts != [] {
      var x := RestartInCall(env, s, q, pr);
    }
  }

  lemma DecideAgrees(m: Documents, n: Documents, k: Key, meta: Meta, h: string)
    requires AgreeAt(m, n, k)
    ensures Decide(m, k, meta, h, false) == Decide(n, k, meta, h, false)
  {}

  // An honest no-op lists no change and leaves the documents as they are.
  lemma NoopEvent(log: seq<Event>, j: nat)
    requires HonestLog(log) && j < |log| && log[j].Wrote?
    ensures Decide(Replay(log[..j]), KeyOf(log[j].req), MetaOf(log[j].req), log[j].contentHash, log[j].force).Noop? ==>
              log[j].changed == {} && Replay(log[..j + 1]) == Replay(log[..j])
  {
    ReplayStep(log, j);
    assert Honest(Replay(log[..j]), log[j]);
    hide Replay, Decide, HonestLog;
  }

  lemma DoneFacts(env: Env, s: State, q: Pid, pr: Proc)
    requires pr.Writer? && Succeeded(pr.pc) && DoneInv(env, s, q, pr) && RestartsOk(s, q, pr)
    ensures pr.past.callAt <= pr.past.readAt <= pr.past.committedAt < |s.log|
    ensures AgreesWith(Replay(s.log[..pr.past.readAt]), KeyOf(pr.req), pr.past.seen)
    ensures pr.expected == SnapshotOfVersion(pr.past.seen)
    ensures pr.mode.Rebuild? <==> Classify(pr.expected, pr.req, HashOf(env, pr.req), pr.force).Reindex?
    ensures pr.mode.Cheap? ==> pr.past.prepares <= pr.attempt
    ensures pr.past.restarts == [] ==> pr.attempt == 0
    ensures s.log[pr.past.committedAt].Wrote? && s.log[pr.past.committedAt].req == pr.req
    ensures s.log[pr.past.committedAt].force == pr.force && s.log[pr.past.committedAt].contentHash == HashOf(env, pr.req)
  {
    hide Classify, AgreesWith, Replay, ForeignChange;
  }

  lemma RepeatFacts(env: Env, s: State, q: Pid, pr: Proc)
    requires Inv(env, s) && q in s.procs && s.procs[q] == pr && pr.Writer? && Succeeded(pr.pc)
    ensures HonestLog(s.log) && DoneInv(env, s, q, pr) && RestartsOk(s, q, pr)
  {
    assert WriterInv(env, s, q, pr);
    hide HonestLog, DoneInv, RestartsOk, Represents, Consistent, VersionsPublished, AllSourced, IdsAllocated,
         LocksInv;
  }

  // A restart of a finished call left a foreign change between its call and its last pre-read.
  lemma RestartInCall(env: Env, s: State, q: Pid, pr: Proc) returns (x: nat)
    requires pr.Writer? && Succeeded(pr.pc) && DoneInv(env, s, q, pr) && RestartsOk(s, q, pr)
    requires RestartedOn(pr, KeyOf(pr.req)) && pr.past.restarts != []
    ensures pr.past.callAt <= x < pr.past.readAt && x < |s.log| && KeyOf(pr.req) in s.log[x].changed
  {
    hide Classify, AgreesWith, Replay;
    var r := pr.past.restarts[0];
    assert ForeignChange(s.log, q, r.key, r.lo, r.hi);
    x :| r.lo <= x < r.hi && s.log[x].pid != q && r.key in s.log[x].changed;
  }

  // ---- The rows a commit leaves ----

  // A metadata refresh rewrites the metadata columns and updated_at of the row and of each of its
  // chunks, and keeps everything else: ids, creation times, content hash, count, texts, vectors.
  lemma RefreshEffect(env: Env, s: State, p: Pid)
    requires Reachable(env, s) && p in s.procs && s.procs[p].Writer?
    requires s.procs[p].pc.Committing? && s.procs[p].pc.action.MetadataRefresh?
    ensures var pr := s.procs[p];
      var d := pr.docId;
      var t := DoCommit(env, s, p, pr);
      && d in s.db.docs && s.db.docs[d].key == KeyOf(pr.req)
      && t.db.docs == s.db.docs[d := s.db.docs[d].(meta := MetaOf(pr.req), updatedAt := pr.tx.stamp)]
      && ChunksOf(t.db, d) == (map c | c in ChunksOf(s.db, d) ::
                                 ChunksOf(s.db, d)[c].(meta := MetaOf(pr.req), updatedAt := pr.tx.stamp))
      && (forall e | e != d :: ChunksOf(t.db, e) == ChunksOf(s.db, e))
  {
    hide Reachable, Inv, DataInv, Replaces, Consistent, Merge, WriterInv, OneReplaced, DoCommit, ChunksOf;
    ReachableInv(env, s);
    var pr := s.procs[p];
    InvOf(env, s, p);
    DataOf(env, s);
    RefreshFacts(env, s, p, pr);
    MergedIsOneReplaced(s.db, pr.tx, pr.docId, RefreshedRow(pr.past.lockedSeen.row, MetaOf(pr.req), pr.tx.stamp));
    CommittedDb(env, s, p, pr);
    RefreshFromFacts(s.db, DoCommit(env, s, p, pr).db, KeyOf(pr.req), pr.past.lockedSeen, MetaOf(pr.req), pr.tx);
  }

  lemma CommittedDb(env: Env, s: State, p: Pid, pr: Proc)
    requires pr.Writer? && pr.pc.Committing?
    ensures DoCommit(env, s, p, pr).db == Merge(s.db, pr.tx)
  {
    hide Merge, ChunksOf, Free, CommitEvent;
  }

  lemma RefreshFacts(env: Env, s: State, p: Pid, pr: Proc)
    requires pr.Writer? && DataInv(env, s) && WriterInv(env, s, p, pr)
    requires pr.pc.Committing? && pr.pc.action.MetadataRefresh?
    ensures pr.past.lockedSeen.Version? && pr.docId == pr.past.lockedSeen.id
    ensures Replaces(s.db, pr.tx, pr.docId, RefreshedRow(pr.past.lockedSeen.row, MetaOf(pr.req), pr.tx.stamp))
    ensures pr.tx.chunks == RefreshedChunks(pr.past.lockedSeen.chunks, MetaOf(pr.req), pr.tx.stamp)
    ensures Holds(s.db, KeyOf(pr.req), pr.past.lockedSeen)
  {
    hide CallInv, ReadInv, TxInv, Replaces, Consistent, HonestLog, Represents, AllSourced, VersionsPublished,
         IdsAllocated, Holds, BranchInv, RefreshedChunks, RefreshedRow;
    RefreshReplaces(env, s, p, pr);
  }

  lemma RefreshFromFacts(db: Tables, after: Tables, k: Key, v: Version, meta: Meta, tx: Tx)
    requires v.Version? && Holds(db, k, v)
    requires OneReplaced(db, after, v.id, RefreshedRow(v.row, meta, tx.stamp), RefreshedChunks(v.chunks, meta, tx.stamp))
    ensures v.id in db.docs && db.docs[v.id].key == k
    ensures after.docs == db.docs[v.id := db.docs[v.id].(meta := meta, updatedAt := tx.stamp)]
    ensures ChunksOf(after, v.id) == (map c | c in ChunksOf(db, v.id) :: ChunksOf(db, v.id)[c].(meta := meta, updatedAt := tx.stamp))
    ensures forall e | e != v.id :: ChunksOf(after, e) == ChunksOf(db, e)
  {
    hide ChunksOf;
  }

  // A rebuild keeps an existing document's id and creation time, and gives it the request's
  // metadata, hash and prepared chunks, all under chunk ids never committed before.
  lemma RebuildEffect(env: Env, s: State, p: Pid)
    requires Reachable(env, s) && p in s.procs && s.procs[p].Writer?
    requires s.procs[p].pc.Committing? && s.procs[p].pc.action.Reindex?
    ensures var pr := s.procs[p];
      var d := pr.docId;
      var t := DoCommit(env, s, p, pr);
      && d in t.db.docs
      && t.db.docs[d].key == KeyOf(pr.req) && t.db.docs[d].meta == MetaOf(pr.req)
      && t.db.docs[d].contentHash == HashOf(env, pr.req)
      && t.db.docs[d].chunkCount == |pr.prepared| == |ChunksOf(t.db, d)|
      && Pieces(ChunksOf(t.db, d)) == PieceSet(pr.prepared)
      && (forall c | c in ChunksOf(t.db, d) :: c !in s.db.chunks)
      && (forall c | c in ChunksOf(t.db, d) :: ChunksOf(t.db, d)[c].createdAt == ChunksOf(t.db, d)[c].updatedAt == pr.tx.stamp)
      && t.db.docs[d].updatedAt == pr.tx.stamp
      && (pr.past.lockedSeen.NoVersion? ==> t.db.docs[d].createdAt == pr.tx.stamp)
      && (pr.past.lockedSeen.Version? ==> pr.past.lockedSeen.id == d && t.db.docs[d].createdAt == pr.past.lockedSeen.row.createdAt)
      && (pr.past.lockedSeen.NoVersion? ==> d !in s.db.docs)
      && (forall e | e != d :: ChunksOf(t.db, e) == ChunksOf(s.db, e))
  {
    hide Reachable, Inv, DataInv, Replaces, Consistent, Merge, WriterInv, OneReplaced, DoCommit, ChunksOf, Pieces,
         PieceSet;
    ReachableInv(env, s);
    var pr := s.procs[p];
    InvOf(env, s, p);
    DataOf(env, s);
    RebuildFacts(env, s, p, pr);
    RebuildStamps(env, s, p, pr);
    MergedIsOneReplaced(s.db, pr.tx, pr.docId, NewRow(env, pr).(chunkCount := |pr.prepared|));
    CommittedDb(env, s, p, pr);
    OneReplacedFacts(s.db, Merge(s.db, pr.tx), pr.docId, NewRow(env, pr).(chunkCount := |pr.prepared|), pr.tx.chunks);
  }

  lemma OneReplacedFacts(db: Tables, after: Tables, d: int, row: DocRow, cs: map<int, ChunkRow>)
    requires OneReplaced(db, after, d, row, cs)
    ensures after.docs == db.docs[d := row] && ChunksOf(after, d) == cs
    ensures forall e | e != d :: ChunksOf(after, e) == ChunksOf(db, e)
  {
    hide ChunksOf;
  }

  lemma RebuildFacts(env: Env, s: State, p: Pid, pr: Proc)
    requires pr.Writer? && DataInv(env, s) && WriterInv(env, s, p, pr)
    requires pr.pc.Committing? && pr.pc.action.Reindex?
    ensures Replaces(s.db, pr.tx, pr.docId, NewRow(env, pr).(chunkCount := |pr.prepared|))
    ensures NewRow(env, pr).key == KeyOf(pr.req)
    ensures Pieces(pr.tx.chunks) == PieceSet(pr.prepared) && |pr.tx.chunks| == |pr.prepared|
    ensures forall c | c in pr.tx.chunks :: c !in s.db.chunks
    ensures if pr.past.lockedSeen.Version? then pr.past.lockedSeen.id == pr.docId else pr.docId !in s.db.docs
  {
    hide CallInv, TxInv, Replaces, HonestLog, Represents, VersionsPublished, IdsAllocated, Pieces, PieceSet,
         OrdinalsDistinct, Holds, NewRow, NewChunk;
    PreparedNonEmpty(env, s, p, pr);
    hide ReadInv, AllSourced, PreparedOk;
    RebuildReplaces(env, s, p, pr);
    hide Consistent, BodyInv;
  }

  lemma RebuildStamps(env: Env, s: State, p: Pid, pr: Proc)
    requires pr.Writer? && WriterInv(env, s, p, pr) && pr.pc.Committing? && pr.pc.action.Reindex?
    ensures NewRow(env, pr).updatedAt == pr.tx.stamp
    ensures pr.past.lockedSeen.NoVersion? ==> NewRow(env, pr).createdAt == pr.tx.stamp
    ensures forall c | c in pr.tx.chunks :: pr.tx.chunks[c].createdAt == pr.tx.chunks[c].updatedAt == pr.tx.stamp
  {
    hide CallInv, ReadInv, TxInv, BodyInv, IdInv, Pieces, PieceSet, OrdinalsDistinct;
  }

  // A no-op commit changes no row and no timestamp.
  lemma NoopEffect(env: Env, s: State, p: Pid)
    requires Reachable(env, s) && p in s.procs && s.procs[p].Writer?
    requires s.procs[p].pc.Committing? && s.procs[p].pc.action.Noop?
    ensures DoCommit(env, s, p, s.procs[p]).db == s.db
  {
    ReachableInv(env, s);
    hide Reachable, Inv, DoCommit, GoodCommit;
    NoopCommitStep(env, s, p, s.procs[p]);
  }

  // A delete waits for nothing but a write between its locked read and its commit: where no write is
  // that far with any document it deletes, it can run.
  lemma DeletesWaitOnlyForBodies(env: Env, s: State, p: Pid, c: string, id: string) returns (snap: Snapshot)
    requires Reachable(env, s) && p !in s.procs
    ensures !Blank(id) && SparesBodies(s, p, {Key(ResolveCollection(env.defaultCollection, c), Trim(id))}) ==>
              Enabled(env, s, p, DeleteDocument(c, id, snap))
    ensures !Blank(c) && (forall q | WriterIn(s, q) && InBody(s.procs[q].pc) :: s.procs[q].req.collection != Trim(c)) ==>
              Enabled(env, s, p, DeleteCollection(c))
  {
    hide Reachable, Inv, Trim, Blank;
    TrimBlank(id);
    TrimBlank(c);
    ReachableInv(env, s);
    var k := Key(ResolveCollection(env.defaultCollection, c), Trim(id));
    snap := SomeLoad(s.db.docs, k);
    forall d | d in s.db.docs && d in s.rowLocks
      ensures WriterIn(s, s.rowLocks[d]) && InBody(s.procs[s.rowLocks[d]].pc)
      ensures KeyOf(s.procs[s.rowLocks[d]].req) == s.db.docs[d].key
    {
      RowHolderWrites(env, s, d);
    }
  }

  // DeleteDocument, in any reachable state: the document the caller named is gone with its chunks, if it
  // was there, and every other document keeps its row and its chunks.
  lemma DeleteDocumentNow(env: Env, s: State, p: Pid, c: string, id: string, snap: Snapshot)
    requires Reachable(env, s) && Enabled(env, s, p, DeleteDocument(c, id, snap))
    ensures var t := Step(env, s, p, DeleteDocument(c, id, snap));
      var k := Key(if Blank(c) then env.defaultCollection else Trim(c), Trim(id));
      && Consistent(t.db)
      && (forall d | d in t.db.docs :: t.db.docs[d].key != k)
      && (forall d | d in s.db.docs && s.db.docs[d].key != k ::
            d in t.db.docs && t.db.docs[d] == s.db.docs[d] && ChunksOf(t.db, d) == ChunksOf(s.db, d))
  {
    hide Reachable, ProcsInv, LocksInv, HonestLog, Represents, AllSourced, VersionsPublished, IdsAllocated, Trim, Blank;
    ReachableInv(env, s);
    TrimBlank(c);
    DeletedOne(s.db, Key(ResolveCollection(env.defaultCollection, c), Trim(id)), snap);
    hide DeleteDocs, Loads, Consistent, ChunksOf;
  }

  lemma DeletedOne(db: Tables, k: Key, snap: Snapshot)
    requires Consistent(db) && Loads(db.docs, k, snap)
    ensures var after := DeleteDocs(db, if snap.Present? then {snap.id} else {});
      && Consistent(after)
      && (forall d | d in after.docs :: after.docs[d].key != k)
      && (forall d | d in db.docs && db.docs[d].key != k ::
            d in after.docs && after.docs[d] == db.docs[d] && ChunksOf(after, d) == ChunksOf(db, d))
  {
    DeleteKeepsConsistent(db, if snap.Present? then {snap.id} else {});
    hide ChunksOf, ParentsAgree, DocumentWhole;
  }

  // DeleteCollection, in any reachable state: the collection counts zero documents and zero
  // chunks, no chunk is orphaned, and every other collection keeps its rows and its counts.
  lemma DeleteCollectionNow(env: Env, s: State, p: Pid, c: string)
    requires Reachable(env, s) && Enabled(env, s, p, DeleteCollection(c))
    ensures var t := Step(env, s, p, DeleteCollection(c));
      && Consistent(t.db)
      && ReadStats(t.db, Trim(c)) == CollectionStats(0, 0)
      && (forall other | other != Trim(c) :: ReadStats(t.db, other) == ReadStats(s.db, other))
      && (forall d | d in s.db.docs && s.db.docs[d].key.collection != Trim(c) ::
            d in t.db.docs && t.db.docs[d] == s.db.docs[d] && ChunksOf(t.db, d) == ChunksOf(s.db, d))
  {
    hide Reachable, ProcsInv, LocksInv, HonestLog, Represents, AllSourced, VersionsPublished, IdsAllocated,
         Consistent, Trim, IdsIn, ChunksOf, ReadStats, DeleteDocs;
    ReachableInv(env, s);
    DeleteCollectionEffect(s.db, Trim(c));
  }
}
