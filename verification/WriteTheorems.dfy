/** What the write protocol guarantees its callers, in every run of any number of calls. */
module WriteTheorems {
  import opened Text
  import opened Requests
  import opened Tables
  import opened AtomicDocuments
  import opened WriteProtocol
  import opened WriteInvariant
  import opened WriteGuarantee
  import opened WriteStatements
  import opened WriteCommitSteps
  import opened WriteSafety

  // ---- Refinement of the atomic map ----

  // The tables determine the documents they stand for.
  lemma RepresentationUnique(db: Tables, m: Documents, n: Documents)
    requires Represents(db, m) && Represents(db, n)
    ensures m == n
  {
    hide DocumentOf;
    forall k | k in KeysOf(db)
      ensures m[k] == n[k]
    {
      var d :| d in db.docs && db.docs[d].key == k;
      assert m[db.docs[d].key] == n[db.docs[d].key];
    }
  }

  predicate Publishes(s: State, m: Move, p: Pid) {
    (m.Commit? && p in s.procs && s.procs[p].Writer? && s.procs[p].pc.Committing?) || m.DeleteDocument? || m.DeleteCollection?
  }

  lemma PublishingStep(env: Env, s: State, p: Pid, m: Move)
    requires Inv(env, s) && Enabled(env, s, p, m) && Publishes(s, m, p)
    ensures GoodCommit(env, s, Step(env, s, p, m), p)
  {
    hide Inv, GoodCommit, Trim, ResolveCollection, Loads, IdsIn, DoCommit, DoDeleteDocument, DoDeleteCollection;
    if m.Commit? {
      if s.procs[p].pc.action.Noop? { NoopCommitStep(env, s, p, s.procs[p]); } else { RealCommitStep(env, s, p, s.procs[p]); }
    } else if m.DeleteDocument? {
      DeleteDocumentStep(env, s, p, Key(ResolveCollection(env.defaultCollection, m.collection), Trim(m.documentId)), m.snap);
    } else {
      DeleteCollectionStep(env, s, p, Trim(m.collection));
    }
  }

  lemma PublishedPid(env: Env, s: State, p: Pid, m: Move)
    requires Inv(env, s) && Enabled(env, s, p, m) && Publishes(s, m, p)
    ensures var t := Step(env, s, p, m);
      && |t.log| == |s.log| + 1 && t.log[..|s.log|] == s.log && t.log[|s.log|].pid == p
      && Honest(Replay(t.log[..|s.log|]), t.log[|s.log|])
  {
    PublishingStep(env, s, p, m);
    hide Inv, Step, Enabled, Publishes, Consistent, Represents, IdsAllocated, VersionsPublished, AllSourced, LocksInv,
         Honest, ChangesOnly;
  }

  lemma QuietLockedRead(env: Env, s: State, p: Pid, pr: Proc, snap: Snapshot)
    requires pr.Writer? && (snap.Present? ==> snap.id in s.db.docs)
    ensures DoLockedRead(env, s, p, pr, snap).db == s.db && DoLockedRead(env, s, p, pr, snap).log == s.log
  {
    hide Judge, RollbackAndRestart;
    var held := HoldRow(s, p, snap);
    var next := AfterLockedRead(s, pr, snap, pr.pc);
    hide AfterLockedRead, VersionAt;
    QuietRestart(held, p, next);
    hide HoldRow;
  }

  lemma QuietRestart(s: State, p: Pid, pr: Proc)
    requires pr.Writer?
    ensures RollbackAndRestart(s, p, pr).db == s.db && RollbackAndRestart(s, p, pr).log == s.log
  {}

  lemma QuietUpsert(s: State, p: Pid, pr: Proc, conflict: Snapshot, newId: int, h: string)
    requires pr.Writer? && Loads(VisibleDocs(s.db, pr.tx), KeyOf(pr.req), conflict)
    ensures DoUpsert(s, p, pr, conflict, newId, h).db == s.db && DoUpsert(s, p, pr, conflict, newId, h).log == s.log
  {
    hide Loads, UpsertRow;
  }

  lemma QuietStatement(env: Env, s: State, p: Pid, m: Move)
    requires Enabled(env, s, p, m)
    requires m.DoRefreshDocument? || m.DoRefreshChunks? || m.DoUpsertRow? || m.DoDeleteChunks? || m.DoInsertChunk? || m.DoSetCount?
    ensures Step(env, s, p, m).db == s.db && Step(env, s, p, m).log == s.log
  {
    hide Loads, Insertable, RefreshDocument, RefreshChunks, DeleteChunks, SetCount, NewChunk, DoUpsert, VisibleDocs;
    if m.DoUpsertRow? {
      QuietUpsert(s, p, s.procs[p], m.conflict, m.newId, HashOf(env, s.procs[p].req));
    }
  }

  lemma QuietStep(env: Env, s: State, p: Pid, m: Move)
    requires Enabled(env, s, p, m) && !Publishes(s, m, p)
    ensures Step(env, s, p, m).db == s.db && Step(env, s, p, m).log == s.log
  {
    hide Loads, Classify, NormalizeRequest, ValidRequest, PreparedOk, VersionAt, DoLockedRead, Insertable;
    if m.LockedRead? {
      QuietLockedRead(env, s, p, s.procs[p], m.snap);
    } else if m.Call? || m.Enter? || m.PreRead? || m.Prepare? || m.Begin? || m.Lock? || m.Fail? {
    } else {
      QuietStatement(env, s, p, m);
    }
  }

  // The event is the operation the move asks for: a write of the call's request, in the mode its flag
  // asks for, or the removal of the document or the collection the caller names.
  predicate EventFor(env: Env, s: State, p: Pid, m: Move, e: Event) {
    match m
    case Commit =>
      p in s.procs && s.procs[p].Writer? && e.Wrote? && e.req == s.procs[p].req && e.force == s.procs[p].force
    case DeleteDocument(c, id, _) =>
      e.Removed? && e.key == Key(if Blank(c) then env.defaultCollection else Trim(c), Trim(id))
    case DeleteCollection(c) => e.Dropped? && e.collection == Trim(c)
    case _ => false
  }

  lemma EventOfMove(env: Env, s: State, p: Pid, m: Move)
    requires Enabled(env, s, p, m) && Publishes(s, m, p)
    ensures var t := Step(env, s, p, m);
      |t.log| == |s.log| + 1 && EventFor(env, s, p, m, t.log[|s.log|])
  {
    hide Loads, Trim, Blank, IdsIn, DeleteDocs, Merge, ChunksOf, Free;
    if m.DeleteDocument? { TrimBlank(m.collection); }
  }

  // Each step either leaves the tables alone or applies exactly one operation to the atomic map,
  // honestly reported: the map the tables stand for moves from m to the operation's result.
  lemma Refinement(env: Env, s: State, p: Pid, m: Move)
    requires Reachable(env, s) && Enabled(env, s, p, m)
    ensures var t := Step(env, s, p, m);
      && Represents(s.db, Replay(s.log))
      && Represents(t.db, Replay(t.log))
      && (if Publishes(s, m, p) then
            && |t.log| == |s.log| + 1 && t.log[..|s.log|] == s.log && t.log[|s.log|].pid == p
            && EventFor(env, s, p, m, t.log[|s.log|]) && Honest(Replay(s.log), t.log[|s.log|])
            && Replay(t.log) == Apply(Replay(s.log), t.log[|s.log|])
          else t.db == s.db && t.log == s.log)
  {
    hide Inv, Step, Enabled, Reachable, Publishes, Represents, EventFor, Honest, Apply;
    ReachableInv(env, s);
    StepKeepsInv(env, s, p, m);
    var t := Step(env, s, p, m);
    InvRepresents(env, s);
    InvRepresents(env, t);
    if Publishes(s, m, p) {
      PublishedPid(env, s, p, m);
      EventOfMove(env, s, p, m);
      assert t.log[..|s.log| + 1] == t.log;
      ReplayStep(t.log, |s.log|);
    } else {
      QuietStep(env, s, p, m);
    }
  }

  lemma InvRepresents(env: Env, s: State)
    requires Inv(env, s)
    ensures Represents(s.db, Replay(s.log))
  {
    hide LocksInv, ProcsInv, Consistent, HonestLog, Represents, AllSourced, VersionsPublished, IdsAllocated;
  }

  // A commit lists a key as changed exactly when what the tables hold for it is different after.
  lemma ChangedMeansDifferent(env: Env, s: State, p: Pid, m: Move, k: Key, v: Version)
    requires Reachable(env, s) && Enabled(env, s, p, m) && Publishes(s, m, p)
    requires Holds(s.db, k, v)
    requires |Step(env, s, p, m).log| == |s.log| + 1
    ensures k in Step(env, s, p, m).log[|s.log|].changed <==> !Holds(Step(env, s, p, m).db, k, v)
  {
    ReachableInv(env, s);
    var t := Step(env, s, p, m);
    PublishingStep(env, s, p, m);
    Refinement(env, s, p, m);
    var e := t.log[|s.log|];
    hide Step, Enabled, Publishes, ProcsInv, LocksInv, Consistent, HonestLog, AllSourced, Replay;
    if k !in e.changed {
      HoldsStable(s.db, t.db, e.changed, k, v);
    } else if v.Version? {
      VersionReplaced(s, t, p, k, v);
    } else {
      AbsentThenPresent(s.db, t.db, Replay(s.log), Replay(t.log), e, k);
    }
  }

  lemma VersionReplaced(s: State, t: State, p: Pid, k: Key, v: Version)
    requires VersionsPublished(s) && |t.log| == |s.log| + 1 && Guarantee(s, t, p, t.log[|s.log|].changed)
    requires v.Version? && Holds(s.db, k, v) && k in t.log[|s.log|].changed
    ensures !Holds(t.db, k, v)
  {
    hide ChunksOf, ChangesOnly;
  }

  lemma AbsentThenPresent(db: Tables, after: Tables, m: Documents, n: Documents, e: Event, k: Key)
    requires Represents(db, m) && Represents(after, n) && Honest(m, e) && n == Apply(m, e)
    requires Holds(db, k, NoVersion) && k in e.changed
    ensures !Holds(after, k, NoVersion)
  {
    hide DocumentOf, Write;
    assert k !in KeysOf(db);
    assert e.Wrote? && k == KeyOf(e.req);
    assert k in KeysOf(after);
    var d :| d in after.docs && after.docs[d].key == k;
  }

  // ---- What a finished call means ----

  // A write that returned statistics took effect at exactly one commit of its own, made during
  // the call, and its statistics describe the document as that commit left it.
  lemma SuccessIsOneCommit(env: Env, s: State, p: Pid)
    requires Reachable(env, s) && p in s.procs && s.procs[p].Writer? && Succeeded(s.procs[p].pc)
    ensures var pr := s.procs[p];
      var i := pr.past.committedAt;
      var k := KeyOf(pr.req);
      && pr.past.callAt <= i < |s.log|
      && s.log[i].Wrote? && s.log[i].pid == p && KeyOf(s.log[i].req) == k
      && (forall j | 0 <= j < |s.log| && j != i :: s.log[j].pid != p)
      && pr.pc.result.stats.key == k
      && k in Replay(s.log[..i + 1])
      && Replay(s.log[..i + 1])[k].meta == MetaOf(pr.req)
      && Replay(s.log[..i + 1])[k].contentHash == pr.pc.result.stats.contentHash == HashOf(env, pr.req)
      && Replay(s.log[..i + 1])[k].chunkCount == pr.pc.result.stats.chunkCount > 0
  {
    ReachableInv(env, s);
    var pr := s.procs[p];
    var i := pr.past.committedAt;
    assert WriterInv(env, s, p, pr);
    ReplayStep(s.log, i);
    assert Honest(Replay(s.log[..i]), s.log[i]);
    hide Represents, Consistent, VersionsPublished, AllSourced, LocksInv, ProcsInv, CallInv, Classify, AgreesWith,
         Write;
  }

  // A write that has not returned statistics, whether still running or returned with an error,
  // has committed nothing.
  lemma FailureChangedNothing(env: Env, s: State, p: Pid)
    requires Reachable(env, s) && p in s.procs && s.procs[p].Writer? && !Succeeded(s.procs[p].pc)
    ensures NoEventsBy(s.log, p)
  {
    ReachableInv(env, s);
    assert WriterInv(env, s, p, s.procs[p]);
    hide DataInv, LocksInv, ReadInv, TxInv, BodyInv, WritesInv, RestartsOk;
  }

  // ---- The committed tables ----

  // Every committed document has a positive chunk count equal to its number of chunk rows; each
  // chunk repeats its parent's columns; all of its texts and vectors come from one prepare, which
  // passed every check, of content whose hash is the stored one; and no unique constraint clashes.
  lemma CommittedTablesWhole(env: Env, s: State, d: int)
    requires Reachable(env, s) && d in s.db.docs
    ensures s.db.docs[d].chunkCount == |ChunksOf(s.db, d)| > 0
    ensures forall c | c in ChunksOf(s.db, d) :: ChunkMatches(s.db.chunks[c], d, s.db.docs[d])
    ensures exists x | x in s.produced ::
      && PreparedOk(env, x.pieces)
      && env.hash(x.content) == s.db.docs[d].contentHash
      && Pieces(ChunksOf(s.db, d)) == PieceSet(x.pieces)
      && |ChunksOf(s.db, d)| == |x.pieces|
    ensures forall e | e in s.db.docs && s.db.docs[e].key == s.db.docs[d].key :: e == d
    ensures forall b, c | b in s.db.chunks && c in s.db.chunks && b != c :: !Clash(s.db.chunks[b], s.db.chunks[c])
  {
    ReachableInv(env, s);
    hide ProcsInv, LocksInv, HonestLog, Represents, VersionsPublished, PreparedOk, ChunkMatches, Clash, Pieces,
         PieceSet;
    assert DocumentWhole(s.db, d);
    assert Sourced(env, s.produced, s.db.docs[d], ChunksOf(s.db, d));
    var x :| x in s.produced && FromPrepare(env, s.db.docs[d], ChunksOf(s.db, d), x.content, x.pieces);
    assert PreparedOk(env, x.pieces);
    forall b, c | b in s.db.chunks && c in s.db.chunks && b != c
      ensures !Clash(s.db.chunks[b], s.db.chunks[c])
    {
      ConsistentHasNoClash(s.db, b, c);
    }
  }

  // CollectionStats counts the documents, and the chunks the documents say they have.
  lemma StatsInEveryState(env: Env, s: State, collection: string)
    requires Reachable(env, s)
    ensures ReadStats(s.db, collection).documentCount == |IdsIn(s.db, collection)|
    ensures ReadStats(s.db, collection).chunkCount == SumCounts(s.db.docs, IdsIn(s.db, collection))
    ensures ReadStats(s.db, collection).documentCount
            == |set k | k in Replay(s.log) && k.collection == collection|
  {
    ReachableInv(env, s);
    hide ProcsInv, LocksInv, HonestLog, VersionsPublished, AllSourced, ParentsAgree, DocumentWhole, IdsAllocated,
         IdsIn, KeysOf, ReadStats, Replay;
    StatsConserved(s.db, collection);
    KeysCountIds(s.db, collection);
    assert Replay(s.log).Keys == KeysOf(s.db);
    assert (set k | k in Replay(s.log) && k.collection == collection) == KeysIn(s.db, collection);
  }

  function KeysIn(db: Tables, collection: string): set<Key> {
    set k | k in KeysOf(db) && k.collection == collection
  }

  lemma KeysCountIds(db: Tables, collection: string)
    requires UniqueKeys(db)
    ensures |KeysIn(db, collection)| == |IdsIn(db, collection)|
  {
    KeyImage(db, IdsIn(db, collection));
    assert KeysIn(db, collection) == KeysOfIds(db, IdsIn(db, collection)) by {
      forall k | k in KeysIn(db, collection)
        ensures k in KeysOfIds(db, IdsIn(db, collection))
      {
        var d :| d in db.docs && db.docs[d].key == k;
        assert d in IdsIn(db, collection);
      }
    }
  }

  lemma {:induction false} KeyImage(db: Tables, ids: set<int>)
    requires UniqueKeys(db) && ids <= db.docs.Keys
    ensures |KeysOfIds(db, ids)| == |ids|
  {
    if ids == {} {
      assert KeysOfIds(db, ids) == {};
    } else {
      var d := Pick(ids);
      KeyImage(db, ids - {d});
      assert KeysOfIds(db, ids) == KeysOfIds(db, ids - {d}) + {db.docs[d].key};
      assert db.docs[d].key !in KeysOfIds(db, ids - {d});
    }
  }

  // ---- The body of a transaction ----

  // From the locked read to the commit the committed document does not move, so the statements in
  // between act as one indivisible step.
  lemma BodyIsAtomic(env: Env, s: State, p: Pid)
    requires Reachable(env, s) && p in s.procs && s.procs[p].Writer? && InBody(s.procs[p].pc)
    ensures Holds(s.db, KeyOf(s.procs[p].req), s.procs[p].past.lockedSeen)
    ensures s.procs[p].locked == SnapshotOfVersion(s.procs[p].past.lockedSeen)
    ensures Loads(s.db.docs, KeyOf(s.procs[p].req), s.procs[p].locked)
  {
    ReachableInv(env, s);
    assert WriterInv(env, s, p, s.procs[p]);
    hide DataInv, LocksInv, ProcsInv, CallInv, ReadInv, TxInv, WritesInv, BranchInv, ChunksOf;
  }

  // No lost update: when a rebuild reaches its write, the committed row and chunk rows are those
  // of its unlocked pre-read, and if there was a document then no commit has touched it since.
  lemma NoLostUpdate(env: Env, s: State, p: Pid)
    requires Reachable(env, s) && p in s.procs && s.procs[p].Writer? && InBody(s.procs[p].pc)
    requires s.procs[p].mode.Rebuild?
    ensures var past := s.procs[p].past;
      && past.readAt <= |s.log|
      && Holds(s.db, KeyOf(s.procs[p].req), past.seen)
      && (past.seen.Version? ==> Quiet(s.log, past.readAt, |s.log|, KeyOf(s.procs[p].req)))
  {
    ReachableInv(env, s);
    assert WriterInv(env, s, p, s.procs[p]);
    hide DataInv, LocksInv, ProcsInv, CallInv, TxInv, WritesInv, BranchInv, ChunksOf, Replay, Classify;
  }

  // The no-op and refresh branches inside the reindex commit are never taken.
  lemma RebuildOnlyRebuilds(env: Env, s: State, p: Pid)
    requires Reachable(env, s) && p in s.procs && s.procs[p].Writer? && InBody(s.procs[p].pc)
    requires s.procs[p].mode.Rebuild?
    ensures var pc := s.procs[p].pc;
      !pc.RefreshingDocument? && !pc.RefreshingChunks? && (pc.Committing? ==> pc.action.Reindex?)
  {
    ReachableInv(env, s);
    assert WriterInv(env, s, p, s.procs[p]);
    hide DataInv, LocksInv, ProcsInv, CallInv, ReadInv, TxInv, WritesInv, Holds, Classify;
  }

  // ---- Restarts ----

  lemma PreparesBounded(env: Env, s: State, p: Pid)
    requires Reachable(env, s) && p in s.procs && s.procs[p].Writer?
    ensures s.procs[p].attempt <= 1 && s.procs[p].past.prepares <= s.procs[p].attempt + 1
  {
    ReachableInv(env, s);
    assert WriterInv(env, s, p, s.procs[p]);
    hide DataInv, LocksInv, ProcsInv, ReadInv, TxInv, BodyInv, WritesInv, ForeignChange;
  }

  // Every restart of the call was on this key.
  predicate RestartedOn(pr: Proc, k: Key)
    requires pr.Writer?
  {
    forall j | 0 <= j < |pr.past.restarts| :: pr.past.restarts[j].key == k
  }

  lemma TwoForeignChanges(env: Env, s: State, p: Pid, k: Key) returns (i: nat, j: nat)
    requires Reachable(env, s)
    requires p in s.procs && s.procs[p].Writer? && s.procs[p].pc == Returned(ChangedConcurrently)
    requires RestartedOn(s.procs[p], k)
    ensures s.procs[p].past.callAt <= i < j < |s.log|
    ensures s.log[i].pid != p && k in s.log[i].changed
    ensures s.log[j].pid != p && k in s.log[j].changed
  {
    ReachableInv(env, s);
    var pr := s.procs[p];
    assert WriterInv(env, s, p, pr);
    RestartedTwice(s, p, pr);
    hide Inv, WriterInv;
    var a, b := pr.past.restarts[0], pr.past.restarts[1];
    i :| a.lo <= i < a.hi && s.log[i].pid != p && a.key in s.log[i].changed;
    j :| b.lo <= j < b.hi && s.log[j].pid != p && b.key in s.log[j].changed;
  }

  lemma RestartedTwice(s: State, p: Pid, pr: Proc)
    requires pr.Writer? && CallInv(s, p, pr) && pr.pc == Returned(ChangedConcurrently)
    ensures var rs := pr.past.restarts;
      && |rs| == 2 && rs[0].hi <= rs[1].lo && pr.past.callAt <= rs[0].lo
      && ForeignChange(s.log, p, rs[0].key, rs[0].lo, rs[0].hi)
      && ForeignChange(s.log, p, rs[1].key, rs[1].lo, rs[1].hi)
  {
    hide ForeignChange;
  }

  lemma UndisturbedHasNoRestart(env: Env, s: State, p: Pid, k: Key)
    requires Reachable(env, s) && p in s.procs && s.procs[p].Writer? && RestartedOn(s.procs[p], k)
    requires forall i | s.procs[p].past.callAt <= i < |s.log| && s.log[i].pid != p :: k !in s.log[i].changed
    ensures s.procs[p].past.restarts == [] && s.procs[p].attempt == 0
    ensures s.procs[p].pc != Returned(ChangedConcurrently) && s.procs[p].past.prepares <= 1
  {
    ReachableInv(env, s);
    var pr := s.procs[p];
    assert WriterInv(env, s, p, pr);
    assert RestartsOk(s, p, pr) && pr.past.prepares <= pr.attempt + 1 by { CallFacts(s, p, pr); }
    hide Inv, WriterInv;
    if pr.past.restarts != [] {
      var _ := RestartShowsChange(s, p, pr, k);
    }
  }

  lemma RestartShowsChange(s: State, p: Pid, pr: Proc, k: Key) returns (i: nat)
    requires pr.Writer? && RestartsOk(s, p, pr) && RestartedOn(pr, k) && pr.past.restarts != []
    ensures pr.past.callAt <= i < |s.log| && s.log[i].pid != p && k in s.log[i].changed
  {
    var r := pr.past.restarts[0];
    assert ForeignChange(s.log, p, r.key, r.lo, r.hi);
    i :| r.lo <= i < r.hi && s.log[i].pid != p && r.key in s.log[i].changed;
  }

  lemma CallFacts(s: State, p: Pid, pr: Proc)
    requires pr.Writer? && CallInv(s, p, pr)
    ensures RestartsOk(s, p, pr) && pr.past.prepares <= pr.attempt + 1
  {
    hide RestartsOk;
  }

  // ---- Inserting ----

  // A prepared chunk fits in exactly when the splitter has not given its ordinal before: no other
  // document and no other call's write can stand in its way.
  lemma InsertOnlyClashesWithItself(env: Env, s: State, p: Pid)
    requires Reachable(env, s) && p in s.procs && s.procs[p].Writer? && s.procs[p].pc.InsertingChunk?
    ensures var pr := s.procs[p];
      && pr.pc.next < |pr.prepared|
      && (Insertable(s.db, pr.tx, NewChunk(pr.tx, pr.req, pr.docId, pr.prepared[pr.pc.next]))
          <==> forall j | 0 <= j < pr.pc.next :: pr.prepared[j].ordinal != pr.prepared[pr.pc.next].ordinal)
  {
    ReachableInv(env, s);
    var pr := s.procs[p];
    assert WriterInv(env, s, p, pr);
    InsertingFacts(env, s, p, pr);
    hide *;
    FitsExactly(s.db, pr.tx, pr.req, pr.past.lockedSeen, pr.docId, pr.prepared, pr.pc.next);
  }

  lemma InsertingFacts(env: Env, s: State, p: Pid, pr: Proc)
    requires Inv(env, s) && pr.Writer? && pr.pc.InsertingChunk? && WriterInv(env, s, p, pr)
    ensures pr.pc.next < |pr.prepared|
    ensures InsertedUpTo(s.db, pr.tx, pr.req, pr.docId, pr.prepared, pr.pc.next) && pr.tx.gone == OldChunks(pr.past.lockedSeen)
    ensures Holds(s.db, KeyOf(pr.req), pr.past.lockedSeen) && ParentsAgree(s.db) && UniqueKeys(s.db)
  {
    hide ProcsInv, LocksInv, HonestLog, Represents, AllSourced, VersionsPublished, IdsAllocated, ParentsAgree,
         UniqueKeys, DocumentWhole;
    hide CallInv, ReadInv, TxInv, InsertedUpTo, IdInv, NewRow, Holds, BranchInv;
  }
}
