/** The invariant holds in every reachable state: every step of every call keeps it. */
module WriteSafety {
  import opened Text
  import opened Requests
  import opened Tables
  import opened AtomicDocuments
  import opened Runs
  import opened WriteProtocol
  import opened WriteInvariant
  import opened WriteGuarantee
  import opened WriteLocalSteps
  import opened WriteBodySteps
  import opened WriteStatements
  import opened WriteCommitSteps

  // No call between its locked read and its commit works on any of these keys.
  predicate SparesBodies(s: State, p: Pid, keys: set<Key>) {
    forall q | q in s.procs && q != p && s.procs[q].Writer? && InBody(s.procs[q].pc) :: KeyOf(s.procs[q].req) !in keys
  }

  lemma OthersKept(env: Env, s: State, t: State, p: Pid, keys: set<Key>)
    requires ProcsInv(env, s) && VersionsPublished(s) && Guarantee(s, t, p, keys) && SparesBodies(s, p, keys)
    requires p in t.procs && t.procs == s.procs[p := t.procs[p]]
    requires t.procs[p].Writer? ==> WriterInv(env, t, p, t.procs[p])
    ensures ProcsInv(env, t)
  {
    hide WriterInv, VersionsPublished, Guarantee;
    forall q | q in t.procs && t.procs[q].Writer?
      ensures WriterInv(env, t, q, t.procs[q])
    {
      if q != p {
        assert WriterInv(env, s, q, s.procs[q]);
        WriterStable(env, s, t, p, q, keys, s.procs[q]);
      }
    }
    forall q | q !in t.procs
      ensures NoEventsBy(t.log, q)
    {
      GuaranteedLog(s, t, p, keys);
      NoEventsStable(s, t, p, q, keys);
    }
  }

  lemma GuaranteedLog(s: State, t: State, p: Pid, keys: set<Key>)
    requires Guarantee(s, t, p, keys)
    ensures LogGrows(s, t, p, keys)
  {}

  lemma LocalKeepsInv(env: Env, s: State, t: State, p: Pid)
    requires Inv(env, s) && GoodStep(env, s, t, p)
    ensures Inv(env, t)
  {
    LocalGuarantee(env, s, t, p);
    LocalKeepsData(env, s, t, p);
    LocksMoveKeeps(env, s, t, p);
    hide Local, LocksInv, WriterInv, Guarantee, ProcsInv, Consistent, HonestLog, Represents, VersionsPublished,
         AllSourced;
    OthersKept(env, s, t, p, {});
  }

  lemma CommitKeepsInv(env: Env, s: State, t: State, p: Pid)
    requires Inv(env, s) && GoodCommit(env, s, t, p)
    requires SparesBodies(s, p, t.log[|s.log|].changed)
    requires t.procs[p].Writer? ==> WriterInv(env, t, p, t.procs[p])
    ensures Inv(env, t)
  {
    hide LocksInv, WriterInv, Guarantee, ProcsInv, Consistent, HonestLog, Represents, VersionsPublished, AllSourced,
         SparesBodies;
    OthersKept(env, s, t, p, t.log[|s.log|].changed);
  }

  // The advisory lock keeps a write's commit off every other call's document.
  lemma AdvisorySpares(env: Env, s: State, p: Pid, pr: Proc)
    requires ProcsInv(env, s) && p in s.procs && s.procs[p] == pr && pr.Writer? && InBody(pr.pc)
    ensures SparesBodies(s, p, {KeyOf(pr.req)})
  {
    hide CallInv, ReadInv, TxInv, BodyInv, WritesInv, DoneInv;
    assert WriterInv(env, s, p, pr);
    forall q | q in s.procs && q != p && s.procs[q].Writer? && InBody(s.procs[q].pc)
      ensures KeyOf(s.procs[q].req) != KeyOf(pr.req)
    {
      assert WriterInv(env, s, q, s.procs[q]);
    }
  }

  // Row locks keep deletes, which take no advisory lock, off them too.
  lemma RowLocksSpare(env: Env, s: State, p: Pid, ids: set<int>)
    requires ProcsInv(env, s) && UniqueKeys(s.db)
    requires forall d | d in ids :: d !in s.rowLocks
    ensures SparesBodies(s, p, KeysOfIds(s.db, ids))
  {
    hide CallInv, ReadInv, TxInv, WritesInv, DoneInv;
    forall q | q in s.procs && q != p && s.procs[q].Writer? && InBody(s.procs[q].pc)
      ensures KeyOf(s.procs[q].req) !in KeysOfIds(s.db, ids)
    {
      var pr := s.procs[q];
      assert WriterInv(env, s, q, pr);
      BodyDocLocked(env, s, q, pr);
    }
  }

  lemma BodyDocLocked(env: Env, s: State, q: Pid, pr: Proc)
    requires UniqueKeys(s.db) && pr.Writer? && BodyInv(env, s, q, pr)
    ensures forall d | d in s.db.docs && s.db.docs[d].key == KeyOf(pr.req) :: d in s.rowLocks && s.rowLocks[d] == q
  {
    hide BranchInv, ChunksOf;
  }

  // ---- Every step ----

  lemma CommitStep(env: Env, s: State, p: Pid, pr: Proc)
    requires Inv(env, s) && p in s.procs && s.procs[p] == pr && pr.Writer? && pr.pc.Committing?
    ensures Inv(env, DoCommit(env, s, p, pr))
  {
    var t := DoCommit(env, s, p, pr);
    CommitProcs(env, s, p, pr);
    assert t.log[|s.log|] == CommitEvent(env, p, pr);
    assert WriterInv(env, s, p, pr);
    CommitOwn(env, s, p, pr);
    AdvisorySpares(env, s, p, pr);
    if pr.pc.action.Noop? { NoopCommitStep(env, s, p, pr); } else { RealCommitStep(env, s, p, pr); }
    hide Inv, WriterInv, GoodCommit, DoCommit;
    CommitKeepsInv(env, s, t, p);
  }

  lemma DeleteDocumentSpares(env: Env, s: State, p: Pid, k: Key, snap: Snapshot)
    requires Inv(env, s) && Loads(s.db.docs, k, snap) && (snap.Present? ==> snap.id !in s.rowLocks)
    ensures SparesBodies(s, p, if snap.Present? then {k} else {})
  {
    var ids := if snap.Present? then {snap.id} else {};
    hide WriterInv, ParentsAgree, DocumentWhole, HonestLog, VersionsPublished, AllSourced, SparesBodies, Honest, Apply;
    DeleteDocumentHonest(s, p, k, snap);
    RowLocksSpare(env, s, p, ids);
  }

  lemma DeleteDocumentKeeps(env: Env, s: State, p: Pid, k: Key, snap: Snapshot)
    requires Inv(env, s) && p !in s.procs && Loads(s.db.docs, k, snap)
    requires snap.Present? ==> snap.id !in s.rowLocks
    ensures Inv(env, DoDeleteDocument(s, p, k, snap))
  {
    hide Inv, Loads, DeleteDocs, SparesBodies, GoodCommit;
    DeleteDocumentStep(env, s, p, k, snap);
    DeleteDocumentSpares(env, s, p, k, snap);
    CommitKeepsInv(env, s, DoDeleteDocument(s, p, k, snap), p);
  }

  lemma DeleteCollectionKeeps(env: Env, s: State, p: Pid, c: string)
    requires Inv(env, s) && p !in s.procs
    requires forall d | d in IdsIn(s.db, c) :: d !in s.rowLocks
    ensures Inv(env, DoDeleteCollection(s, p, c))
  {
    var ids := IdsIn(s.db, c);
    assert (set d | d in ids :: s.db.docs[d].key) == KeysOfIds(s.db, ids);
    DeleteCollectionStep(env, s, p, c);
    RowLocksSpare(env, s, p, ids);
    hide Inv, DeleteDocs, KeysOfIds, SparesBodies, GoodCommit;
    CommitKeepsInv(env, s, DoDeleteCollection(s, p, c), p);
  }

  lemma LockedReadKeeps(env: Env, s: State, p: Pid, pr: Proc, snap: Snapshot)
    requires Inv(env, s) && WriterAt(s, p, LockedReading) && s.procs[p] == pr
    requires Loads(VisibleDocs(s.db, pr.tx), KeyOf(pr.req), snap)
    requires snap.Present? ==> snap.id in s.db.docs && Unlocked(s, p, snap.id)
    ensures Inv(env, DoLockedRead(env, s, p, pr, snap))
  {
    hide Inv, GoodStep, DoLockedRead, Loads, Judge;
    LoadsCommitted(env, s, p, pr, snap);
    if Judge(env, pr, snap).Restarts? { RestartStep(env, s, p, pr, snap); } else { EnterBodyStep(env, s, p, pr, snap); }
    LocalKeepsInv(env, s, DoLockedRead(env, s, p, pr, snap), p);
  }

  lemma LoadsCommitted(env: Env, s: State, p: Pid, pr: Proc, snap: Snapshot)
    requires Inv(env, s) && WriterAt(s, p, LockedReading) && s.procs[p] == pr
    requires Loads(VisibleDocs(s.db, pr.tx), KeyOf(pr.req), snap)
    ensures Loads(s.db.docs, KeyOf(pr.req), snap)
  {
    hide DataInv, LocksInv, CallInv, ReadInv;
    assert WriterInv(env, s, p, pr);
    assert s.db.docs + map[] == s.db.docs;
  }

  lemma UnlockedHalfKeeps(env: Env, s: State, p: Pid, m: Move)
    requires Inv(env, s) && Enabled(env, s, p, m)
    requires m.Call? || m.Enter? || m.PreRead? || m.Prepare? || m.Begin? || m.Lock? || m.Fail?
    ensures Inv(env, Step(env, s, p, m))
  {
    hide Inv, GoodStep;
    match m
    case Call(req, force) => CallStep(env, s, p, req, force); LocalKeepsInv(env, s, Step(env, s, p, m), p);
    case Enter => EnterStep(env, s, p, s.procs[p]); LocalKeepsInv(env, s, Step(env, s, p, m), p);
    case PreRead(snap) => PreReadStep(env, s, p, s.procs[p], snap); LocalKeepsInv(env, s, Step(env, s, p, m), p);
    case Prepare(ps) => PrepareStep(env, s, p, s.procs[p], ps); LocalKeepsInv(env, s, Step(env, s, p, m), p);
    case Begin(t) => BeginStep(env, s, p, s.procs[p], t); LocalKeepsInv(env, s, Step(env, s, p, m), p);
    case Lock => LockStep(env, s, p, s.procs[p]); LocalKeepsInv(env, s, Step(env, s, p, m), p);
    case Fail => FailStep(env, s, p, s.procs[p]); LocalKeepsInv(env, s, Step(env, s, p, m), p);
  }

  lemma StatementKeeps(env: Env, s: State, p: Pid, m: Move)
    requires Inv(env, s) && Enabled(env, s, p, m)
    requires m.DoRefreshDocument? || m.DoRefreshChunks? || m.DoUpsertRow? || m.DoDeleteChunks? || m.DoInsertChunk? || m.DoSetCount?
    ensures Inv(env, Step(env, s, p, m))
  {
    hide Inv, GoodStep;
    match m
    case DoRefreshDocument => RefreshDocumentStep(env, s, p, s.procs[p]); LocalKeepsInv(env, s, Step(env, s, p, m), p);
    case DoRefreshChunks => RefreshChunksStep(env, s, p, s.procs[p]); LocalKeepsInv(env, s, Step(env, s, p, m), p);
    case DoUpsertRow(snap, newId) => UpsertStep(env, s, p, s.procs[p], snap, newId); LocalKeepsInv(env, s, Step(env, s, p, m), p);
    case DoDeleteChunks => DeleteChunksStep(env, s, p, s.procs[p]); LocalKeepsInv(env, s, Step(env, s, p, m), p);
    case DoInsertChunk(newId) => InsertStep(env, s, p, s.procs[p], newId); LocalKeepsInv(env, s, Step(env, s, p, m), p);
    case DoSetCount => SetCountStep(env, s, p, s.procs[p]); LocalKeepsInv(env, s, Step(env, s, p, m), p);
  }

  lemma CommittingKeeps(env: Env, s: State, p: Pid, m: Move)
    requires Inv(env, s) && Enabled(env, s, p, m)
    requires m.Commit? || m.DeleteDocument? || m.DeleteCollection?
    ensures Inv(env, Step(env, s, p, m))
  {
    hide Inv, Trim, ResolveCollection, Loads, IdsIn, DoCommit, DoDeleteDocument, DoDeleteCollection;
    if m.Commit? {
      CommitStep(env, s, p, s.procs[p]);
    } else if m.DeleteDocument? {
      DeleteDocumentKeeps(env, s, p, Key(ResolveCollection(env.defaultCollection, m.collection), Trim(m.documentId)), m.snap);
    } else {
      DeleteCollectionKeeps(env, s, p, Trim(m.collection));
    }
  }

  lemma StepKeepsInv(env: Env, s: State, p: Pid, m: Move)
    requires Inv(env, s) && Enabled(env, s, p, m)
    ensures Inv(env, Step(env, s, p, m))
  {
    hide Inv;
    if m.LockedRead? {
      LockedReadKeeps(env, s, p, s.procs[p], m.snap);
    } else if m.Commit? || m.DeleteDocument? || m.DeleteCollection? {
      CommittingKeeps(env, s, p, m);
    } else if m.Call? || m.Enter? || m.PreRead? || m.Prepare? || m.Begin? || m.Lock? || m.Fail? {
      UnlockedHalfKeeps(env, s, p, m);
    } else {
      StatementKeeps(env, s, p, m);
    }
  }

  lemma StartInv(env: Env)
    ensures Inv(env, START)
  {
    assert KeysOf(START.db) == {};
  }

  // Every reachable state of any number of concurrent upserts, reindexes, document deletes and
  // collection deletes satisfies the invariant.
  lemma ReachableInv(env: Env, s: State)
    requires Reachable(env, s)
    ensures Inv(env, s)
  {
    hide Inv, Step, Enabled;
    StartInv(env);
    forall a, b | Inv(env, a) && CanStep(env, a, b)
      ensures Inv(env, b)
    {
      var p, m :| Enabled(env, a, p, m) && b == Step(env, a, p, m);
      StepKeepsInv(env, a, p, m);
    }
    Induct(Next(env), START, s, a => Inv(env, a));
  }

  lemma InvOf(env: Env, s: State, p: Pid)
    requires Inv(env, s) && p in s.procs && s.procs[p].Writer?
    ensures WriterInv(env, s, p, s.procs[p])
  {
    hide DataInv, LocksInv, WriterInv;
  }

  lemma DataOf(env: Env, s: State)
    requires Inv(env, s)
    ensures DataInv(env, s)
  {
    hide DataInv, LocksInv, ProcsInv;
  }
}
