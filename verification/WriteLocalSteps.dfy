/** Every step that does not commit: it keeps the call's own invariant and the lock tables. */
module WriteLocalSteps {
  import opened Requests
  import opened Tables
  import opened AtomicDocuments
  import opened WriteProtocol
  import opened WriteInvariant
  import opened WriteGuarantee

  // The step touched nothing that is committed.
  predicate Local(env: Env, s: State, t: State, p: Pid) {
    && t.db == s.db && t.log == s.log && t.published == s.published
    && s.produced <= t.produced && (forall x | x in t.produced && x !in s.produced :: PreparedOk(env, x.pieces))
    && ExtendsBy(s.docIds, t.docIds, p) && ExtendsBy(s.chunkIds, t.chunkIds, p) && ExtendsBy(s.stamps, t.stamps, p)
  }

  // Locks held by other calls stay; locks held by p are accounted for by where p is now.
  predicate LocksMove(env: Env, s: State, t: State, p: Pid) {
    && p in t.procs && t.procs == s.procs[p := t.procs[p]]
    && (forall k | k in s.advisory && s.advisory[k] != p :: k in t.advisory && t.advisory[k] == s.advisory[k])
    && (forall d | d in s.rowLocks && s.rowLocks[d] != p :: d in t.rowLocks && t.rowLocks[d] == s.rowLocks[d])
    && (forall k | k in t.advisory ::
          if t.advisory[k] == p then AdvisoryHolder(env, t, p, k) else k in s.advisory && s.advisory[k] == t.advisory[k])
    && (forall d | d in t.rowLocks ::
          if t.rowLocks[d] == p then RowHolder(t, p, d) else d in s.rowLocks && s.rowLocks[d] == t.rowLocks[d])
  }

  ghost predicate GoodStep(env: Env, s: State, t: State, p: Pid) {
    && Local(env, s, t, p)
    && LocksMove(env, s, t, p)
    && t.procs[p].Writer?
    && WriterInv(env, t, p, t.procs[p])
  }

  lemma LocalGuarantee(env: Env, s: State, t: State, p: Pid)
    requires Local(env, s, t, p) && LocksMove(env, s, t, p)
    ensures Guarantee(s, t, p, {})
  {
    assert ChangesOnly(s.db, t.db, {}) by { SameTables(s.db, {}); }
  }

  lemma SameTables(db: Tables, keys: set<Key>)
    ensures ChangesOnly(db, db, keys)
  {}

  lemma LocalKeepsData(env: Env, s: State, t: State, p: Pid)
    requires Local(env, s, t, p) && DataInv(env, s)
    ensures DataInv(env, t)
  {
    hide Consistent, HonestLog, Represents;
    forall d | d in t.db.docs
      ensures Sourced(env, t.produced, t.db.docs[d], ChunksOf(t.db, d))
    {
      assert Sourced(env, s.produced, s.db.docs[d], ChunksOf(s.db, d));
    }
    forall v | v in t.published
      ensures v.at in t.stamps
    {
      assert v in s.published && v.at in s.stamps;
    }
  }

  lemma LocksMoveKeeps(env: Env, s: State, t: State, p: Pid)
    requires LocksMove(env, s, t, p) && LocksInv(env, s)
    ensures LocksInv(env, t)
  {
    forall k | k in t.advisory
      ensures AdvisoryHolder(env, t, t.advisory[k], k)
    {
      if t.advisory[k] != p { assert AdvisoryHolder(env, s, s.advisory[k], k); }
    }
    forall d | d in t.rowLocks
      ensures RowHolder(t, t.rowLocks[d], d)
    {
      if t.rowLocks[d] != p { assert RowHolder(s, s.rowLocks[d], d); }
    }
  }

  // The two lock tables say nothing of a call that holds nothing.
  lemma HoldsNothing(env: Env, s: State, p: Pid)
    requires LocksInv(env, s)
    ensures (p !in s.procs || !s.procs[p].Writer? || !HoldsAdvisory(s.procs[p].pc)) ==>
              forall k | k in s.advisory :: s.advisory[k] != p
    ensures (p !in s.procs || !s.procs[p].Writer? || !InBody(s.procs[p].pc)) ==>
              forall d | d in s.rowLocks :: s.rowLocks[d] != p
  {
    forall k | k in s.advisory
      ensures AdvisoryHolder(env, s, s.advisory[k], k)
    {}
    forall d | d in s.rowLocks
      ensures RowHolder(s, s.rowLocks[d], d)
    {}
  }

  // A step of p that leaves the lock tables alone and keeps p's class of program points.
  lemma SameLocks(env: Env, s: State, p: Pid, pr: Proc)
    requires LocksInv(env, s) && pr.Writer?
    requires p in s.procs ==> s.procs[p].Writer?
    requires p in s.procs ==> KeyOf(pr.req) == KeyOf(s.procs[p].req) || !HoldsAdvisory(s.procs[p].pc)
    requires p in s.procs && HoldsAdvisory(s.procs[p].pc) ==> HoldsAdvisory(pr.pc)
    requires p in s.procs && InBody(s.procs[p].pc) ==> InBody(pr.pc) && pr.locked == s.procs[p].locked
    ensures LocksMove(env, s, SetProc(s, p, pr), p)
  {
    var t := SetProc(s, p, pr);
    HoldsNothing(env, s, p);
    forall k | k in t.advisory && t.advisory[k] == p
      ensures AdvisoryHolder(env, t, p, k)
    {
      assert AdvisoryHolder(env, s, p, k);
    }
    forall d | d in t.rowLocks && t.rowLocks[d] == p
      ensures RowHolder(t, p, d)
    {
      assert RowHolder(s, p, d);
    }
  }

  lemma UnlockMoves(env: Env, s: State, p: Pid, pr: Proc)
    requires pr.Writer?
    ensures LocksMove(env, s, Unlock(SetProc(s, p, pr), p), p)
  {}

  lemma LocksAgree(env: Env, s: State, u: State, t: State, p: Pid)
    requires LocksMove(env, s, u, p)
    requires t.procs == u.procs && t.advisory == u.advisory && t.rowLocks == u.rowLocks
    ensures LocksMove(env, s, t, p)
  {}

  // ---- A call that goes on without restarting ----

  predicate Continues(pr: Proc, next: Proc)
    requires pr.Writer? && next.Writer?
  {
    && next.attempt == pr.attempt && next.force == pr.force
    && next.past.callAt == pr.past.callAt && next.past.restarts == pr.past.restarts
    && !pr.pc.Returned? && next.pc != Returned(ChangedConcurrently) && !Succeeded(next.pc)
  }

  lemma RestartsKept(s: State, t: State, p: Pid, pr: Proc, next: Proc)
    requires pr.Writer? && next.Writer? && Continues(pr, next)
    requires t.log == s.log && RestartsOk(s, p, pr)
    ensures RestartsOk(t, p, next)
  {}

  predicate PreparesOk(pr: Proc)
    requires pr.Writer?
  {
    && pr.past.prepares <= pr.attempt + 1
    && (pr.pc.Entering? || pr.pc.PreReading? ==> pr.past.prepares <= pr.attempt)
    && (HasRead(pr.pc) && pr.mode.Cheap? ==> pr.past.prepares <= pr.attempt)
  }

  lemma CallKept(s: State, t: State, p: Pid, pr: Proc, next: Proc)
    requires pr.Writer? && next.Writer? && Continues(pr, next)
    requires !next.pc.Entering? && (pr.pc.Entering? ==> next.pc.Returned?)
    requires t.log == s.log && CallInv(s, p, pr)
    requires next.pc.Returned? ==> next.pc == Returned(Failed)
    requires
      || PreparesOk(next)
      || (next.past.prepares == pr.past.prepares && next.mode == pr.mode && !next.pc.PreReading? && (HasRead(pr.pc) || next.pc.Returned?))
    ensures CallInv(t, p, next)
  {
    RestartsKept(s, t, p, pr, next);
    hide RestartsOk;
  }

  // The pre-read is remembered unchanged as the call moves on.
  lemma ReadKept(env: Env, s: State, t: State, pr: Proc, next: Proc)
    requires pr.Writer? && next.Writer? && ReadInv(env, s, pr)
    requires t.log == s.log && t.db == s.db && t.published == s.published && s.produced <= t.produced
    requires next.req == pr.req && next.force == pr.force && next.mode == pr.mode && next.expected == pr.expected
    requires next.past.callAt == pr.past.callAt && next.past.readAt == pr.past.readAt
    requires next.past.seen == pr.past.seen && next.past.restarts == pr.past.restarts
    requires !next.pc.Preparing?
    requires if pr.pc.Preparing? then Production(next.req.content, next.prepared) in t.produced
             else next.prepared == pr.prepared
    ensures ReadInv(env, t, next)
  {
    hide Classify, Holds, StillThere, AgreesWith, Replay, Quiet;
  }

  lemma TxKept(s: State, t: State, p: Pid, pr: Proc, next: Proc)
    requires pr.Writer? && next.Writer? && TxInv(s, p, pr)
    requires t.published == s.published && t.stamps == s.stamps && next.tx.stamp == pr.tx.stamp
    requires next.pc.Locking? || next.pc.LockedReading? ==> next.tx == pr.tx && pr.pc.Locking?
    ensures TxInv(t, p, next)
  {}

  // ---- The unlocked half ----

  lemma CallStep(env: Env, s: State, p: Pid, req: Request, force: bool)
    requires Inv(env, s) && p !in s.procs
    ensures GoodStep(env, s, DoCall(s, p, req, force), p)
  {
    hide DataInv;
    var t := DoCall(s, p, req, force);
    SameLocks(env, s, p, t.procs[p]);
  }

  lemma EnterStep(env: Env, s: State, p: Pid, pr: Proc)
    requires Inv(env, s) && WriterAt(s, p, Entering) && s.procs[p] == pr
    ensures GoodStep(env, s, DoEnter(env, s, p, pr), p)
  {
    hide DataInv, NormalizeRequest, ValidRequest, RestartsOk;
    var t := DoEnter(env, s, p, pr);
    var next := t.procs[p];
    SameLocks(env, s, p, next);
    assert WriterInv(env, s, p, pr);
    RestartsKept(s, t, p, pr, next);
  }

  lemma PreReadStep(env: Env, s: State, p: Pid, pr: Proc, snap: Snapshot)
    requires Inv(env, s) && WriterAt(s, p, PreReading) && s.procs[p] == pr
    requires Loads(s.db.docs, KeyOf(pr.req), snap)
    ensures GoodStep(env, s, DoPreRead(env, s, p, pr, snap), p)
  {
    hide DataInv, LocksInv, CallInv, ReadInv, Classify, LocksMove;
    var t := DoPreRead(env, s, p, pr, snap);
    SameLocks(env, s, p, t.procs[p]);
    assert WriterInv(env, s, p, pr);
    PreparesOfRead(env, s, p, pr, snap);
    CallKept(s, t, p, pr, t.procs[p]);
    ReadOfRead(env, s, p, pr, snap);
  }

  lemma PreparesOfRead(env: Env, s: State, p: Pid, pr: Proc, snap: Snapshot)
    requires pr.Writer? && pr.pc.PreReading? && CallInv(s, p, pr)
    requires Loads(s.db.docs, KeyOf(pr.req), snap)
    ensures PreparesOk(DoPreRead(env, s, p, pr, snap).procs[p])
  {
    hide RestartsOk, Classify;
  }

  lemma ReadOfRead(env: Env, s: State, p: Pid, pr: Proc, snap: Snapshot)
    requires pr.Writer? && pr.pc.PreReading? && CallInv(s, p, pr) && DataInv(env, s)
    requires Loads(s.db.docs, KeyOf(pr.req), snap)
    ensures ReadInv(env, DoPreRead(env, s, p, pr, snap), DoPreRead(env, s, p, pr, snap).procs[p])
  {
    hide Classify, DataInv;
    FreshRead(env, s, KeyOf(pr.req), snap);
  }

  lemma FreshRead(env: Env, s: State, k: Key, snap: Snapshot)
    requires DataInv(env, s) && Loads(s.db.docs, k, snap)
    ensures var v := VersionAt(s.db, snap);
      && Holds(s.db, k, v)
      && snap == SnapshotOfVersion(v)
      && AgreesWith(Replay(s.log[..|s.log|]), k, v)
      && (v.Version? ==> v.row.key == k && VersionId(v.id, v.row.updatedAt) in s.published
                         && s.published[VersionId(v.id, v.row.updatedAt)] == v)
  {
    assert s.log[..|s.log|] == s.log;
    hide HonestLog, Consistent;
    if snap.Absent? {
      assert k !in KeysOf(s.db);
    } else {
      assert s.db.docs[snap.id].key in KeysOf(s.db);
    }
  }

  lemma PrepareStep(env: Env, s: State, p: Pid, pr: Proc, ps: seq<Piece>)
    requires Inv(env, s) && WriterAt(s, p, Preparing) && s.procs[p] == pr && PreparedOk(env, ps)
    ensures GoodStep(env, s, DoPrepare(s, p, pr, ps), p)
  {
    hide DataInv, LocksInv, CallInv, ReadInv, TxInv, LocksMove;
    var t := DoPrepare(s, p, pr, ps);
    SameLocks(env, s, p, t.procs[p]);
    LocksAgree(env, s, SetProc(s, p, t.procs[p]), t, p);
    assert WriterInv(env, s, p, pr);
    CallKept(s, t, p, pr, t.procs[p]);
    ReadKept(env, s, t, pr, t.procs[p]);
  }

  lemma BeginStep(env: Env, s: State, p: Pid, pr: Proc, stamp: Stamp)
    requires Inv(env, s) && WriterAt(s, p, Beginning) && s.procs[p] == pr && stamp !in s.stamps
    ensures GoodStep(env, s, DoBegin(s, p, pr, stamp), p)
  {
    hide DataInv, LocksInv, CallInv, ReadInv, TxInv, LocksMove;
    var t := DoBegin(s, p, pr, stamp);
    SameLocks(env, s, p, t.procs[p]);
    LocksAgree(env, s, SetProc(s, p, t.procs[p]), t, p);
    assert WriterInv(env, s, p, pr);
    CallKept(s, t, p, pr, t.procs[p]);
    ReadKept(env, s, t, pr, t.procs[p]);
    TxOfBegin(env, s, p, pr, stamp);
  }

  lemma TxOfBegin(env: Env, s: State, p: Pid, pr: Proc, stamp: Stamp)
    requires pr.Writer? && DataInv(env, s) && stamp !in s.stamps
    ensures TxInv(DoBegin(s, p, pr, stamp), p, DoBegin(s, p, pr, stamp).procs[p])
  {
    hide Consistent, HonestLog, Represents, AllSourced;
  }

  lemma LocksOfLock(env: Env, s: State, p: Pid, pr: Proc)
    requires LocksInv(env, s) && WriterAt(s, p, Locking) && s.procs[p] == pr
    requires env.lockKey(KeyOf(pr.req)) !in s.advisory
    ensures LocksMove(env, s, DoLock(env, s, p, pr), p)
  {
    HoldsNothing(env, s, p);
  }

  lemma LockStep(env: Env, s: State, p: Pid, pr: Proc)
    requires Inv(env, s) && WriterAt(s, p, Locking) && s.procs[p] == pr
    requires env.lockKey(KeyOf(pr.req)) !in s.advisory
    ensures GoodStep(env, s, DoLock(env, s, p, pr), p)
  {
    hide DataInv, LocksInv, CallInv, ReadInv, TxInv, LocksMove;
    var t := DoLock(env, s, p, pr);
    LocksOfLock(env, s, p, pr);
    assert WriterInv(env, s, p, pr);
    CallKept(s, t, p, pr, t.procs[p]);
    ReadKept(env, s, t, pr, t.procs[p]);
    TxKept(s, t, p, pr, t.procs[p]);
  }

  lemma FailStep(env: Env, s: State, p: Pid, pr: Proc)
    requires Inv(env, s) && Running(s, p) && s.procs[p] == pr
    ensures GoodStep(env, s, DoFail(s, p, pr), p)
  {
    hide DataInv, LocksInv, CallInv, ReadInv, TxInv, LocksMove;
    var t := DoFail(s, p, pr);
    UnlockMoves(env, s, p, t.procs[p]);
    assert WriterInv(env, s, p, pr);
    CallKept(s, t, p, pr, t.procs[p]);
  }
}
