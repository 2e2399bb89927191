/** The locked read and the statements between it and the commit. */
module WriteBodySteps {
  import opened Requests
  import opened Tables
  import opened AtomicDocuments
  import opened WriteProtocol
  import opened WriteInvariant
  import opened WriteGuarantee
  import opened WriteLocalSteps

  // ---- Snapshots ----

  lemma EqualSnapshots(a: Snapshot, b: Snapshot)
    ensures SnapshotsEqual(a, b) <==> a == b
  {}

  lemma LoadDetermines(db: Tables, k: Key, v: Version, snap: Snapshot)
    requires UniqueKeys(db) && Holds(db, k, v) && Loads(db.docs, k, snap)
    ensures snap == SnapshotOfVersion(v)
  {}

  // Equal snapshots classify equally, so a rebuild whose snapshots agree never turns out to be
  // a no-op or a refresh.
  lemma EqualSnapshotsClassifyEqually(a: Snapshot, b: Snapshot, r: Request, h: string, force: bool)
    requires SnapshotsEqual(a, b)
    ensures Classify(a, r, h, force) == Classify(b, r, h, force)
  {
    EqualSnapshots(a, b);
  }

  // ---- Restarting ----

  // A locked read that disagrees with the pre-read proves another call changed the document
  // in between.
  lemma DisagreementIsForeign(env: Env, s: State, p: Pid, pr: Proc, snap: Snapshot)
    requires DataInv(env, s) && pr.Writer? && ReadInv(env, s, pr) && NoEventsBy(s.log, p)
    requires Loads(s.db.docs, KeyOf(pr.req), snap) && snap != pr.expected
    ensures ForeignChange(s.log, p, KeyOf(pr.req), pr.past.readAt, |s.log|)
  {
    var k := KeyOf(pr.req);
    var seen := pr.past.seen;
    if Quiet(s.log, pr.past.readAt, |s.log|, k) {
      LoadDetermines(s.db, k, seen, snap);
      assert false;
    }
  }

  lemma RestartMeansDisagreement(env: Env, s: State, pr: Proc, snap: Snapshot)
    requires pr.Writer? && ReadInv(env, s, pr) && Judge(env, pr, snap).Restarts?
    ensures snap != pr.expected
  {
    hide Replay, AgreesWith, Holds, Quiet, StillThere;
  }

  lemma RestartCall(s: State, t: State, p: Pid, pr: Proc, next: Proc)
    requires pr.Writer? && next.Writer? && CallInv(s, p, pr) && t.log == s.log
    requires pr.pc.LockedReading? && pr.past.callAt <= pr.past.readAt
    requires |pr.past.restarts| == 1 ==> pr.past.restarts[0].hi <= pr.past.readAt
    requires ForeignChange(s.log, p, KeyOf(pr.req), pr.past.readAt, |s.log|)
    requires next.past.callAt == pr.past.callAt && next.past.prepares == pr.past.prepares
    requires next.past.restarts == pr.past.restarts + [Restart(KeyOf(pr.req), pr.past.readAt, |s.log|)]
    requires if pr.attempt >= 1 then next.pc == Returned(ChangedConcurrently) && next.attempt == pr.attempt
             else next.pc == Entering && next.attempt == pr.attempt + 1
    ensures CallInv(t, p, next)
  {
  }

  lemma RestartStep(env: Env, s: State, p: Pid, pr: Proc, snap: Snapshot)
    requires Inv(env, s) && WriterAt(s, p, LockedReading) && s.procs[p] == pr
    requires Loads(s.db.docs, KeyOf(pr.req), snap)
    requires snap.Present? ==> snap.id in s.db.docs && Unlocked(s, p, snap.id)
    requires Judge(env, pr, snap).Restarts?
    ensures GoodStep(env, s, DoLockedRead(env, s, p, pr, snap), p)
  {
    hide DataInv, CallInv, ReadInv, Judge, LocksMove, LocksInv, Loads, GoodStep;
    var t := DoLockedRead(env, s, p, pr, snap);
    assert WriterInv(env, s, p, pr);
    RestartMeansDisagreement(env, s, pr, snap);
    OwnCallFacts(env, s, p, pr);
    DisagreementIsForeign(env, s, p, pr, snap);
    RestartCall(s, t, p, pr, t.procs[p]);
    RestartLocks(env, s, p, t.procs[p], snap);
    RestartGood(env, s, t, p, pr, snap);
  }

  lemma RestartGood(env: Env, s: State, t: State, p: Pid, pr: Proc, snap: Snapshot)
    requires pr.Writer? && (snap.Present? ==> snap.id in s.db.docs) && Judge(env, pr, snap).Restarts?
    requires t == DoLockedRead(env, s, p, pr, snap)
    requires LocksMove(env, s, t, p) && CallInv(t, p, t.procs[p])
    ensures GoodStep(env, s, t, p)
  {
    hide LocksMove, CallInv, Judge, Free;
  }

  lemma RestartLocks(env: Env, s: State, p: Pid, next: Proc, snap: Snapshot)
    requires next.Writer? && (snap.Present? ==> Unlocked(s, p, snap.id))
    ensures LocksMove(env, s, Unlock(SetProc(HoldRow(s, p, snap), p, next), p), p)
  {}

  lemma OwnCallFacts(env: Env, s: State, p: Pid, pr: Proc)
    requires pr.Writer? && CallInv(s, p, pr) && ReadInv(env, s, pr) && !Succeeded(pr.pc)
    ensures NoEventsBy(s.log, p)
    ensures pr.past.callAt <= pr.past.readAt
    ensures |pr.past.restarts| == 1 ==> pr.past.restarts[0].hi <= pr.past.readAt
  {
    hide RestartsOk, Classify, Replay, AgreesWith, Holds, Quiet, StillThere;
  }

  // ---- Entering the body ----

  // No lost update: a rebuild whose snapshots agree finds, row by row and chunk by chunk, exactly
  // what its unlocked pre-read saw.
  lemma RebuildSeesSame(env: Env, s: State, pr: Proc, snap: Snapshot)
    requires DataInv(env, s) && pr.Writer? && ReadInv(env, s, pr)
    requires Loads(s.db.docs, KeyOf(pr.req), snap) && snap == pr.expected
    ensures VersionAt(s.db, snap) == pr.past.seen
  {
    hide Replay, AgreesWith, Holds, Quiet, StillThere, Classify, Consistent, HonestLog, Represents, AllSourced;
  }

  lemma BodyOfLockedRead(env: Env, s: State, t: State, p: Pid, pr: Proc, next: Proc, snap: Snapshot)
    requires DataInv(env, s) && pr.Writer? && next.Writer? && ReadInv(env, s, pr)
    requires Loads(s.db.docs, KeyOf(pr.req), snap)
    requires t.db == s.db && next.req == pr.req && next.mode == pr.mode && next.locked == snap
    requires next.past.lockedSeen == VersionAt(s.db, snap) && next.past.seen == pr.past.seen
    requires snap.Present? ==> snap.id in t.rowLocks && t.rowLocks[snap.id] == p
    requires pr.mode.Rebuild? ==> snap == pr.expected
    requires BranchInv(env, next)
    ensures BodyInv(env, t, p, next)
  {
    FreshRead(env, s, KeyOf(pr.req), snap);
    if pr.mode.Rebuild? { RebuildSeesSame(env, s, pr, snap); }
    hide DataInv, ReadInv, BranchInv;
  }

  lemma BranchOfLockedRead(env: Env, s: State, pr: Proc, snap: Snapshot)
    requires pr.Writer? && ReadInv(env, s, pr)
    requires snap.Present? ==> snap.id in s.db.docs
    requires Judge(env, pr, snap).Proceeds?
    ensures var next := AfterLockedRead(s, pr, snap, Judge(env, pr, snap).pc);
      && InBody(next.pc) && BranchInv(env, next)
      && (pr.mode.Rebuild? ==> snap == pr.expected)
  {
    hide Replay, AgreesWith, Holds, Quiet, StillThere;
    EqualSnapshots(snap, pr.expected);
  }

  lemma WritesOfLockedRead(env: Env, s: State, t: State, p: Pid, pr: Proc, snap: Snapshot)
    requires pr.Writer? && pr.pc.LockedReading? && TxInv(s, p, pr)
    requires snap.Present? ==> snap.id in s.db.docs
    requires Judge(env, pr, snap).Proceeds?
    ensures WritesInv(env, t, p, AfterLockedRead(s, pr, snap, Judge(env, pr, snap).pc))
  {
    hide SnapshotsEqual, Built, IdInv;
  }

  lemma LocksOfLockedRead(env: Env, s: State, p: Pid, pr: Proc, next: Proc, snap: Snapshot)
    requires LocksInv(env, s) && p in s.procs && s.procs[p] == pr && pr.Writer? && pr.pc.LockedReading?
    requires next.Writer? && InBody(next.pc) && next.req == pr.req && next.locked == snap
    requires snap.Present? ==> Unlocked(s, p, snap.id)
    ensures LocksMove(env, s, SetProc(HoldRow(s, p, snap), p, next), p)
  {
    HoldsNothing(env, s, p);
    forall k | k in s.advisory
      ensures AdvisoryHolder(env, s, s.advisory[k], k)
    {}
  }

  lemma EnterBodyStep(env: Env, s: State, p: Pid, pr: Proc, snap: Snapshot)
    requires Inv(env, s) && WriterAt(s, p, LockedReading) && s.procs[p] == pr
    requires Loads(s.db.docs, KeyOf(pr.req), snap)
    requires snap.Present? ==> snap.id in s.db.docs && Unlocked(s, p, snap.id)
    requires Judge(env, pr, snap).Proceeds?
    ensures GoodStep(env, s, DoLockedRead(env, s, p, pr, snap), p)
  {
    var t := DoLockedRead(env, s, p, pr, snap);
    assert WriterInv(env, s, p, pr);
    hide DataInv, CallInv, ReadInv, TxInv, BodyInv, WritesInv, Judge, BranchInv, LocksMove, LocksInv, Loads, GoodStep;
    BranchOfLockedRead(env, s, pr, snap);
    var next := AfterLockedRead(s, pr, snap, Judge(env, pr, snap).pc);
    LocksOfLockedRead(env, s, p, pr, next, snap);
    BodyOfLockedRead(env, s, t, p, pr, next, snap);
    WritesOfLockedRead(env, s, t, p, pr, snap);
    BodyStepGood(env, s, t, p, pr, next);
  }

  // A step from the locked read on that keeps the call's own writes as described is a good step.
  lemma BodyStepGood(env: Env, s: State, t: State, p: Pid, pr: Proc, next: Proc)
    requires pr.Writer? && next.Writer? && WriterInv(env, s, p, pr)
    requires InTx(pr.pc) && InBody(next.pc) && HoldsAdvisory(pr.pc)
    requires t.db == s.db && t.log == s.log && t.published == s.published && t.produced == s.produced
    requires t.stamps == s.stamps && t.advisory == s.advisory
    requires ExtendsBy(s.docIds, t.docIds, p) && ExtendsBy(s.chunkIds, t.chunkIds, p)
    requires p in t.procs && t.procs[p] == next && LocksMove(env, s, t, p)
    requires next.req == pr.req && next.force == pr.force && next.attempt == pr.attempt && next.mode == pr.mode
    requires next.expected == pr.expected && next.prepared == pr.prepared && next.tx.stamp == pr.tx.stamp
    requires next.past == pr.past.(lockedSeen := next.past.lockedSeen)
    requires BodyInv(env, t, p, next) && WritesInv(env, t, p, next)
    ensures GoodStep(env, s, t, p)
  {
    hide CallInv, ReadInv, TxInv, BodyInv, WritesInv, LocksMove;
    CallKept(s, t, p, pr, next);
    ReadKept(env, s, t, pr, next);
    TxKept(s, t, p, pr, next);
  }
}
