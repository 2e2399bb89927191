/**
Runs that show the step system reaches what the theorems speak of: a write that returns its
statistics, and a write that gives up after exactly two foreign commits.
*/
module WriteWitness {
  import opened Text
  import opened Requests
  import opened Runs
  import opened Tables
  import opened AtomicDocuments
  import opened WriteProtocol
  import opened WriteInvariant
  import opened WriteLocalSteps
  import opened WriteCommits
  import opened WriteCommitSteps
  import opened WriteSafety
  import opened WriteTheorems
  import opened WriteProgress

  // A request that is normalised, passes validation, and has something to prepare.
  ghost predicate Ready(env: Env, r: Request, ps: seq<Piece>) {
    && NormalizeRequest(env.defaultCollection, r) == r
    && ValidRequest(env.maxDocumentBytes, env.byteLength, r)
    && PreparedOk(env, ps) && |ps| == 1
  }

  lemma StartIsEmpty(env: Env, k: Key)
    ensures Reachable(env, START) && Calm(START) && START.log == [] && START.procs == map[]
    ensures Loads(START.db.docs, k, Absent)
  {
    ReachesStart(Next(env), START);
    hide Reaches;
  }

  lemma Reach(env: Env, s: State, p: Pid, m: Move)
    requires Reachable(env, s) && Enabled(env, s, p, m)
    ensures Reachable(env, Step(env, s, p, m))
  {
    hide Step, Enabled;
    var t := Step(env, s, p, m);
    assert CanStep(env, s, t);
    ReachesNext(Next(env), START, s, t);
  }

  // ---- The phases of a forced write ----

  // Nobody holds a lock.
  predicate Calm(s: State) {
    s.advisory == map[] && s.rowLocks == map[]
  }

  // Only call p has moved, and nothing was committed.
  predicate OnlyMoved(s: State, t: State, p: Pid) {
    t.db == s.db && t.log == s.log && p in t.procs && t.procs == s.procs[p := t.procs[p]]
  }

  lemma EnterNow(env: Env, s: State, p: Pid, ps: seq<Piece>) returns (t: State)
    requires Reachable(env, s) && WriterAt(s, p, Entering) && Ready(env, s.procs[p].req, ps)
    ensures Reachable(env, t) && t == SetProc(s, p, s.procs[p].(pc := PreReading))
  {
    hide Reachable, NormalizeRequest, ValidRequest, PreparedOk;
    Reach(env, s, p, Enter);
    t := Step(env, s, p, Enter);
  }

  // From entry to the transaction, for a forced write.
  lemma ToBeginning(env: Env, s: State, p: Pid, ps: seq<Piece>, snap: Snapshot) returns (t: State)
    requires Reachable(env, s) && WriterAt(s, p, Entering) && s.procs[p].force && Ready(env, s.procs[p].req, ps)
    requires Loads(s.db.docs, KeyOf(s.procs[p].req), snap)
    ensures Reachable(env, t) && OnlyMoved(s, t, p) && t.advisory == s.advisory && t.rowLocks == s.rowLocks
    ensures WriterAt(t, p, Beginning) && t.procs[p].req == s.procs[p].req && t.procs[p].force
    ensures t.procs[p].attempt == s.procs[p].attempt && t.procs[p].mode.Rebuild?
    ensures t.procs[p].expected == snap && t.procs[p].prepared == ps
  {
    hide Reachable, NormalizeRequest, ValidRequest, PreparedOk, Loads, VersionAt;
    var s1 := EnterNow(env, s, p, ps);
    Reach(env, s1, p, PreRead(snap));
    var s2 := Step(env, s1, p, PreRead(snap));
    Reach(env, s2, p, Prepare(ps));
    t := Step(env, s2, p, Prepare(ps));
  }

  lemma BeginIs(env: Env, s: State, p: Pid, stamp: Stamp)
    requires WriterAt(s, p, Beginning) && stamp !in s.stamps
    ensures Enabled(env, s, p, Begin(stamp)) && Step(env, s, p, Begin(stamp)) == DoBegin(s, p, s.procs[p], stamp)
  {}

  lemma LockIs(env: Env, s: State, p: Pid)
    requires WriterAt(s, p, Locking) && env.lockKey(KeyOf(s.procs[p].req)) !in s.advisory
    ensures Enabled(env, s, p, Lock) && Step(env, s, p, Lock) == DoLock(env, s, p, s.procs[p])
  {}

  lemma ToLockedRead(env: Env, s: State, p: Pid) returns (t: State)
    requires Reachable(env, s) && WriterAt(s, p, Beginning) && Calm(s)
    ensures Reachable(env, t) && OnlyMoved(s, t, p)
    ensures t.advisory == map[env.lockKey(KeyOf(s.procs[p].req)) := p] && t.rowLocks == map[]
    ensures WriterAt(t, p, LockedReading) && t.procs[p].tx.docs == map[]
    ensures t.procs[p] == s.procs[p].(pc := LockedReading, tx := t.procs[p].tx)
  {
    hide Reachable, Step, Enabled;
    var stamp := UnusedId(s.stamps);
    BeginIs(env, s, p, stamp);
    Reach(env, s, p, Begin(stamp));
    var s1 := Step(env, s, p, Begin(stamp));
    LockIs(env, s1, p);
    Reach(env, s1, p, Lock);
    t := Step(env, s1, p, Lock);
  }

  lemma LockedReadEnabled(env: Env, s: State, p: Pid, snap: Snapshot)
    requires WriterAt(s, p, LockedReading) && s.procs[p].tx.docs == map[] && s.rowLocks == map[]
    requires Loads(s.db.docs, KeyOf(s.procs[p].req), snap)
    ensures Enabled(env, s, p, LockedRead(snap))
  {
    assert s.db.docs + map[] == s.db.docs;
  }

  lemma FreeAll(locks: map<int, Pid>, p: Pid)
    requires forall k | k in locks :: locks[k] == p
    ensures Free(locks, p) == map[]
  {
    assert forall k :: k !in Free(locks, p);
  }

  // A locked read that differs from the pre-read restarts the call, or ends it.
  lemma RestartNow(env: Env, s: State, p: Pid, snap: Snapshot) returns (t: State)
    requires Reachable(env, s) && WriterAt(s, p, LockedReading) && s.procs[p].mode.Rebuild?
    requires s.procs[p].tx.docs == map[] && s.rowLocks == map[] && (forall k | k in s.advisory :: s.advisory[k] == p)
    requires Loads(s.db.docs, KeyOf(s.procs[p].req), snap) && !SnapshotsEqual(snap, s.procs[p].expected)
    ensures Reachable(env, t) && OnlyMoved(s, t, p) && Calm(t)
    ensures t.procs[p].Writer? && t.procs[p].req == s.procs[p].req && t.procs[p].force == s.procs[p].force
    ensures if s.procs[p].attempt >= 1 then t.procs[p].pc == Returned(ChangedConcurrently)
            else t.procs[p].pc == Entering && t.procs[p].attempt == s.procs[p].attempt + 1
  {
    LockedReadEnabled(env, s, p, snap);
    hide Reachable, Classify, VersionAt, SnapshotsEqual, Enabled;
    Reach(env, s, p, LockedRead(snap));
    t := Step(env, s, p, LockedRead(snap));
    hide Step;
    StepOfRestart(env, s, p, snap);
    hide Free, Loads;
    FreeAll(s.advisory, p);
    FreeAll(HoldRow(s, p, snap).rowLocks, p);
  }

  lemma StepOfRestart(env: Env, s: State, p: Pid, snap: Snapshot)
    requires Enabled(env, s, p, LockedRead(snap)) && s.procs[p].mode.Rebuild?
    requires !SnapshotsEqual(snap, s.procs[p].expected)
    ensures Step(env, s, p, LockedRead(snap))
            == RollbackAndRestart(HoldRow(s, p, snap), p, AfterLockedRead(s, s.procs[p], snap, s.procs[p].pc))
  {
    hide RollbackAndRestart, AfterLockedRead, HoldRow, SnapshotsEqual, Classify;
  }

  // Call p has moved on inside its transaction.
  predicate Onward(s: State, t: State, p: Pid) {
    && WriterIn(s, p) && OnlyMoved(s, t, p) && WriterIn(t, p)
    && t.rowLocks == s.rowLocks && t.advisory == s.advisory
    && t.procs[p].req == s.procs[p].req && t.procs[p].prepared == s.procs[p].prepared
  }

  lemma OnwardTwice(s: State, t: State, u: State, p: Pid)
    requires Onward(s, t, p) && Onward(t, u, p)
    ensures Onward(s, u, p)
  {
    assert s.procs[p := t.procs[p]][p := u.procs[p]] == s.procs[p := u.procs[p]];
  }

  // A forced write of a document that is not there goes straight to its upsert.
  lemma ReadNow(env: Env, s: State, p: Pid) returns (t: State)
    requires Reachable(env, s) && WriterAt(s, p, LockedReading) && s.procs[p].mode.Rebuild? && s.procs[p].force
    requires s.procs[p].expected == Absent && s.procs[p].tx.docs == map[] && s.rowLocks == map[]
    requires Loads(s.db.docs, KeyOf(s.procs[p].req), Absent)
    ensures Reachable(env, t) && Onward(s, t, p) && WriterAt(t, p, UpsertingRow) && t.procs[p].tx == s.procs[p].tx
  {
    LockedReadEnabled(env, s, p, Absent);
    hide Reachable, Loads, Classify, Enabled;
    Reach(env, s, p, LockedRead(Absent));
    t := Step(env, s, p, LockedRead(Absent));
  }

  lemma UpsertNow(env: Env, s: State, p: Pid) returns (t: State)
    requires Reachable(env, s) && WriterAt(s, p, UpsertingRow) && s.procs[p].tx.docs == map[]
    requires Loads(s.db.docs, KeyOf(s.procs[p].req), Absent)
    ensures Reachable(env, t) && Onward(s, t, p) && WriterAt(t, p, DeletingChunks)
  {
    assert s.db.docs + map[] == s.db.docs;
    hide Reachable, Loads, UpsertRow;
    var newDoc := UnusedId(s.docIds);
    Reach(env, s, p, DoUpsertRow(Absent, newDoc));
    t := Step(env, s, p, DoUpsertRow(Absent, newDoc));
  }

  lemma DeleteChunksStep(env: Env, s: State, p: Pid) returns (t: State)
    requires Reachable(env, s) && WriterAt(s, p, DeletingChunks)
    ensures Reachable(env, t) && Onward(s, t, p) && WriterAt(t, p, InsertingChunk(0))
  {
    hide Reachable, DeleteChunks;
    Reach(env, s, p, DoDeleteChunks);
    t := Step(env, s, p, DoDeleteChunks);
  }

  lemma InsertOnly(env: Env, s: State, p: Pid) returns (t: State)
    requires Reachable(env, s) && WriterAt(s, p, InsertingChunk(0)) && |s.procs[p].prepared| == 1
    ensures Reachable(env, t) && Onward(s, t, p) && WriterAt(t, p, SettingCount)
  {
    hide Reachable, Insertable, NewChunk;
    InsertOnlyClashesWithItself(env, s, p);
    var newChunk := UnusedId(s.chunkIds);
    Reach(env, s, p, DoInsertChunk(newChunk));
    t := Step(env, s, p, DoInsertChunk(newChunk));
  }

  lemma CountNow(env: Env, s: State, p: Pid) returns (t: State)
    requires Reachable(env, s) && WriterAt(s, p, SettingCount)
    ensures Reachable(env, t) && Onward(s, t, p) && t.procs[p].pc.Committing? && t.procs[p].pc.action.Reindex?
  {
    hide Reachable, SetCount;
    Reach(env, s, p, DoSetCount);
    t := Step(env, s, p, DoSetCount);
  }

  lemma ToCommit(env: Env, s: State, p: Pid) returns (t: State)
    requires Reachable(env, s) && WriterAt(s, p, LockedReading) && s.procs[p].mode.Rebuild? && s.procs[p].force
    requires s.procs[p].expected == Absent && |s.procs[p].prepared| == 1
    requires s.procs[p].tx.docs == map[] && s.rowLocks == map[]
    requires Loads(s.db.docs, KeyOf(s.procs[p].req), Absent)
    ensures Reachable(env, t) && Onward(s, t, p) && t.procs[p].pc.Committing? && t.procs[p].pc.action.Reindex?
  {
    hide Reachable, Loads;
    var s1 := ReadNow(env, s, p);
    var s2 := UpsertNow(env, s1, p);
    var s3 := DeleteChunksStep(env, s2, p);
    var s4 := InsertOnly(env, s3, p);
    t := CountNow(env, s4, p);
    hide OnlyMoved;
    OnwardTwice(s, s1, s2, p);
    OnwardTwice(s, s2, s3, p);
    OnwardTwice(s, s3, s4, p);
    OnwardTwice(s, s4, t, p);
  }

  // Call p has returned its statistics after one commit of its own, the only new one.
  predicate Returns(s: State, t: State, p: Pid) {
    && WriterIn(s, p) && WriterIn(t, p) && t.procs == s.procs[p := t.procs[p]] && Calm(t)
    && Succeeded(t.procs[p].pc) && t.procs[p].req == s.procs[p].req
    && |t.log| == |s.log| + 1 && t.log[..|s.log|] == s.log
    && t.log[|s.log|].pid == p && t.log[|s.log|].changed == {KeyOf(s.procs[p].req)}
    && !Loads(t.db.docs, KeyOf(s.procs[p].req), Absent)
  }

  lemma OnwardReturns(s: State, t: State, u: State, p: Pid)
    requires Onward(s, t, p) && Returns(t, u, p)
    ensures Returns(s, u, p)
  {
    hide Loads;
    assert s.procs[p := t.procs[p]][p := u.procs[p]] == s.procs[p := u.procs[p]];
  }

  lemma CommitNow(env: Env, s: State, p: Pid) returns (t: State)
    requires Reachable(env, s) && WriterIn(s, p) && s.procs[p].pc.Committing? && s.procs[p].pc.action.Reindex?
    requires s.rowLocks == map[] && (forall k | k in s.advisory :: s.advisory[k] == p)
    ensures Reachable(env, t) && Returns(s, t, p)
  {
    hide Reachable, Merge, ChunksOf, Free;
    RebuildEffect(env, s, p);
    Reach(env, s, p, Commit);
    t := Step(env, s, p, Commit);
    FreeAll(s.advisory, p);
    FreeAll(s.rowLocks, p);
  }

  // ---- The runs ----

  // Called alone on an empty store, a write returns its statistics.
  lemma SomeWriteSucceeds(env: Env, r: Request, ps: seq<Piece>) returns (t: State)
    requires Ready(env, r, ps)
    ensures Reachable(env, t) && WriterIn(t, 0) && Succeeded(t.procs[0].pc) && t.procs[0].req == r
    ensures |t.log| == 1 && t.procs[0].past.committedAt == 0 && Calm(t) && t.procs.Keys == {0}
  {
    hide Reachable, Ready, Loads, Replay;
    StartIsEmpty(env, KeyOf(r));
    var s1 := CallNow(env, START, 0, r);
    t := WriteAlone(env, s1, 0, ps);
    SuccessIsOneCommit(env, t, 0);
  }

  lemma CallNow(env: Env, s: State, p: Pid, r: Request) returns (t: State)
    requires Reachable(env, s) && p !in s.procs
    ensures Reachable(env, t) && OnlyMoved(s, t, p) && t.advisory == s.advisory && t.rowLocks == s.rowLocks
    ensures WriterAt(t, p, Entering) && t.procs[p].req == r && t.procs[p].force && t.procs[p].attempt == 0
    ensures t.procs[p].past.callAt == |s.log|
  {
    hide Reachable;
    Reach(env, s, p, Call(r, true));
    t := Step(env, s, p, Call(r, true));
  }

  lemma WriteAlone(env: Env, s: State, p: Pid, ps: seq<Piece>) returns (t: State)
    requires Reachable(env, s) && Calm(s) && WriterAt(s, p, Entering) && s.procs[p].force && Ready(env, s.procs[p].req, ps)
    requires Loads(s.db.docs, KeyOf(s.procs[p].req), Absent)
    ensures Reachable(env, t) && Returns(s, t, p)
  {
    hide Reachable, Ready, Loads, Returns, Onward;
    ReadyPieces(env, s.procs[p].req, ps);
    var s1 := ToBeginning(env, s, p, ps, Absent);
    var s2 := ToLockedRead(env, s1, p);
    var s3 := ToCommit(env, s2, p);
    SameLocksOnward(s2, s3, p);
    t := CommitNow(env, s3, p);
    OnwardReturns(s2, s3, t, p);
    SameStart(s, s1, s2, t, p);
  }

  lemma SameLocksOnward(s: State, t: State, p: Pid)
    requires Onward(s, t, p)
    ensures t.advisory == s.advisory && t.rowLocks == s.rowLocks && WriterIn(t, p)
  {}

  lemma SameStart(s: State, s1: State, s2: State, t: State, p: Pid)
    requires WriterIn(s, p) && OnlyMoved(s, s1, p) && OnlyMoved(s1, s2, p) && WriterIn(s2, p)
    requires s2.procs[p].req == s.procs[p].req && Returns(s2, t, p)
    ensures Returns(s, t, p)
  {
    hide Loads, Calm, Succeeded;
    assert s.procs[p := s1.procs[p]][p := s2.procs[p]][p := t.procs[p]] == s.procs[p := t.procs[p]];
  }

  lemma ReadyPieces(env: Env, r: Request, ps: seq<Piece>)
    requires Ready(env, r, ps)
    ensures |ps| == 1
  {}

  lemma DeleteNow(env: Env, s: State, p: Pid, r: Request, ps: seq<Piece>, snap: Snapshot) returns (t: State)
    requires Reachable(env, s) && Calm(s) && p !in s.procs && Ready(env, r, ps)
    requires Loads(s.db.docs, KeyOf(r), snap) && snap.Present?
    ensures Reachable(env, t) && Calm(t) && t.procs == s.procs[p := Deleter]
    ensures t.log == s.log + [Removed(p, KeyOf(r), {KeyOf(r)})]
    ensures snap.id !in t.db.docs
  {
    hide Reachable, Loads, PreparedOk, Trim, NormalTags, NormalizeText;
    var m := DeleteDocument(r.collection, r.documentId, snap);
    Reach(env, s, p, m);
    t := Step(env, s, p, m);
  }

  lemma DeletedDiffers(docs: map<int, DocRow>, k: Key, snap: Snapshot, gone: Snapshot)
    requires Loads(docs, k, snap) && gone.Present? && gone.id !in docs
    ensures !SnapshotsEqual(snap, gone)
  {}

  lemma AbsentOrNot(docs: map<int, DocRow>, k: Key, snap: Snapshot)
    requires Loads(docs, k, snap)
    ensures !Loads(docs, k, Absent) ==> snap.Present? && !SnapshotsEqual(snap, Absent)
  {}

  // Call 0, done preparing, meets a document it did not see: it restarts and prepares again.
  lemma MeetsOther(env: Env, s: State, ps: seq<Piece>) returns (t: State, snap: Snapshot)
    requires Reachable(env, s) && Calm(s) && WriterAt(s, 0, Beginning)
    requires s.procs[0].mode.Rebuild? && s.procs[0].force && s.procs[0].attempt == 0 && s.procs[0].expected == Absent
    requires Ready(env, s.procs[0].req, ps) && !Loads(s.db.docs, KeyOf(s.procs[0].req), Absent)
    ensures Reachable(env, t) && Calm(t) && OnlyMoved(s, t, 0) && WriterAt(t, 0, Beginning)
    ensures t.procs[0].mode.Rebuild? && t.procs[0].attempt == 1 && t.procs[0].req == s.procs[0].req
    ensures t.procs[0].expected == snap && snap.Present? && Loads(t.db.docs, KeyOf(s.procs[0].req), snap)
  {
    hide Reachable, Ready, Loads, SnapshotsEqual;
    var k := KeyOf(s.procs[0].req);
    snap := SomeLoad(s.db.docs, k);
    AbsentOrNot(s.db.docs, k, snap);
    var s1 := ToLockedRead(env, s, 0);
    var s2 := RestartNow(env, s1, 0, snap);
    t := ToBeginning(env, s2, 0, ps, snap);
  }

  // Call 0, prepared a second time, finds the document gone: it gives up.
  lemma GivesUp(env: Env, s: State) returns (t: State)
    requires Reachable(env, s) && Calm(s) && WriterAt(s, 0, Beginning)
    requires s.procs[0].mode.Rebuild? && s.procs[0].attempt == 1
    requires s.procs[0].expected.Present? && s.procs[0].expected.id !in s.db.docs
    ensures Reachable(env, t) && OnlyMoved(s, t, 0)
    ensures t.procs[0].Writer? && t.procs[0].pc == Returned(ChangedConcurrently) && t.procs[0].req == s.procs[0].req
  {
    hide Reachable, Loads, SnapshotsEqual;
    var k := KeyOf(s.procs[0].req);
    var snap := SomeLoad(s.db.docs, k);
    DeletedDiffers(s.db.docs, k, snap, s.procs[0].expected);
    var s1 := ToLockedRead(env, s, 0);
    t := RestartNow(env, s1, 0, snap);
  }

  // Call 0 prepares; call 1 writes the document; call 0 restarts and prepares again; call 2 deletes
  // the document; call 0 gives up. That takes two foreign commits, and no fewer do (TwoForeignCommits).
  lemma SomeWriteGivesUp(env: Env, r: Request, ps: seq<Piece>) returns (t: State)
    requires Ready(env, r, ps)
    ensures Reachable(env, t) && WriterIn(t, 0)
    ensures t.procs[0].pc == Returned(ChangedConcurrently) && t.procs[0].req == r
    ensures |t.log| == 2 && t.log[0].pid == 1 && t.log[1].pid == 2
    ensures t.log[0].changed == t.log[1].changed == {KeyOf(r)}
  {
    hide Reachable, Ready, Loads;
    var s2 := Prepared(env, r, ps);
    var s4 := OvertakenBy(env, s2, 1, r, ps);
    var s5, snap := MeetsOther(env, s4, ps);
    var s6 := DeleteNow(env, s5, 2, r, ps, snap);
    t := GivesUp(env, s6);
  }

  lemma Prepared(env: Env, r: Request, ps: seq<Piece>) returns (t: State)
    requires Ready(env, r, ps)
    ensures Reachable(env, t) && Calm(t) && t.log == [] && WriterAt(t, 0, Beginning) && t.procs.Keys == {0}
    ensures t.procs[0].mode.Rebuild? && t.procs[0].force && t.procs[0].attempt == 0
    ensures t.procs[0].expected == Absent && t.procs[0].req == r && Loads(t.db.docs, KeyOf(r), Absent)
  {
    hide Reachable, Ready, Loads;
    StartIsEmpty(env, KeyOf(r));
    var s1 := CallNow(env, START, 0, r);
    t := ToBeginning(env, s1, 0, ps, Absent);
  }

  lemma OvertakenBy(env: Env, s: State, p: Pid, r: Request, ps: seq<Piece>) returns (t: State)
    requires Reachable(env, s) && Calm(s) && p !in s.procs && Ready(env, r, ps) && Loads(s.db.docs, KeyOf(r), Absent)
    ensures Reachable(env, t) && Calm(t) && !Loads(t.db.docs, KeyOf(r), Absent)
    ensures p in t.procs && t.procs == s.procs[p := t.procs[p]]
    ensures |t.log| == |s.log| + 1 && t.log[..|s.log|] == s.log
    ensures t.log[|s.log|].pid == p && t.log[|s.log|].changed == {KeyOf(r)}
  {
    hide Reachable, Ready, Loads;
    var s1 := CallNow(env, s, p, r);
    t := WriteAlone(env, s1, p, ps);
    assert s.procs[p := s1.procs[p]][p := t.procs[p]] == s.procs[p := t.procs[p]];
  }

  // ---- A repetition ----

  ghost predicate Leads(env: Env, s: State, t: State) {
    Reaches(Next(env), s, t)
  }

  lemma LeadsOn(env: Env, from: State, s: State, p: Pid, m: Move) returns (t: State)
    requires Leads(env, from, s) && Enabled(env, s, p, m)
    ensures t == Step(env, s, p, m) && Leads(env, from, t)
  {
    t := Step(env, s, p, m);
    assert CanStep(env, s, t);
    hide Step, Enabled;
    ReachesNext(Next(env), from, s, t);
  }

  // What the last writer left classifies as a no-op for the same request.
  lemma RepeatClassified(env: Env, s: State, p: Pid, snap: Snapshot)
    requires Reachable(env, s) && WriterIn(s, p) && Succeeded(s.procs[p].pc) && s.procs[p].past.committedAt + 1 == |s.log|
    requires Loads(s.db.docs, KeyOf(s.procs[p].req), snap)
    ensures var r := s.procs[p].req;
      && Classify(snap, r, HashOf(env, r), false).Noop?
      && s.procs[p].pc.result == Ok(Stats(KeyOf(r), HashOf(env, r), CountOf(snap)))
  {
    hide Reachable, Inv, DataInv, Replay, Classify, Decide;
    var r := s.procs[p].req;
    ReachableInv(env, s);
    DataOf(env, s);
    FreshRead(env, s, KeyOf(r), snap);
    assert s.log[..|s.log|] == s.log;
    WrittenDocument(env, s, p);
    SuccessIsOneCommit(env, s, p);
    DecideIsClassify(Replay(s.log), r, HashOf(env, r), false, VersionAt(s.db, snap));
  }

  // From a second call of the same request, not forced, to its pre-read.
  lemma ToCheapRead(env: Env, s: State, p: Pid, r: Request, ps: seq<Piece>, snap: Snapshot) returns (t: State)
    requires p !in s.procs && Calm(s) && Ready(env, r, ps) && Loads(s.db.docs, KeyOf(r), snap)
    requires Classify(snap, r, HashOf(env, r), false).Noop?
    ensures Enabled(env, s, p, Call(r, false)) && Leads(env, Step(env, s, p, Call(r, false)), t)
    ensures t.db == s.db && t.log == s.log && Calm(t) && WriterAt(t, p, Beginning)
    ensures t.procs[p].req == r && t.procs[p].mode.Cheap?
  {
    hide NormalizeRequest, ValidRequest, PreparedOk, Loads, VersionAt, Classify;
    var s1 := Step(env, s, p, Call(r, false));
    ReachesStart(Next(env), s1);
    hide Leads;
    assert WriterAt(s1, p, Entering) && s1.procs[p].req == r && !s1.procs[p].force && OnlyMoved(s, s1, p) && Calm(s1);
    t := EnterAndRead(env, s1, p, ps, snap);
  }

  lemma EnterAndRead(env: Env, s: State, p: Pid, ps: seq<Piece>, snap: Snapshot) returns (t: State)
    requires Leads(env, s, s) && WriterAt(s, p, Entering) && !s.procs[p].force && Ready(env, s.procs[p].req, ps) && Calm(s)
    requires Loads(s.db.docs, KeyOf(s.procs[p].req), snap)
    requires Classify(snap, s.procs[p].req, HashOf(env, s.procs[p].req), false).Noop?
    ensures Leads(env, s, t) && t.db == s.db && t.log == s.log && Calm(t) && WriterAt(t, p, Beginning)
    ensures t.procs[p].req == s.procs[p].req && t.procs[p].mode.Cheap?
  {
    hide NormalizeRequest, ValidRequest, PreparedOk, Loads, VersionAt, Classify, Leads;
    var s1 := LeadsOn(env, s, s, p, Enter);
    t := LeadsOn(env, s, s1, p, PreRead(snap));
  }

  lemma ToCheapLock(env: Env, from: State, s: State, p: Pid) returns (t: State)
    requires Leads(env, from, s) && Calm(s) && WriterAt(s, p, Beginning)
    ensures Leads(env, from, t) && t.db == s.db && t.log == s.log && t.rowLocks == map[] && WriterAt(t, p, LockedReading)
    ensures t.procs[p].req == s.procs[p].req && t.procs[p].mode == s.procs[p].mode
    ensures t.procs[p].tx == Tx(t.procs[p].tx.stamp, map[], {}, map[])
  {
    hide Leads, Step, Enabled;
    var stamp := UnusedId(s.stamps);
    BeginIs(env, s, p, stamp);
    var s1 := LeadsOn(env, from, s, p, Begin(stamp));
    LockIs(env, s1, p);
    t := LeadsOn(env, from, s1, p, Lock);
  }

  lemma ToCheapCommit(env: Env, from: State, s: State, p: Pid, snap: Snapshot) returns (t: State)
    requires Leads(env, from, s) && s.rowLocks == map[] && WriterAt(s, p, LockedReading) && s.procs[p].mode.Cheap?
    requires s.procs[p].tx == Tx(s.procs[p].tx.stamp, map[], {}, map[])
    requires Loads(s.db.docs, KeyOf(s.procs[p].req), snap)
    requires Classify(snap, s.procs[p].req, HashOf(env, s.procs[p].req), false).Noop?
    ensures Leads(env, from, t) && t.db == s.db && t.log == s.log && WriterAt(t, p, Committing(Noop, CountOf(snap)))
    ensures t.procs[p].req == s.procs[p].req && t.procs[p].tx == s.procs[p].tx
  {
    LockedReadEnabled(env, s, p, snap);
    CheapRead(env, s, p, snap);
    hide Leads, Loads, Classify, Step, Enabled;
    t := LeadsOn(env, from, s, p, LockedRead(snap));
  }

  lemma CheapRead(env: Env, s: State, p: Pid, snap: Snapshot)
    requires Enabled(env, s, p, LockedRead(snap)) && s.procs[p].mode.Cheap?
    requires Classify(snap, s.procs[p].req, HashOf(env, s.procs[p].req), false).Noop?
    ensures Step(env, s, p, LockedRead(snap))
            == SetProc(HoldRow(s, p, snap), p, AfterLockedRead(s, s.procs[p], snap, Committing(Noop, CountOf(snap))))
  {
    hide Loads, Classify, AfterLockedRead, HoldRow;
  }

  // Upsert of the last written request, with nobody else running, returns the same statistics and its
  // commit changes nothing.
  lemma SomeRepeatIsNoop(env: Env, s: State, p: Pid, q: Pid, ps: seq<Piece>) returns (t: State)
    requires Reachable(env, s) && Calm(s) && WriterIn(s, p) && Succeeded(s.procs[p].pc) && q !in s.procs
    requires s.procs[p].past.committedAt + 1 == |s.log| && Ready(env, s.procs[p].req, ps)
    ensures var call := Call(s.procs[p].req, false);
      Enabled(env, s, q, call) && Leads(env, Step(env, s, q, call), t)
    ensures WriterAt(t, q, s.procs[p].pc) && t.db == s.db
    ensures |t.log| == |s.log| + 1 && t.log[..|s.log|] == s.log && t.log[|s.log|].pid == q && t.log[|s.log|].changed == {}
  {
    hide Reachable, Leads, Ready, Loads, Classify, Step, Enabled;
    var r := s.procs[p].req;
    var snap := SomeLoad(s.db.docs, KeyOf(r));
    RepeatClassified(env, s, p, snap);
    var s1 := ToCheapRead(env, s, q, r, ps, snap);
    var from := Step(env, s, q, Call(r, false));
    var s2 := ToCheapLock(env, from, s1, q);
    var s3 := ToCheapCommit(env, from, s2, q, snap);
    t := CheapCommitNow(env, from, s3, q, snap);
  }

  lemma CheapCommitNow(env: Env, from: State, s: State, p: Pid, snap: Snapshot) returns (t: State)
    requires Leads(env, from, s) && WriterAt(s, p, Committing(Noop, CountOf(snap)))
    requires s.procs[p].tx == Tx(s.procs[p].tx.stamp, map[], {}, map[])
    ensures Leads(env, from, t) && t.db == s.db
    ensures WriterAt(t, p, Returned(Ok(Stats(KeyOf(s.procs[p].req), HashOf(env, s.procs[p].req), CountOf(snap)))))
    ensures |t.log| == |s.log| + 1 && t.log[..|s.log|] == s.log && t.log[|s.log|].pid == p && t.log[|s.log|].changed == {}
  {
    NothingMerged(s.db, s.procs[p].tx.stamp);
    hide Leads, Merge, ChunksOf, Free;
    t := LeadsOn(env, from, s, p, Commit);
  }

  // Such requests exist: this one needs only limits that leave room for one rune.
  lemma SomeReady(env: Env) returns (r: Request, ps: seq<Piece>)
    requires env.maxChunkChars > 0 && env.byteLength("x") <= env.maxDocumentBytes
    ensures Ready(env, r, ps)
  {
    r := Request("x", "x", "", "x", "", [], "{}");
    PlainText();
    hide Trim, NormalizeText, IsSpace;
    assert NormalTags([]) == [];
    ps := SomePieces(env);
  }

  lemma PlainText()
    ensures Trim("x") == "x" && Trim("") == "" && NormalizeText("x") == "x"
  {
    assert !IsSpace('x');
    hide IsSpace;
    TrimFixed("x");
    TrimFixed("");
    NoCrFixed("x");
    hide Trim, JoinCrLf, CrToLf;
  }
}
