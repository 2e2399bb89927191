/**
Runs as the moves of their calls: what a call was asked to do, how often it prepared, and the
theorems about restarts and repetition for calls as they were made.
*/
module WriteOrigin {
  import opened Text
  import opened Requests
  import opened Runs
  import opened Tables
  import opened AtomicDocuments
  import opened WriteProtocol
  import opened WriteInvariant
  import opened WriteTheorems
  import opened WriteProgress

  // ---- Moves ----

  // Call p made this move between these two states.
  ghost predicate Moves(env: Env, s: State, t: State, p: Pid, m: Move) {
    Enabled(env, s, p, m) && t == Step(env, s, p, m)
  }

  // What an API call was made with, and how long the history was then.
  datatype Origin = Origin(req: Request, force: bool, logged: nat)

  ghost predicate IsCall(env: Env, run: seq<State>, p: Pid, o: Origin, i: nat) {
    i + 1 < |run| && Moves(env, run[i], run[i + 1], p, Call(o.req, o.force)) && o.logged == |run[i].log|
  }

  // The run makes this call under the name p.
  ghost predicate Made(env: Env, run: seq<State>, p: Pid, o: Origin) {
    exists i: nat :: IsCall(env, run, p, o, i)
  }

  ghost predicate IsHistory(env: Env, run: seq<State>) {
    run != [] && run[0] == START && IsRun(Next(env), run)
  }

  function Last(run: seq<State>): State
    requires run != []
  {
    run[|run| - 1]
  }

  lemma LastReachable(env: Env, run: seq<State>)
    requires IsHistory(env, run)
    ensures Reachable(env, Last(run))
  {
    hide IsRun;
  }

  // ---- What a call was asked ----

  // The request normalised n times: once on entry, and once more after each restart.
  function NormalizedTimes(defaultCollection: string, r: Request, n: nat): Request {
    if n == 0 then r else NormalizeRequest(defaultCollection, NormalizedTimes(defaultCollection, r, n - 1))
  }

  // The request as normalised for the current attempt; a call that has not entered it, or failed before
  // it did, still has the one before.
  predicate RequestAt(d: string, r: Request, pr: Proc)
    requires pr.Writer?
  {
    if pr.pc.Entering? then pr.req == NormalizedTimes(d, r, pr.attempt)
    else
      || pr.req == NormalizedTimes(d, r, pr.attempt + 1)
      || (pr.pc == Returned(Failed) && pr.req == NormalizedTimes(d, r, pr.attempt))
  }

  predicate RestartKeys(d: string, r: Request, rs: seq<Restart>) {
    forall j | 0 <= j < |rs| :: rs[j].key == KeyOf(NormalizedTimes(d, r, j + 1))
  }

  // The call's flag is what its caller passed, its request what its caller passed, normalised once for
  // each attempt, and each restart was on the key of that attempt.
  predicate AsAsked(env: Env, o: Origin, pr: Proc)
    requires pr.Writer?
  {
    && pr.force == o.force && pr.past.callAt == o.logged
    && RequestAt(env.defaultCollection, o.req, pr)
    && |pr.past.restarts| == pr.attempt + (if pr.pc == Returned(ChangedConcurrently) then 1 else 0)
    && RestartKeys(env.defaultCollection, o.req, pr.past.restarts)
  }

  predicate CallAsAsked(env: Env, o: Origin, s: State, p: Pid) {
    p in s.procs && s.procs[p].Writer? && AsAsked(env, o, s.procs[p])
  }

  lemma AskedAtCall(env: Env, s: State, p: Pid, o: Origin)
    requires Enabled(env, s, p, Call(o.req, o.force)) && o.logged == |s.log|
    ensures CallAsAsked(env, o, Step(env, s, p, Call(o.req, o.force)), p)
  {}

  // The call goes on with the same attempt and request.
  predicate GoesOn(pr: Proc, next: Proc)
    requires pr.Writer? && next.Writer?
  {
    && next.req == pr.req && next.force == pr.force && next.attempt == pr.attempt
    && next.past.callAt == pr.past.callAt && next.past.restarts == pr.past.restarts
    && pr.pc != Returned(ChangedConcurrently) && next.pc != Returned(ChangedConcurrently) && !next.pc.Entering?
    && (next.pc == Returned(Failed) || (!pr.pc.Entering? && pr.pc != Returned(Failed)))
    && CountsOn(pr, next)
  }

  // The call counts the prepare it is about to make, and no other.
  predicate CountsOn(pr: Proc, next: Proc)
    requires pr.Writer? && next.Writer?
  {
    next.past.prepares == pr.past.prepares + if next.pc.Preparing? then 1 else 0
  }

  lemma AskedKept(env: Env, o: Origin, pr: Proc, next: Proc)
    requires pr.Writer? && next.Writer? && AsAsked(env, o, pr) && GoesOn(pr, next)
    ensures AsAsked(env, o, next)
  {
    hide RestartKeys, NormalizedTimes;
  }

  lemma AskedOnEntry(env: Env, o: Origin, s: State, p: Pid, pr: Proc)
    requires pr.Writer? && pr.pc.Entering? && AsAsked(env, o, pr)
    ensures var t := DoEnter(env, s, p, pr);
      p in t.procs && t.procs[p].Writer? && AsAsked(env, o, t.procs[p])
  {
    NormalizedOnce(env.defaultCollection, o.req, pr.attempt);
    hide RestartKeys, NormalizedTimes, NormalizeRequest, ValidRequest;
  }

  lemma NormalizedOnce(d: string, r: Request, n: nat)
    ensures NormalizedTimes(d, r, n + 1) == NormalizeRequest(d, NormalizedTimes(d, r, n))
  {}

  lemma AskedOnRestart(env: Env, o: Origin, s: State, p: Pid, pr: Proc)
    requires pr.Writer? && pr.pc.LockedReading? && AsAsked(env, o, pr)
    ensures var t := RollbackAndRestart(s, p, pr);
      p in t.procs && t.procs[p].Writer? && AsAsked(env, o, t.procs[p])
  {
    hide NormalizedTimes, Free;
  }

  lemma AskedAfterLockedRead(env: Env, o: Origin, s: State, p: Pid, pr: Proc, snap: Snapshot)
    requires pr.Writer? && pr.pc.LockedReading? && AsAsked(env, o, pr) && (snap.Present? ==> snap.id in s.db.docs)
    ensures var t := DoLockedRead(env, s, p, pr, snap);
      p in t.procs && t.procs[p].Writer? && AsAsked(env, o, t.procs[p])
  {
    hide AsAsked, HoldRow, VersionAt, Classify, SnapshotsEqual, RollbackAndRestart;
    var next := AfterLockedRead(s, pr, snap, pr.pc);
    SameAsked(env, o, pr, next);
    AskedOnRestart(env, o, HoldRow(s, p, snap), p, next);
    if Judge(env, pr, snap).Proceeds? {
      AskedKept(env, o, pr, AfterLockedRead(s, pr, snap, Judge(env, pr, snap).pc));
    }
  }

  lemma SameAsked(env: Env, o: Origin, pr: Proc, next: Proc)
    requires pr.Writer? && next.Writer? && AsAsked(env, o, pr)
    requires next.req == pr.req && next.force == pr.force && next.attempt == pr.attempt && next.pc == pr.pc
    requires next.past.callAt == pr.past.callAt && next.past.restarts == pr.past.restarts
    ensures AsAsked(env, o, next)
  {
    hide RestartKeys, NormalizedTimes;
  }

  // ---- What a step changes ----

  predicate OnlyMoves(s: State, t: State, p: Pid) {
    p in t.procs && t.procs == s.procs[p := t.procs[p]]
  }

  predicate CallGoesOn(s: State, t: State, p: Pid)
    requires p in s.procs && s.procs[p].Writer?
  {
    OnlyMoves(s, t, p) && t.procs[p].Writer? && GoesOn(s.procs[p], t.procs[p])
  }

  lemma ReadGoesOn(env: Env, s: State, p: Pid, m: Move)
    requires Enabled(env, s, p, m) && p in s.procs && s.procs[p].Writer?
    requires m.PreRead? || m.Prepare?
    ensures CallGoesOn(s, Step(env, s, p, m), p)
  {
    hide Loads, Classify, PreparedOk, VersionAt;
  }

  lemma LockGoesOn(env: Env, s: State, p: Pid, m: Move)
    requires Enabled(env, s, p, m) && p in s.procs && s.procs[p].Writer?
    requires m.Begin? || m.Lock?
    ensures CallGoesOn(s, Step(env, s, p, m), p)
  {}

  lemma FailGoesOn(env: Env, s: State, p: Pid)
    requires Enabled(env, s, p, Fail)
    ensures CallGoesOn(s, Step(env, s, p, Fail), p)
  {
    hide Free;
  }

  lemma RefreshGoesOn(env: Env, s: State, p: Pid, m: Move)
    requires Enabled(env, s, p, m) && p in s.procs && s.procs[p].Writer?
    requires m.DoRefreshDocument? || m.DoRefreshChunks?
    ensures CallGoesOn(s, Step(env, s, p, m), p)
  {
    hide RefreshDocument, RefreshChunks;
  }

  lemma RebuildGoesOn(env: Env, s: State, p: Pid, m: Move)
    requires Enabled(env, s, p, m) && p in s.procs && s.procs[p].Writer?
    requires m.DoDeleteChunks? || m.DoSetCount?
    ensures CallGoesOn(s, Step(env, s, p, m), p)
  {
    hide DeleteChunks, SetCount;
  }

  lemma UpsertGoesOn(s: State, p: Pid, pr: Proc, conflict: Snapshot, newId: int, h: string)
    requires pr.Writer? && pr.pc.UpsertingRow? && p in s.procs && s.procs[p] == pr
    requires Loads(VisibleDocs(s.db, pr.tx), KeyOf(pr.req), conflict)
    ensures CallGoesOn(s, DoUpsert(s, p, pr, conflict, newId, h), p)
  {
    hide Loads, UpsertRow, VisibleDocs;
  }

  lemma InsertGoesOn(s: State, p: Pid, pr: Proc, newId: int)
    requires pr.Writer? && pr.pc.InsertingChunk? && pr.pc.next < |pr.prepared| && p in s.procs && s.procs[p] == pr
    ensures CallGoesOn(s, DoInsert(s, p, pr, newId), p)
  {
    hide NewChunk;
  }

  lemma CommitGoesOn(env: Env, s: State, p: Pid)
    requires Enabled(env, s, p, Commit)
    ensures CallGoesOn(s, Step(env, s, p, Commit), p)
  {
    hide Merge, ChunksOf, Free, CommitEvent;
  }

  lemma UpsertStep(env: Env, s: State, p: Pid, conflict: Snapshot, newId: int)
    requires Enabled(env, s, p, DoUpsertRow(conflict, newId))
    ensures CallGoesOn(s, Step(env, s, p, DoUpsertRow(conflict, newId)), p)
  {
    hide Loads, DoUpsert, CallGoesOn, VisibleDocs;
    UpsertGoesOn(s, p, s.procs[p], conflict, newId, HashOf(env, s.procs[p].req));
  }

  lemma InsertStep(env: Env, s: State, p: Pid, newId: int)
    requires Enabled(env, s, p, DoInsertChunk(newId))
    ensures CallGoesOn(s, Step(env, s, p, DoInsertChunk(newId)), p)
  {
    hide Insertable, NewChunk, DoInsert, CallGoesOn;
    InsertGoesOn(s, p, s.procs[p], newId);
  }

  lemma OtherStepsGoOn(env: Env, s: State, p: Pid, m: Move)
    requires Enabled(env, s, p, m) && p in s.procs && s.procs[p].Writer? && !m.Enter? && !m.LockedRead?
    ensures CallGoesOn(s, Step(env, s, p, m), p)
  {
    MovesOfWriter(env, s, p, m);
    hide Enabled, Step, CallGoesOn;
    if m.PreRead? || m.Prepare? {
      ReadGoesOn(env, s, p, m);
    } else if m.Begin? || m.Lock? {
      LockGoesOn(env, s, p, m);
    } else if m.Fail? {
      FailGoesOn(env, s, p);
    } else if m.DoUpsertRow? {
      UpsertStep(env, s, p, m.conflict, m.newId);
    } else if m.DoInsertChunk? {
      InsertStep(env, s, p, m.newId);
    } else if m.Commit? {
      CommitGoesOn(env, s, p);
    } else if m.DoRefreshDocument? || m.DoRefreshChunks? {
      RefreshGoesOn(env, s, p, m);
    } else {
      RebuildGoesOn(env, s, p, m);
    }
  }

  lemma MovesOfWriter(env: Env, s: State, p: Pid, m: Move)
    requires Enabled(env, s, p, m) && p in s.procs
    ensures s.procs[p].Writer? && !m.Call? && !m.DeleteDocument? && !m.DeleteCollection?
  {
    hide Loads, PreparedOk, Insertable;
  }

  lemma LockedReadOnlyMoves(env: Env, s: State, p: Pid, pr: Proc, snap: Snapshot)
    requires pr.Writer? && (snap.Present? ==> snap.id in s.db.docs)
    ensures OnlyMoves(s, DoLockedRead(env, s, p, pr, snap), p)
  {
    hide Judge, VersionAt, RollbackAndRestart;
    var next := AfterLockedRead(s, pr, snap, pr.pc);
    RestartOnlyMoves(HoldRow(s, p, snap), p, next);
  }

  lemma RestartOnlyMoves(s: State, p: Pid, pr: Proc)
    requires pr.Writer?
    ensures OnlyMoves(s, RollbackAndRestart(s, p, pr), p)
  {
    hide Free;
  }

  // A step of q changes no other call.
  lemma OnlyOwn(env: Env, s: State, q: Pid, m: Move)
    requires Enabled(env, s, q, m)
    ensures OnlyMoves(s, Step(env, s, q, m), q)
  {
    hide Loads, Trim, ResolveCollection, IdsIn, DeleteDocs, NormalizeRequest, ValidRequest, DoLockedRead;
    if q in s.procs {
      MovesOfWriter(env, s, q, m);
      if m.LockedRead? {
        LockedReadOnlyMoves(env, s, q, s.procs[q], m.snap);
      } else if !m.Enter? {
        hide Step, Enabled, GoesOn;
        OtherStepsGoOn(env, s, q, m);
      }
    }
  }

  lemma AskedAfterStep(env: Env, o: Origin, s: State, q: Pid, m: Move, p: Pid)
    requires Enabled(env, s, q, m) && CallAsAsked(env, o, s, p)
    ensures CallAsAsked(env, o, Step(env, s, q, m), p)
  {
    hide AsAsked, DoEnter, DoLockedRead, Loads;
    OnlyOwn(env, s, q, m);
    if q == p {
      var pr := s.procs[p];
      if m.Enter? {
        AskedOnEntry(env, o, s, p, pr);
      } else if m.LockedRead? {
        AskedAfterLockedRead(env, o, s, p, pr, m.snap);
      } else {
        OtherStepsGoOn(env, s, p, m);
        AskedKept(env, o, pr, Step(env, s, q, m).procs[p]);
      }
    }
  }

  // Every call in a run is as it was asked.
  lemma OriginOfCall(env: Env, run: seq<State>, p: Pid, o: Origin)
    requires IsRun(Next(env), run) && Made(env, run, p, o)
    ensures CallAsAsked(env, o, Last(run), p)
  {
    hide Enabled, Step, CallAsAsked;
    var i: nat :| IsCall(env, run, p, o, i);
    AskedAtCall(env, run[i], p, o);
    forall a, b | CallAsAsked(env, o, a, p) && CanStep(env, a, b)
      ensures CallAsAsked(env, o, b, p)
    {
      var q, m :| Enabled(env, a, q, m) && b == Step(env, a, q, m);
      AskedAfterStep(env, o, a, q, m, p);
    }
    InductAlong(Next(env), run, s => CallAsAsked(env, o, s, p), i + 1, |run| - 1);
  }

  // And every writer there is was called, once.
  lemma EveryWriterWasMade(env: Env, run: seq<State>, p: Pid) returns (o: Origin)
    requires IsHistory(env, run) && p in Last(run).procs && Last(run).procs[p].Writer?
    ensures Made(env, run, p, o)
  {
    hide Enabled, Step;
    var i := CameToHold(Next(env), run, (s: State) => p in s.procs && s.procs[p].Writer?, |run| - 1);
    var q, m :| Enabled(env, run[i], q, m) && run[i + 1] == Step(env, run[i], q, m);
    OnlyCallsMakeWriters(env, run[i], q, m, p);
    o := Origin(m.req, m.force, |run[i].log|);
    assert IsCall(env, run, p, o, i);
  }

  lemma OnlyCallsMakeWriters(env: Env, s: State, q: Pid, m: Move, p: Pid)
    requires Enabled(env, s, q, m)
    requires !(p in s.procs && s.procs[p].Writer?)
    requires p in Step(env, s, q, m).procs && Step(env, s, q, m).procs[p].Writer?
    ensures q == p && m.Call?
  {
    OnlyOwn(env, s, q, m);
    hide Loads, Classify, PreparedOk, VersionAt, Insertable, Merge, ChunksOf, Free, VisibleDocs, DoLockedRead, DoEnter,
         DoUpsert, DoInsert, DoCommit, Trim, ResolveCollection, IdsIn, DeleteDocs;
  }

  lemma MadeOnce(env: Env, run: seq<State>, p: Pid, o: Origin, i: nat, u: Origin, j: nat)
    requires IsRun(Next(env), run) && IsCall(env, run, p, o, i) && IsCall(env, run, p, u, j)
    ensures i == j && o == u
  {
    NotAgain(env, run, p, o, i, u, j);
    NotAgain(env, run, p, u, j, o, i);
    OneMove(env, run[i], run[i + 1], p, o, u);
  }

  lemma OneMove(env: Env, s: State, t: State, p: Pid, o: Origin, u: Origin)
    requires Moves(env, s, t, p, Call(o.req, o.force)) && o.logged == |s.log|
    ensures Moves(env, s, t, p, Call(u.req, u.force)) && u.logged == |s.log| ==> o == u
  {
    assert t.procs[p].req == o.req && t.procs[p].force == o.force;
  }

  lemma CallAppears(env: Env, run: seq<State>, p: Pid, o: Origin, i: nat)
    requires IsCall(env, run, p, o, i)
    ensures i + 1 < |run| && p !in run[i].procs && p in run[i + 1].procs
  {}

  lemma StaysKnown(env: Env, a: State, b: State, p: Pid)
    requires p in a.procs && CanStep(env, a, b)
    ensures p in b.procs
  {
    hide Enabled, Step;
    var q, m :| Enabled(env, a, q, m) && b == Step(env, a, q, m);
    OnlyOwn(env, a, q, m);
  }

  lemma NotAgain(env: Env, run: seq<State>, p: Pid, o: Origin, i: nat, u: Origin, j: nat)
    requires IsRun(Next(env), run) && IsCall(env, run, p, o, i) && IsCall(env, run, p, u, j)
    ensures j <= i
  {
    hide IsCall, CanStep;
    CallAppears(env, run, p, o, i);
    CallAppears(env, run, p, u, j);
    forall a: State, b: State | p in a.procs && CanStep(env, a, b)
      ensures p in b.procs
    {
      StaysKnown(env, a, b, p);
    }
    forall k | i + 1 <= k < |run|
      ensures p in run[k].procs
    {
      InductAlong(Next(env), run, (s: State) => p in s.procs, i + 1, k);
    }
  }

  // ---- How often a call prepares ----

  ghost predicate Prepares(env: Env, s: State, t: State, p: Pid) {
    exists ps :: Moves(env, s, t, p, Prepare(ps))
  }

  // The number of times call p split and embedded in this run.
  ghost function PrepareCount(env: Env, run: seq<State>, p: Pid): nat {
    if |run| <= 1 then 0
    else
      var n := |run| - 1;
      PrepareCount(env, run[..n], p) + if Prepares(env, run[n - 1], run[n], p) then 1 else 0
  }

  // The count a call keeps covers what it has prepared, and what it is about to.
  predicate Counted(s: State, p: Pid, n: nat) {
    if p in s.procs && s.procs[p].Writer? then n + (if s.procs[p].pc.Preparing? then 1 else 0) <= s.procs[p].past.prepares
    else n == 0
  }

  lemma EnterCounts(env: Env, s: State, p: Pid, pr: Proc)
    requires pr.Writer?
    ensures var t := DoEnter(env, s, p, pr);
      p in t.procs && t.procs[p].Writer? && CountsOn(pr, t.procs[p])
  {
    hide NormalizeRequest, ValidRequest;
  }

  lemma LockedReadCounts(env: Env, s: State, p: Pid, pr: Proc, snap: Snapshot)
    requires pr.Writer? && pr.pc.LockedReading? && (snap.Present? ==> snap.id in s.db.docs)
    ensures var t := DoLockedRead(env, s, p, pr, snap);
      p in t.procs && t.procs[p].Writer? && CountsOn(pr, t.procs[p])
  {
    JudgedPc(env, pr, snap);
    hide Judge, VersionAt, RollbackAndRestart, HoldRow;
    var next := AfterLockedRead(s, pr, snap, pr.pc);
    RestartCounts(HoldRow(s, p, snap), p, next);
    if Judge(env, pr, snap).Proceeds? {
      LockedReadProc(env, s, p, pr, snap);
      hide DoLockedRead;
    }
  }

  lemma LockedReadProc(env: Env, s: State, p: Pid, pr: Proc, snap: Snapshot)
    requires pr.Writer? && (snap.Present? ==> snap.id in s.db.docs) && Judge(env, pr, snap).Proceeds?
    ensures var t := DoLockedRead(env, s, p, pr, snap);
      p in t.procs && t.procs[p] == AfterLockedRead(s, pr, snap, Judge(env, pr, snap).pc)
  {
    hide Judge, AfterLockedRead, HoldRow;
  }

  lemma JudgedPc(env: Env, pr: Proc, snap: Snapshot)
    requires pr.Writer?
    ensures Judge(env, pr, snap).Proceeds? ==> !Judge(env, pr, snap).pc.Preparing?
  {
    hide Classify, SnapshotsEqual;
  }

  lemma RestartCounts(s: State, p: Pid, pr: Proc)
    requires pr.Writer?
    ensures var t := RollbackAndRestart(s, p, pr);
      p in t.procs && t.procs[p].Writer? && t.procs[p].past.prepares == pr.past.prepares && !t.procs[p].pc.Preparing?
  {
    hide Free;
  }

  lemma StepCounts(env: Env, s: State, p: Pid, m: Move)
    requires Enabled(env, s, p, m) && p in s.procs
    ensures s.procs[p].Writer?
    ensures var t := Step(env, s, p, m);
      p in t.procs && t.procs[p].Writer? && CountsOn(s.procs[p], t.procs[p])
  {
    hide Loads, DoEnter, DoLockedRead, CountsOn;
    MovesOfWriter(env, s, p, m);
    if m.Enter? {
      EnterCounts(env, s, p, s.procs[p]);
    } else if m.LockedRead? {
      LockedReadCounts(env, s, p, s.procs[p], m.snap);
    } else {
      hide Step, Enabled;
      OtherStepsGoOn(env, s, p, m);
    }
  }

  lemma FirstStepCounts(env: Env, s: State, p: Pid, m: Move)
    requires Enabled(env, s, p, m) && p !in s.procs
    ensures Counted(Step(env, s, p, m), p, 0)
  {
    hide Loads, Trim, ResolveCollection, IdsIn, DeleteDocs;
  }

  lemma PrepareEnds(env: Env, s: State, t: State, p: Pid)
    requires Prepares(env, s, t, p)
    ensures p in s.procs && s.procs[p].Writer? && s.procs[p].pc.Preparing?
    ensures p in t.procs && t.procs[p].Writer? && !t.procs[p].pc.Preparing?
  {
    hide PreparedOk;
    var ps :| Moves(env, s, t, p, Prepare(ps));
  }

  lemma CountedAfterStep(env: Env, s: State, q: Pid, m: Move, p: Pid, n: nat)
    requires Enabled(env, s, q, m) && Counted(s, p, n)
    ensures Counted(Step(env, s, q, m), p, n + if Prepares(env, s, Step(env, s, q, m), p) then 1 else 0)
  {
    hide Enabled, Step, Prepares;
    var t := Step(env, s, q, m);
    OnlyOwn(env, s, q, m);
    if Prepares(env, s, t, p) { PrepareEnds(env, s, t, p); }
    if q == p {
      if p in s.procs { StepCounts(env, s, p, m); } else { FirstStepCounts(env, s, p, m); }
    }
  }

  lemma {:induction false} PreparesCounted(env: Env, run: seq<State>, p: Pid)
    requires IsHistory(env, run)
    ensures Counted(Last(run), p, PrepareCount(env, run, p))
    decreases |run|
  {
    hide Enabled, Step, Counted, Prepares;
    var n := |run| - 1;
    if n == 0 {
      StartCounted(p);
    } else {
      var init := run[..n];
      InitIsHistory(env, run);
      PreparesCounted(env, init, p);
      var q, m :| Enabled(env, run[n - 1], q, m) && run[n] == Step(env, run[n - 1], q, m);
      CountedAfterStep(env, run[n - 1], q, m, p, PrepareCount(env, init, p));
    }
  }

  lemma StartCounted(p: Pid)
    ensures Counted(START, p, 0)
  {}

  lemma InitIsHistory(env: Env, run: seq<State>)
    requires IsHistory(env, run) && |run| > 1
    ensures IsHistory(env, run[..|run| - 1]) && CanStep(env, run[|run| - 2], run[|run| - 1])
  {
    hide CanStep;
    var n := |run| - 1;
    assert Next(env)(run[n - 1], run[n - 1 + 1]);
    assert forall i | 0 <= i < n - 1 :: Next(env)(run[..n][i], run[..n][i + 1]) == Next(env)(run[i], run[i + 1]);
  }

  // One call splits and embeds at most twice.
  lemma PreparesAtMostTwice(env: Env, run: seq<State>, p: Pid)
    requires IsHistory(env, run)
    ensures PrepareCount(env, run, p) <= 2
  {
    LastReachable(env, run);
    PreparesCounted(env, run, p);
    if p in Last(run).procs && Last(run).procs[p].Writer? {
      PreparesBounded(env, Last(run), p);
    }
    hide IsRun, Reachable, PrepareCount;
  }

  // ---- Calls with a stable key ----

  lemma {:induction false} StableTimes(d: string, r: Request, n: nat)
    requires KeyStable(d, r.collection) && n > 0
    ensures NormalizedTimes(d, r, n) == NormalizeRequest(d, r)
  {
    hide NormalizeRequest, KeyStable;
    NormalizeTwice(d, r);
    if n > 1 {
      StableTimes(d, r, n - 1);
    } else {
      NormalizedOnce(d, r, 0);
    }
  }

  // The request and the restarts of a call with a stable key.
  lemma StableOrigin(env: Env, run: seq<State>, p: Pid, o: Origin)
    requires IsHistory(env, run) && Made(env, run, p, o) && KeyStable(env.defaultCollection, o.req.collection)
    ensures p in Last(run).procs && Last(run).procs[p].Writer? && Reachable(env, Last(run))
    ensures var pr := Last(run).procs[p];
      var n := NormalizeRequest(env.defaultCollection, o.req);
      && pr.force == o.force && pr.past.callAt == o.logged
      && RestartedOn(pr, KeyOf(n))
      && (!pr.pc.Entering? && pr.pc != Returned(Failed) ==> pr.req == n)
  {
    LastReachable(env, run);
    OriginOfCall(env, run, p, o);
    var d := env.defaultCollection;
    hide NormalizeRequest, KeyStable, NormalizedTimes, Reachable, Made;
    forall n: nat | n > 0
      ensures NormalizedTimes(d, o.req, n) == NormalizeRequest(d, o.req)
    {
      StableTimes(d, o.req, n);
    }
  }

  // ErrDocumentChangedConcurrently means two separate commits by others changed the document the caller
  // named, after the call was made.
  lemma TwoForeignCommits(env: Env, run: seq<State>, p: Pid, o: Origin) returns (i: nat, j: nat)
    requires IsHistory(env, run) && Made(env, run, p, o) && KeyStable(env.defaultCollection, o.req.collection)
    requires WriterAt(Last(run), p, Returned(ChangedConcurrently))
    ensures var k := KeyOf(NormalizeRequest(env.defaultCollection, o.req));
      var log := Last(run).log;
      && o.logged <= i < j < |log|
      && log[i].pid != p && k in log[i].changed && log[j].pid != p && k in log[j].changed
  {
    hide IsRun, Made, KeyStable, NormalizeRequest, Reachable, RestartedOn;
    StableOrigin(env, run, p, o);
    i, j := TwoForeignChanges(env, Last(run), p, KeyOf(NormalizeRequest(env.defaultCollection, o.req)));
  }

  // A call whose document no one else changes after it was made never restarts, and prepares at most once.
  lemma LoneWriterNeverRestarts(env: Env, run: seq<State>, p: Pid, o: Origin)
    requires IsHistory(env, run) && Made(env, run, p, o) && KeyStable(env.defaultCollection, o.req.collection)
    requires forall i | o.logged <= i < |Last(run).log| && Last(run).log[i].pid != p ::
      KeyOf(NormalizeRequest(env.defaultCollection, o.req)) !in Last(run).log[i].changed
    ensures PrepareCount(env, run, p) <= 1
    ensures p in Last(run).procs && Last(run).procs[p].Writer?
    ensures Last(run).procs[p].attempt == 0 && Last(run).procs[p].pc != Returned(ChangedConcurrently)
  {
    PreparesCounted(env, run, p);
    hide IsRun, Made, KeyStable, NormalizeRequest, Reachable, RestartedOn, PrepareCount;
    StableOrigin(env, run, p, o);
    UndisturbedHasNoRestart(env, Last(run), p, KeyOf(NormalizeRequest(env.defaultCollection, o.req)));
  }

  // Call p returned its statistics, and event i is its commit.
  predicate CommittedAs(s: State, p: Pid, i: nat) {
    p in s.procs && s.procs[p].Writer? && Succeeded(s.procs[p].pc) && i < |s.log| && s.log[i].pid == p
  }

  // Repeating a successful write with no interference is free: Upsert of the same request, called after
  // the first write committed, with no change to the document until it commits in turn, never calls the
  // splitter or the embedder, changes no document, and returns the same statistics.
  lemma RepeatIsNoop(env: Env, run: seq<State>, p: Pid, o: Origin, i: nat, q: Pid, req: Request, logged: nat, j: nat)
    requires IsHistory(env, run) && Made(env, run, p, o) && Made(env, run, q, Origin(req, false, logged))
    requires KeyStable(env.defaultCollection, req.collection)
    requires NormalizeRequest(env.defaultCollection, req) == NormalizeRequest(env.defaultCollection, o.req)
    requires CommittedAs(Last(run), p, i) && CommittedAs(Last(run), q, j) && i < logged && i < j
    requires Quiet(Last(run).log, i + 1, j, KeyOf(NormalizeRequest(env.defaultCollection, req)))
    ensures var s := Last(run);
      && PrepareCount(env, run, q) == 0
      && s.log[j].changed == {} && Replay(s.log[..j + 1]) == Replay(s.log[..j])
      && s.procs[q].pc.result == s.procs[p].pc.result
  {
    PreparesCounted(env, run, q);
    var u := Origin(req, false, logged);
    SameStability(env.defaultCollection, req, o.req);
    hide IsRun, Made, KeyStable, NormalizeRequest, Reachable, RestartedOn, PrepareCount, Quiet, Replay;
    StableOrigin(env, run, p, o);
    StableOrigin(env, run, q, u);
    var s := Last(run);
    CommitIsOwn(env, s, p, i);
    CommitIsOwn(env, s, q, j);
    RepeatTakesNoop(env, s, p, q);
  }

  lemma SameStability(d: string, r: Request, u: Request)
    requires KeyStable(d, r.collection) && NormalizeRequest(d, r) == NormalizeRequest(d, u)
    ensures KeyStable(d, u.collection)
  {
    hide KeyStable, NormalizeRequest;
    NormalizeTwice(d, r);
    NormalizeTwice(d, u);
  }

  lemma CommitIsOwn(env: Env, s: State, p: Pid, i: nat)
    requires Reachable(env, s) && CommittedAs(s, p, i)
    ensures s.procs[p].past.committedAt == i && s.procs[p].past.callAt <= i
  {
    hide Reachable, Replay;
    SuccessIsOneCommit(env, s, p);
  }
}
