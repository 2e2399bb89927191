/**
Any number of cached searches at once. Get and Put are critical sections of their own; the embedder
runs between them with no lock held, so searches interleave freely and may embed the same key twice.
*/
module SearchRuns {
  import opened Text
  import opened Embedding
  import opened Recency
  import opened Runs
  import opened Sequences
  import opened CachedSearch

  type Pid = nat

  // What is asked: the normalised text, and whatever of the request's context the embedder looks at,
  // such as a tenant or a locale.
  datatype Query = Query(text: string, scope: string)

  // The embedder names a key per query and gives a query one embedding; calls may also fail,
  // decline to name a key, or answer with the wrong number of vectors.
  datatype Env = Env(
    capacity: nat,                   // 0: no cache
    keyed: bool,
    dimensions: int,
    keyOf: Query -> string,
    embedding: Query -> Vector)

  datatype Outcome = Success(vector: Vector, status: Status) | Failure(error: SearchError)

  datatype Proc =
    | Resolving(query: Query)
    | Getting(query: Query, key: string)
    | Embedding(query: Query, plan: KeyPlan)
    | Putting(query: Query, key: string, vector: Vector)
    | Done(query: Query, outcome: Outcome)

  datatype State = State(contents: Entries, procs: map<Pid, Proc>, log: seq<Op>)

  const START: State := State([], map[], [])

  datatype Move =
    | Ask(query: Query)
    | Resolve(outcome: KeyOutcome)
    | DoGet
    | DoEmbed(answer: EmbedOutcome)
    | DoPut

  predicate Enabled(env: Env, s: State, p: Pid, m: Move) {
    match m
    case Ask(_) => p !in s.procs
    case Resolve(o) => p in s.procs && s.procs[p].Resolving? && (o.Key? ==> o.key == env.keyOf(s.procs[p].query))
    case DoGet => p in s.procs && s.procs[p].Getting?
    case DoEmbed(a) =>
      && p in s.procs && s.procs[p].Embedding? && !s.procs[p].plan.KeyRefused?
      && (a.Vectors? && |a.vectors| == 1 ==> a.vectors[0] == env.embedding(s.procs[p].query))
    case DoPut => p in s.procs && s.procs[p].Putting?
  }

  function AfterResolve(env: Env, query: Query, o: KeyOutcome): Proc {
    match ResolveKey(env.capacity > 0, env.keyed, o)
    case KeyRefused(e) => Done(query, Failure(e))
    case SkipCache(status) => Embedding(query, SkipCache(status))
    case UseKey(k) => Getting(query, k)
  }

  function AfterLookup(contents: Entries, query: Query, key: string): Proc {
    if Has(contents, key) then Done(query, Success(VectorOf(contents, key), Hit)) else Embedding(query, UseKey(key))
  }

  function AfterEmbed(env: Env, query: Query, plan: KeyPlan, a: EmbedOutcome): Proc
    requires !plan.KeyRefused?
  {
    match CheckEmbedding(a, env.dimensions)
    case Bad(e) => Done(query, Failure(e))
    case Good(v) => if plan.UseKey? then Putting(query, plan.key, v) else Done(query, Success(v, plan.status))
  }

  function Step(env: Env, s: State, p: Pid, m: Move): State
    requires Enabled(env, s, p, m)
  {
    match m
    case Ask(q) => s.(procs := s.procs[p := Resolving(q)])
    case Resolve(o) => s.(procs := s.procs[p := AfterResolve(env, s.procs[p].query, o)])
    case DoGet =>
      var pr := s.procs[p];
      State(AfterGet(s.contents, pr.key),
            s.procs[p := AfterLookup(s.contents, pr.query, pr.key)],
            s.log + [Get(pr.key)])
    case DoEmbed(a) => s.(procs := s.procs[p := AfterEmbed(env, s.procs[p].query, s.procs[p].plan, a)])
    case DoPut =>
      var pr := s.procs[p];
      State(AfterPut(env.capacity, s.contents, pr.key, pr.vector),
            s.procs[p := Done(pr.query, Success(pr.vector, Miss))],
            s.log + [Put(pr.key, pr.vector)])
  }

  ghost predicate CanStep(env: Env, s: State, t: State) {
    exists p, m :: Enabled(env, s, p, m) && t == Step(env, s, p, m)
  }

  ghost function Next(env: Env): (State, State) -> bool {
    (s, t) => CanStep(env, s, t)
  }

  ghost predicate Reachable(env: Env, s: State) {
    Reaches(Next(env), START, s)
  }

  // ---- What every state keeps ----

  predicate IsKey(env: Env, query: Query, key: string) {
    env.capacity > 0 && env.keyed && key == env.keyOf(query) && Trim(key) != ""
  }

  // A vector of the right dimension that some query with this key embeds to.
  ghost predicate Earned(env: Env, key: string, v: Vector) {
    |v| == env.dimensions && exists q :: IsKey(env, q, key) && env.embedding(q) == v
  }

  ghost predicate ProcOk(env: Env, pr: Proc) {
    match pr
    case Resolving(_) => true
    case Getting(q, k) => IsKey(env, q, k)
    case Embedding(q, plan) => !plan.KeyRefused? && (plan.UseKey? ==> IsKey(env, q, plan.key)) && (plan.SkipCache? ==> plan.status != Hit)
    case Putting(q, k, v) => IsKey(env, q, k) && v == env.embedding(q) && |v| == env.dimensions
    case Done(q, outcome) => outcome.Success? ==>
      && |outcome.vector| == env.dimensions
      && (if outcome.status == Hit then exists k :: IsKey(env, q, k) && Earned(env, k, outcome.vector)
          else outcome.vector == env.embedding(q))
  }

  ghost predicate AllEarned(env: Env, c: Entries) {
    forall i | 0 <= i < |c| :: Earned(env, c[i].key, c[i].vector)
  }

  ghost predicate Inv(env: Env, s: State) {
    && s.contents == Run(env.capacity, s.log)
    && AllEarned(env, s.contents)
    && forall p | p in s.procs :: ProcOk(env, s.procs[p])
  }

  lemma HeldIsEarned(env: Env, c: Entries, k: string)
    requires AllEarned(env, c) && Has(c, k)
    ensures Earned(env, k, VectorOf(c, k))
  {
    hide Earned;
    assert c[IndexOf(Keys(c), k)].key == k;
  }

  lemma MoveUpEarned(env: Env, c: Entries, e: Cached)
    requires AllEarned(env, c) && Earned(env, e.key, e.vector)
    ensures AllEarned(env, MoveUpEntry(c, e))
  {
    hide Earned;
  }

  lemma ResolveOk(env: Env, q: Query, o: KeyOutcome)
    requires o.Key? ==> o.key == env.keyOf(q)
    ensures ProcOk(env, AfterResolve(env, q, o))
  {
    hide Trim, Earned;
  }

  lemma LookupOk(env: Env, c: Entries, q: Query, k: string)
    requires AllEarned(env, c) && IsKey(env, q, k)
    ensures ProcOk(env, AfterLookup(c, q, k)) && AllEarned(env, AfterGet(c, k))
  {
    hide IsKey, Earned, MoveUpEntry, VectorOf, Has, AllEarned;
    if Has(c, k) {
      HeldIsEarned(env, c, k);
      MoveUpEarned(env, c, Cached(k, VectorOf(c, k)));
      EarnedLength(env, k, VectorOf(c, k));
    }
  }

  lemma EarnedLength(env: Env, k: string, v: Vector)
    requires Earned(env, k, v)
    ensures |v| == env.dimensions
  {}

  lemma EmbedOk(env: Env, q: Query, plan: KeyPlan, a: EmbedOutcome)
    requires ProcOk(env, Embedding(q, plan))
    requires a.Vectors? && |a.vectors| == 1 ==> a.vectors[0] == env.embedding(q)
    ensures ProcOk(env, AfterEmbed(env, q, plan, a))
  {
    hide IsKey, Earned;
  }

  lemma TruncateEarned(env: Env, n: nat, c: Entries)
    requires AllEarned(env, c)
    ensures AllEarned(env, Truncate(n, c))
  {
    hide Earned;
  }

  lemma PutOk(env: Env, c: Entries, q: Query, k: string, v: Vector)
    requires AllEarned(env, c) && ProcOk(env, Putting(q, k, v))
    ensures AllEarned(env, AfterPut(env.capacity, c, k, v)) && ProcOk(env, Done(q, Success(v, Miss)))
  {
    hide MoveUpEntry;
    assert Earned(env, k, v);
    hide IsKey, Earned, AllEarned;
    MoveUpEarned(env, c, Cached(k, v));
    TruncateEarned(env, env.capacity, MoveUpEntry(c, Cached(k, v)));
  }

  ghost predicate CacheOk(env: Env, contents: Entries, log: seq<Op>) {
    contents == Run(env.capacity, log) && AllEarned(env, contents)
  }

  lemma InvWith(env: Env, s: State, t: State, p: Pid, pr: Proc)
    requires Inv(env, s) && ProcOk(env, pr) && CacheOk(env, t.contents, t.log) && t.procs == s.procs[p := pr]
    ensures Inv(env, t)
  {
    hide ProcOk, AllEarned, Run;
  }

  lemma GetKeeps(env: Env, s: State, p: Pid)
    requires Inv(env, s) && Enabled(env, s, p, DoGet)
    ensures Inv(env, Step(env, s, p, DoGet))
  {
    var pr := s.procs[p];
    assert ProcOk(env, pr);
    LookupOk(env, s.contents, pr.query, pr.key);
    RunSnoc(env.capacity, s.log, Get(pr.key));
    hide AfterGet, AfterLookup, AllEarned, ProcOk, Inv, Run;
    InvWith(env, s, Step(env, s, p, DoGet), p, AfterLookup(s.contents, pr.query, pr.key));
  }

  lemma PutKeeps(env: Env, s: State, p: Pid)
    requires Inv(env, s) && Enabled(env, s, p, DoPut)
    ensures Inv(env, Step(env, s, p, DoPut))
  {
    hide AfterPut, AllEarned, Run, Earned, IsKey;
    var pr := s.procs[p];
    assert ProcOk(env, pr);
    PutOk(env, s.contents, pr.query, pr.key, pr.vector);
    RunSnoc(env.capacity, s.log, Put(pr.key, pr.vector));
    hide ProcOk, Inv;
    InvWith(env, s, Step(env, s, p, DoPut), p, Done(pr.query, Success(pr.vector, Miss)));
  }

  lemma StepKeepsInv(env: Env, s: State, p: Pid, m: Move)
    requires Inv(env, s) && Enabled(env, s, p, m)
    ensures Inv(env, Step(env, s, p, m))
  {
    var t := Step(env, s, p, m);
    if p in s.procs { assert ProcOk(env, s.procs[p]); }
    hide IsKey, Earned, AllEarned, Run, AfterGet, AfterPut, AfterResolve, AfterLookup, AfterEmbed, Inv, CheckEmbedding;
    match m {
      case Ask(q) => InvCache(env, s); InvWith(env, s, t, p, Resolving(q));
      case Resolve(o) =>
        InvCache(env, s);
        ResolveOk(env, s.procs[p].query, o);
        InvWith(env, s, t, p, AfterResolve(env, s.procs[p].query, o));
      case DoGet => GetKeeps(env, s, p);
      case DoEmbed(a) =>
        InvCache(env, s);
        EmbedOk(env, s.procs[p].query, s.procs[p].plan, a);
        InvWith(env, s, t, p, AfterEmbed(env, s.procs[p].query, s.procs[p].plan, a));
      case DoPut => PutKeeps(env, s, p);
    }
  }

  lemma InvCache(env: Env, s: State)
    requires Inv(env, s)
    ensures CacheOk(env, s.contents, s.log)
  {
    hide ProcOk, AllEarned, Run;
  }

  lemma StartInv(env: Env)
    ensures Inv(env, START)
  {}

  lemma ReachableInv(env: Env, s: State)
    requires Reachable(env, s)
    ensures Inv(env, s)
  {
    hide Inv, Step, Enabled;
    StartInv(env);
    forall a, b | Inv(env, a) && CanStep(env, a, b)
      ensures Inv(env, b)
    {
      var p, m :| Enabled(env, a, p, m) && b == Step(env, a, p, m);
      StepKeepsInv(env, a, p, m);
    }
    Induct(Next(env), START, s, a => Inv(env, a));
  }

  // ---- Theorems ----

  // However searches interleave, the cache holds the most recently touched keys, each with the
  // vector last put for it, and never a vector of the wrong dimension or one that no query with
  // that key embeds to.
  lemma CacheInEveryState(env: Env, s: State)
    requires Reachable(env, s) && env.capacity > 0
    ensures Keys(s.contents) == Truncate(env.capacity, Recent(Touches(env.capacity, s.log)))
    ensures OrderedByLastTouch(Touches(env.capacity, s.log), Recent(Touches(env.capacity, s.log)))
    ensures AllLastStored(Touches(env.capacity, s.log), s.contents)
    ensures AllEarned(env, s.contents)
  {
    ReachableInv(env, s);
    RunHoldsRecent(env.capacity, s.log);
    RecentOrder(Touches(env.capacity, s.log));
  }

  // ---- What the key decides ----

  predicate HasKey(env: Env, o: KeyOutcome) {
    env.capacity > 0 && env.keyed && o.Key? && !Blank(o.key)
  }

  // What a search may come to, given what the embedder said when asked for a key: it is turned away
  // exactly without a keyer, without an answer, or with a blank key; it leaves the cache out exactly
  // when there is none or the embedder declined; otherwise it is a hit or a miss.
  predicate FitsKey(env: Env, o: KeyOutcome, outcome: Outcome) {
    if env.capacity == 0 then WithoutCache(outcome, Disabled)
    else if !env.keyed then outcome == Failure(KeyerMissing)
    else match o
      case KeyFailed => outcome == Failure(KeyError)
      case NoKey => WithoutCache(outcome, Bypassed)
      case Key(k) =>
        if Blank(k) then outcome == Failure(EmptyKey)
        else WithoutCache(outcome, Miss) || (outcome.Success? && outcome.status == Hit)
  }

  predicate WithoutCache(outcome: Outcome, status: Status) {
    match outcome
    case Success(_, s) => s == status
    case Failure(e) => e.EmbedError? || e.WrongVectorCount? || e.WrongDimension?
  }

  predicate SkipsFor(env: Env, o: KeyOutcome, plan: KeyPlan) {
    plan.SkipCache? && if env.capacity == 0 then plan.status == Disabled else env.keyed && o.NoKey? && plan.status == Bypassed
  }

  // Where a search may be once its key is resolved.
  predicate FollowsKey(env: Env, o: KeyOutcome, pr: Proc) {
    match pr
    case Resolving(_) => false
    case Getting(_, k) => HasKey(env, o) && k == o.key
    case Embedding(_, plan) => SkipsFor(env, o, plan) || (plan.UseKey? && HasKey(env, o) && plan.key == o.key)
    case Putting(_, k, _) => HasKey(env, o) && k == o.key
    case Done(_, outcome) => FitsKey(env, o, outcome)
  }

  // Call p made this move between these two states.
  ghost predicate Moves(env: Env, s: State, t: State, p: Pid, m: Move) {
    Enabled(env, s, p, m) && t == Step(env, s, p, m)
  }

  ghost predicate IsResolve(env: Env, run: seq<State>, p: Pid, o: KeyOutcome, i: nat) {
    i + 1 < |run| && Moves(env, run[i], run[i + 1], p, Resolve(o))
  }

  // In this run search p asked for a key and was told o.
  ghost predicate WasTold(env: Env, run: seq<State>, p: Pid, o: KeyOutcome) {
    exists i: nat :: IsResolve(env, run, p, o, i)
  }

  lemma ResolveFollows(env: Env, s: State, p: Pid, o: KeyOutcome)
    requires Enabled(env, s, p, Resolve(o))
    ensures FollowsKey(env, o, AfterResolve(env, s.procs[p].query, o))
    ensures Step(env, s, p, Resolve(o)).contents == s.contents && Step(env, s, p, Resolve(o)).log == s.log
  {
    if o.Key? { TrimBlank(o.key); }
    hide Trim, Blank;
  }

  predicate SearchFollows(env: Env, o: KeyOutcome, s: State, p: Pid) {
    p in s.procs && FollowsKey(env, o, s.procs[p])
  }

  lemma StepFollows(env: Env, o: KeyOutcome, s: State, q: Pid, m: Move, p: Pid)
    requires Enabled(env, s, q, m) && SearchFollows(env, o, s, p)
    ensures SearchFollows(env, o, Step(env, s, q, m), p)
  {
    hide Blank, AfterGet, AfterPut, Has, VectorOf;
  }

  // Every search that is over in a reachable state came to what its key decided: in every run, it was
  // told one outcome, and whatever it was told, it fits.
  lemma SearchFollowsKey(env: Env, run: seq<State>, p: Pid)
    requires IsRun(Next(env), run) && run[0] == START
    requires p in run[|run| - 1].procs && run[|run| - 1].procs[p].Done?
    ensures exists o :: WasTold(env, run, p, o)
    ensures forall o | WasTold(env, run, p, o) :: FitsKey(env, o, run[|run| - 1].procs[p].outcome)
  {
    hide Enabled, Step, FitsKey;
    forall o | WasTold(env, run, p, o)
      ensures FitsKey(env, o, run[|run| - 1].procs[p].outcome)
    {
      var i: nat :| IsResolve(env, run, p, o, i);
      ToldThenFollows(env, run, p, o, i);
    }
    var _ := ToldBefore(env, run, p);
  }

  lemma ToldThenFollows(env: Env, run: seq<State>, p: Pid, o: KeyOutcome, i: nat)
    requires IsRun(Next(env), run) && IsResolve(env, run, p, o, i)
    ensures SearchFollows(env, o, run[|run| - 1], p)
  {
    ResolveStep(env, run[i], run[i + 1], p, o);
    hide Enabled, Step, FollowsKey, SearchFollows;
    forall a, b | SearchFollows(env, o, a, p) && CanStep(env, a, b)
      ensures SearchFollows(env, o, b, p)
    {
      var q, m :| Enabled(env, a, q, m) && b == Step(env, a, q, m);
      StepFollows(env, o, a, q, m, p);
    }
    InductAlong(Next(env), run, s => SearchFollows(env, o, s, p), i + 1, |run| - 1);
  }

  lemma ResolveStep(env: Env, s: State, t: State, p: Pid, o: KeyOutcome)
    requires Moves(env, s, t, p, Resolve(o))
    ensures SearchFollows(env, o, t, p)
  {
    hide FollowsKey, AfterResolve;
    ResolveFollows(env, s, p, o);
  }

  predicate PastKey(s: State, p: Pid) {
    p in s.procs && !s.procs[p].Resolving?
  }

  lemma ToldBefore(env: Env, run: seq<State>, p: Pid) returns (o: KeyOutcome)
    requires IsRun(Next(env), run) && run[0] == START && PastKey(run[|run| - 1], p)
    ensures WasTold(env, run, p, o)
  {
    hide Enabled, Step;
    var i := CameToHold(Next(env), run, s => PastKey(s, p), |run| - 1);
    var q, m :| Enabled(env, run[i], q, m) && run[i + 1] == Step(env, run[i], q, m);
    OnlyResolvePasses(env, run[i], q, m, p);
    o := m.outcome;
    assert IsResolve(env, run, p, o, i);
  }

  lemma OnlyResolvePasses(env: Env, s: State, q: Pid, m: Move, p: Pid)
    requires Enabled(env, s, q, m) && !PastKey(s, p) && PastKey(Step(env, s, q, m), p)
    ensures q == p && m.Resolve?
  {
    hide AfterGet, AfterPut, AfterResolve, AfterLookup, AfterEmbed;
  }

  // Queries with one key have one embedding.
  ghost predicate KeysFaithful(env: Env) {
    forall q, r, k | IsKey(env, q, k) && IsKey(env, r, k) && |env.embedding(q)| == env.dimensions ::
      env.embedding(r) == env.embedding(q)
  }

  // Every search that succeeds returns what embedding its query directly would return.
  ghost predicate Transparent(env: Env, s: State) {
    forall p | p in s.procs && s.procs[p].Done? && s.procs[p].outcome.Success? ::
      CheckEmbedding(Vectors([env.embedding(s.procs[p].query)]), env.dimensions) == Good(s.procs[p].outcome.vector)
  }

  ghost predicate AlwaysTransparent(env: Env) {
    forall s | Reachable(env, s) :: Transparent(env, s)
  }

  lemma FaithfulIsTransparent(env: Env, s: State)
    requires KeysFaithful(env) && Reachable(env, s)
    ensures Transparent(env, s)
  {
    hide Reachable, IsKey;
    ReachableInv(env, s);
    forall p | p in s.procs && s.procs[p].Done? && s.procs[p].outcome.Success?
      ensures s.procs[p].outcome.vector == env.embedding(s.procs[p].query) && |s.procs[p].outcome.vector| == env.dimensions
    {
      assert ProcOk(env, s.procs[p]);
    }
  }

  lemma ReachStep(env: Env, s: State, p: Pid, m: Move)
    requires Reachable(env, s) && Enabled(env, s, p, m)
    ensures Reachable(env, Step(env, s, p, m))
  {
    hide Step, Enabled;
    var t := Step(env, s, p, m);
    assert CanStep(env, s, t);
    ReachesNext(Next(env), START, s, t);
  }

  lemma StartReachable(env: Env)
    ensures Reachable(env, START)
  {
    ReachesStart(Next(env), START);
  }

  // A first search stores its vector.
  lemma StoreOne(env: Env, q: Query, k: string) returns (s: State)
    requires IsKey(env, q, k) && |env.embedding(q)| == env.dimensions
    ensures Reachable(env, s) && s.contents == [Cached(k, env.embedding(q))] && 1 !in s.procs
  {
    hide Reachable, Trim;
    StartReachable(env);
    var v := env.embedding(q);
    ReachStep(env, START, 0, Ask(q));
    var s1 := Step(env, START, 0, Ask(q));
    ReachStep(env, s1, 0, Resolve(Key(k)));
    var s2 := Step(env, s1, 0, Resolve(Key(k)));
    assert s2.procs[0] == Getting(q, k) && Keys([]) == [];
    ReachStep(env, s2, 0, DoGet);
    var s3 := Step(env, s2, 0, DoGet);
    ReachStep(env, s3, 0, DoEmbed(Vectors([v])));
    var s4 := Step(env, s3, 0, DoEmbed(Vectors([v])));
    ReachStep(env, s4, 0, DoPut);
    s := Step(env, s4, 0, DoPut);
  }

  // A second search with the same key is answered from it.
  lemma HitOne(env: Env, s: State, r: Query, k: string, v: Vector) returns (t: State)
    requires Reachable(env, s) && s.contents == [Cached(k, v)] && 1 !in s.procs && IsKey(env, r, k)
    ensures Reachable(env, t) && 1 in t.procs && t.procs[1] == Done(r, Success(v, Hit))
  {
    hide Reachable, Trim;
    ReachStep(env, s, 1, Ask(r));
    var s1 := Step(env, s, 1, Ask(r));
    ReachStep(env, s1, 1, Resolve(Key(k)));
    var s2 := Step(env, s1, 1, Resolve(Key(k)));
    assert Keys(s2.contents) == [k];
    ReachStep(env, s2, 1, DoGet);
    t := Step(env, s2, 1, DoGet);
  }

  // The cache is invisible exactly when equal keys imply equal embeddings.
  lemma TransparentExactly(env: Env)
    ensures AlwaysTransparent(env) <==> KeysFaithful(env)
  {
    hide Reachable, IsKey, Transparent;
    if KeysFaithful(env) {
      forall s | Reachable(env, s)
        ensures Transparent(env, s)
      {
        FaithfulIsTransparent(env, s);
      }
    } else {
      var q, r, k :| IsKey(env, q, k) && IsKey(env, r, k) && |env.embedding(q)| == env.dimensions && env.embedding(r) != env.embedding(q);
      var s := StoreOne(env, q, k);
      var t := HitOne(env, s, r, k, env.embedding(q));
      WrongAnswer(env, t, r, env.embedding(q));
    }
  }

  lemma WrongAnswer(env: Env, t: State, r: Query, v: Vector)
    requires 1 in t.procs && t.procs[1] == Done(r, Success(v, Hit)) && v != env.embedding(r)
    ensures !Transparent(env, t)
  {}
}
