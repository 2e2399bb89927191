/** Runs of a step relation: what they reach, and what holds in all they reach. */
module Runs {

  // Consecutive states are a step apart.
  ghost predicate IsRun<S(!new)>(next: (S, S) -> bool, run: seq<S>) {
    run != [] && forall i | 0 <= i < |run| - 1 :: next(run[i], run[i + 1])
  }

  ghost predicate Reaches<S(!new)>(next: (S, S) -> bool, start: S, s: S) {
    exists run :: IsRun(next, run) && run[0] == start && run[|run| - 1] == s
  }

  lemma ReachesStart<S(!new)>(next: (S, S) -> bool, start: S)
    ensures Reaches(next, start, start)
  {
    var run := [start];
    assert IsRun(next, run) && run[0] == start && run[|run| - 1] == start;
  }

  lemma ReachesNext<S(!new)>(next: (S, S) -> bool, start: S, s: S, t: S)
    requires Reaches(next, start, s) && next(s, t)
    ensures Reaches(next, start, t)
  {
    var run :| IsRun(next, run) && run[0] == start && run[|run| - 1] == s;
    var longer := run + [t];
    assert IsRun(next, longer) && longer[0] == start && longer[|longer| - 1] == t;
  }

  // What holds at the start and is kept by every step holds in every state reached.
  lemma Induct<S(!new)>(next: (S, S) -> bool, start: S, s: S, inv: S -> bool)
    requires Reaches(next, start, s) && inv(start)
    requires forall a, b | inv(a) && next(a, b) :: inv(b)
    ensures inv(s)
  {
    var run :| IsRun(next, run) && run[0] == start && run[|run| - 1] == s;
    InductAlong(next, run, inv, 0, |run| - 1);
  }

  lemma {:induction false} InductAlong<S(!new)>(next: (S, S) -> bool, run: seq<S>, inv: S -> bool, i: nat, j: nat)
    requires IsRun(next, run) && i <= j < |run| && inv(run[i])
    requires forall a, b | inv(a) && next(a, b) :: inv(b)
    ensures inv(run[j])
    decreases j
  {
    if i < j {
      InductAlong(next, run, inv, i, j - 1);
      assert next(run[j - 1], run[j - 1 + 1]);
    }
  }

  // What does not hold at the start and holds at the end came to hold at some step.
  lemma {:induction false} CameToHold<S(!new)>(next: (S, S) -> bool, run: seq<S>, prop: S -> bool, n: nat) returns (i: nat)
    requires IsRun(next, run) && n < |run| && !prop(run[0]) && prop(run[n])
    ensures i < n && !prop(run[i]) && prop(run[i + 1]) && next(run[i], run[i + 1])
  {
    if prop(run[n - 1]) {
      i := CameToHold(next, run, prop, n - 1);
    } else {
      i := n - 1;
      assert next(run[i], run[i + 1]);
    }
  }
}
