/** Finite runs of a transition system, and the induction every safety proof in
    this project goes through. */
module Runs {

  datatype Option<+T> = None | Some(value: T)

  /** `run` starts anywhere and takes one `step` between neighbours. */
  ghost predicate IsRun<S(!new)>(step: (S, S) -> bool, run: seq<S>) {
    && 0 < |run|
    && forall i :: 1 <= i < |run| ==> step(run[i - 1], run[i])
  }

  ghost predicate Reaches<S(!new)>(step: (S, S) -> bool, from: S, to: S) {
    exists run: seq<S> :: IsRun(step, run) && run[0] == from && run[|run| - 1] == to
  }

  ghost predicate Inductive<S(!new)>(step: (S, S) -> bool, inv: S -> bool) {
    forall s, t :: inv(s) && step(s, t) ==> inv(t)
  }

  /** An inductive property that holds at index `i` holds from there on. */
  lemma {:induction false} HoldsFrom<S(!new)>(step: (S, S) -> bool, inv: S -> bool, run: seq<S>, i: nat, j: nat)
    requires IsRun(step, run) && Inductive(step, inv)
    requires i <= j < |run| && inv(run[i])
    ensures inv(run[j])
  {
    if i < j {
      HoldsFrom(step, inv, run, i, j - 1);
      assert step(run[j - 1], run[j]);
    }
  }

  lemma ReachesHolds<S(!new)>(step: (S, S) -> bool, inv: S -> bool, from: S, to: S)
    requires Inductive(step, inv) && inv(from) && Reaches(step, from, to)
    ensures inv(to)
  {
    var run: seq<S> :| IsRun(step, run) && run[0] == from && run[|run| - 1] == to;
    HoldsFrom(step, inv, run, 0, |run| - 1);
  }

  lemma ReachesSelf<S(!new)>(step: (S, S) -> bool, s: S)
    ensures Reaches(step, s, s)
  {
    assert IsRun(step, [s]) && [s][0] == s;
  }

  lemma ReachesMore<S(!new)>(step: (S, S) -> bool, a: S, b: S, c: S)
    requires Reaches(step, a, b) && step(b, c)
    ensures Reaches(step, a, c)
  {
    var run: seq<S> :| IsRun(step, run) && run[0] == a && run[|run| - 1] == b;
    var more := run + [c];
    assert IsRun(step, more) && more[0] == a && more[|more| - 1] == c;
  }

  lemma ReachesTransitive<S(!new)>(step: (S, S) -> bool, a: S, b: S, c: S)
    requires Reaches(step, a, b) && Reaches(step, b, c)
    ensures Reaches(step, a, c)
  {
    var run: seq<S> :| IsRun(step, run) && run[0] == b && run[|run| - 1] == c;
    for i := 1 to |run|
      invariant Reaches(step, a, run[i - 1])
    {
      ReachesMore(step, a, run[i - 1], run[i]);
    }
  }

  lemma HasMember(s: set<int>)
    requires s != {}
    ensures exists x: int :: x in s
  {
    assert (forall x: int :: x !in s) ==> s == {};
  }
}
