/** Runs of a system whose actions are enabled or not: what one action does is a
    function that answers None where it is not enabled. */
module Runs {
  import opened Sequences

  /** The run leads from s to t. */
  ghost predicate Reaches<S, A>(next: (S, A) -> Option<S>, s: S, run: seq<A>, t: S)
    decreases |run|
  {
    if run == [] then s == t
    else next(s, run[0]).Some? && Reaches(next, next(s, run[0]).value, run[1..], t)
  }

  lemma One<S, A>(next: (S, A) -> Option<S>, s: S, a: A, t: S)
    requires next(s, a) == Some(t)
    ensures Reaches(next, s, [a], t)
  {
    assert [a][1..] == [] && Reaches(next, t, [], t);
  }

  lemma First<S, A>(next: (S, A) -> Option<S>, s: S, a: A, m: S, run: seq<A>, t: S)
    requires next(s, a) == Some(m) && Reaches(next, m, run, t)
    ensures Reaches(next, s, [a] + run, t)
  {
    assert ([a] + run)[1..] == run;
  }

  lemma {:induction false} Chain<S, A>(next: (S, A) -> Option<S>, s: S, xs: seq<A>, m: S, ys: seq<A>, t: S)
    requires Reaches(next, s, xs, m) && Reaches(next, m, ys, t)
    ensures Reaches(next, s, xs + ys, t)
    decreases |xs|
  {
    if xs == [] {
      assert xs + ys == ys;
    } else {
      assert (xs + ys)[1..] == xs[1..] + ys;
      Chain(next, next(s, xs[0]).value, xs[1..], m, ys, t);
    }
  }
}
