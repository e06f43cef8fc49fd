/** Runs of a transition system that is given as a partial function from state and step to state. */
module Traces {
  import opened Wrappers

  ghost predicate Runs<S, A(!new)>(next: (S, A) -> Option<S>, s: S, steps: seq<A>, s': S)
    decreases |steps|
  {
    if steps == [] then s' == s
    else next(s, steps[0]).Some? && Runs(next, next(s, steps[0]).value, steps[1..], s')
  }

  /** s' comes after s in some run. */
  ghost predicate Later<S, A(!new)>(next: (S, A) -> Option<S>, s: S, s': S) {
    exists steps: seq<A> :: Runs(next, s, steps, s')
  }

  lemma {:induction false} RunsOn<S, A(!new)>(next: (S, A) -> Option<S>, s: S, a: seq<A>, mid: S, b: seq<A>, s': S)
    requires Runs(next, s, a, mid) && Runs(next, mid, b, s')
    ensures Runs(next, s, a + b, s')
    decreases |a|
  {
    if a == [] {
      assert a + b == b;
    } else {
      RunsOn(next, next(s, a[0]).value, a[1..], mid, b, s');
      assert (a + b)[0] == a[0] && (a + b)[1..] == a[1..] + b;
    }
  }

  lemma LaterSame<S, A(!new)>(next: (S, A) -> Option<S>, s: S)
    ensures Later(next, s, s)
  {
    var none: seq<A> := [];
    assert Runs(next, s, none, s);
  }

  lemma LaterOn<S, A(!new)>(next: (S, A) -> Option<S>, s: S, mid: S, s': S)
    requires Later(next, s, mid) && Later(next, mid, s')
    ensures Later(next, s, s')
  {
    var a: seq<A> :| Runs(next, s, a, mid);
    var b: seq<A> :| Runs(next, mid, b, s');
    RunsOn(next, s, a, mid, b, s');
  }

  lemma LaterStep<S, A(!new)>(next: (S, A) -> Option<S>, s: S, mid: S, step: A, s': S)
    requires Later(next, s, mid) && next(mid, step) == Some(s')
    ensures Later(next, s, s')
  {
    var none: seq<A> := [];
    assert [step][1..] == none;
    assert Runs(next, s', none, s');
    assert Runs(next, mid, [step], s');
    LaterOn(next, s, mid, s');
  }

  /** p holds in every state of the run, the first and the last one included. */
  ghost predicate Always<S, A>(next: (S, A) -> Option<S>, p: S -> bool, s: S, steps: seq<A>)
    decreases |steps|
  {
    && p(s)
    && (steps != [] ==> next(s, steps[0]).Some? && Always(next, p, next(s, steps[0]).value, steps[1..]))
  }

  /** q holds of every step of the run and the state that it is taken in. */
  ghost predicate EachStep<S, A>(next: (S, A) -> Option<S>, q: (S, A) -> bool, s: S, steps: seq<A>)
    decreases |steps|
  {
    steps != [] ==>
      q(s, steps[0]) && next(s, steps[0]).Some? && EachStep(next, q, next(s, steps[0]).value, steps[1..])
  }
}
