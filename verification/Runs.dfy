/** Runs of a step function: every concurrent protocol of the project is a total function
    from a state and an action to the next state, None when the action is not enabled.
    An action names a whole section executed under a mutex, or one channel rendezvous,
    together with every choice the scheduler or the environment makes in it. */
module Runs {

  datatype Option<+T> = None | Some(value: T)

  /** The state after `actions`, in this order; None as soon as one of them is not enabled. */
  function Run<S, A>(step: (S, A) -> Option<S>, s: S, actions: seq<A>): Option<S> {
    if actions == [] then Some(s)
    else
      match Run(step, s, actions[..|actions| - 1])
      case None => None
      case Some(t) => step(t, actions[|actions| - 1])
  }

  /** What every single step keeps, every run keeps. */
  lemma {:induction false} RunKeeps<S(!new), A(!new)>(step: (S, A) -> Option<S>, inv: S -> bool, s: S, actions: seq<A>)
    requires inv(s)
    requires forall t, a :: inv(t) && step(t, a).Some? ==> inv(step(t, a).value)
    ensures Run(step, s, actions).Some? ==> inv(Run(step, s, actions).value)
  {
    if actions != [] {
      RunKeeps(step, inv, s, actions[..|actions| - 1]);
    }
  }

  /** A run of two parts. */
  lemma {:induction false} RunConcat<S, A>(step: (S, A) -> Option<S>, s: S, first: seq<A>, then_: seq<A>)
    ensures Run(step, s, first + then_) ==
      match Run(step, s, first) case None => None case Some(t) => Run(step, t, then_)
  {
    if then_ == [] {
      assert first + then_ == first;
    } else {
      var init := then_[..|then_| - 1];
      assert (first + then_)[..|first + then_| - 1] == first + init;
      RunConcat(step, s, first, init);
    }
  }

  lemma RunOne<S, A>(step: (S, A) -> Option<S>, s: S, a: A)
    ensures Run(step, s, [a]) == step(s, a)
  {
    assert [a][..0] == [];
  }

  lemma RunTwo<S, A>(step: (S, A) -> Option<S>, s: S, a: A, b: A)
    ensures Run(step, s, [a, b]) == match step(s, a) case None => None case Some(t) => step(t, b)
  {
    assert [a, b][..1] == [a] && [a][..0] == [];
    assert Run(step, s, [a]) == step(s, a);
  }
}

module Sequences {

  predicate NoDuplicates<T(==)>(s: seq<T>) {
    forall i, j :: 0 <= i < j < |s| ==> s[i] != s[j]
  }
}
