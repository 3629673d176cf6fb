/** Sequences of states, each reached from the one before by a step. */
module Traces {

  ghost function Last<S>(states: seq<S>): S
    requires |states| > 0
  {
    states[|states| - 1]
  }

  ghost predicate Linked<S(!new), A(!new)>(states: seq<S>, steps: seq<A>, link: (S, A, S) -> bool) {
    |states| == |steps| + 1 && forall i :: 0 <= i < |steps| ==> link(states[i], steps[i], states[i + 1])
  }

  /** One more step. */
  lemma LinkedOn<S(!new), A(!new)>(states: seq<S>, steps: seq<A>, link: (S, A, S) -> bool, step: A, next: S)
    requires Linked(states, steps, link) && link(Last(states), step, next)
    ensures Linked(states + [next], steps + [step], link) && Last(states + [next]) == next
  {
    var longer, more := states + [next], steps + [step];
    forall i | 0 <= i < |more|
      ensures link(longer[i], more[i], longer[i + 1])
    {
      if i < |steps| {
        assert longer[i] == states[i] && longer[i + 1] == states[i + 1] && more[i] == steps[i];
      }
    }
  }
}
