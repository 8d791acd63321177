/** Runs of a step machine, and the two induction rules that every machine here uses. */
module Runs {

  ghost predicate IsRun<S(!new), E(!new)>(
      init: S -> bool, step: (S, E, S) -> bool, states: seq<S>, events: seq<E>)
  {
    |states| == |events| + 1 && init(states[0])
    && forall i :: 0 <= i < |events| ==> step(states[i], events[i], states[i + 1])
  }

  /** A property of the first state that every step keeps holds all along a run. */
  lemma {:induction false} HoldsThroughout<S(!new), E(!new)>(
      init: S -> bool, step: (S, E, S) -> bool, inv: S -> bool, states: seq<S>, events: seq<E>, i: nat)
    requires IsRun(init, step, states, events) && i < |states|
    requires forall s :: init(s) ==> inv(s)
    requires forall s, e, t :: inv(s) && step(s, e, t) ==> inv(t)
    ensures inv(states[i])
  {
    if i > 0 {
      HoldsThroughout(init, step, inv, states, events, i - 1);
      var j := i - 1;
      assert step(states[j], events[j], states[j + 1]);
    }
  }

  /** A property that holds at `from` and that the events of a stretch keep holds at its end. */
  lemma {:induction false} HoldsFrom<S(!new), E(!new)>(
      init: S -> bool, step: (S, E, S) -> bool, inv: S -> bool, allowed: E -> bool, keep: S -> bool,
      states: seq<S>, events: seq<E>, from: nat, to: nat)
    requires IsRun(init, step, states, events) && from <= to <= |events|
    requires forall s :: init(s) ==> inv(s)
    requires forall s, e, t :: inv(s) && step(s, e, t) ==> inv(t)
    requires forall s, e, t :: inv(s) && keep(s) && allowed(e) && step(s, e, t) ==> keep(t)
    requires forall i :: from <= i < to ==> allowed(events[i])
    requires keep(states[from])
    ensures keep(states[to])
  {
    if from < to {
      var j := to - 1;
      HoldsFrom(init, step, inv, allowed, keep, states, events, from, j);
      HoldsThroughout(init, step, inv, states, events, j);
      assert step(states[j], events[j], states[j + 1]);
    }
  }

  /** A run may be continued by any step. */
  lemma Extend<S(!new), E(!new)>(
      init: S -> bool, step: (S, E, S) -> bool, states: seq<S>, events: seq<E>, e: E, next: S)
    requires IsRun(init, step, states, events) && step(states[|events|], e, next)
    ensures IsRun(init, step, states + [next], events + [e]) && (states + [next])[|events| + 1] == next
  {
  }
}
