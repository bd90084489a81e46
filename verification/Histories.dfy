/** Finite histories of a state machine: a first state, then each event with the
    state it led to. */
module Histories {

  datatype History<S, E> = Begin(state: S) | Then(past: History<S, E>, event: E, state: S)

  function Start<S, E>(h: History<S, E>): S {
    match h
    case Begin(s) => s
    case Then(g, _, _) => Start(g)
  }

  /** No event of the history satisfies bad. */
  predicate Avoids<S, E>(h: History<S, E>, bad: E -> bool) {
    match h
    case Begin(_) => true
    case Then(g, e, _) => Avoids(g, bad) && !bad(e)
  }
}
