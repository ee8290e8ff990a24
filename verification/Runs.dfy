/** Runs of the transition systems. */
module Runs {
  /** The state a run has reached. */
  function Last<S>(states: seq<S>): S
    requires states != []
  {
    states[|states| - 1]
  }
}
