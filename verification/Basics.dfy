/** Small vocabulary shared by every module of the model. */
module Basics {

  datatype Option<+T> = None | Some(value: T)

  /** The GPU state an LLM adapter can restore later: an engine and one of its models. */
  datatype Point = Point(engine: nat, model: nat)

  /** Strictly increasing sequences of work references. */
  predicate Ordered(q: seq<nat>) {
    forall i, j :: 0 <= i < j < |q| ==> q[i] < q[j]
  }

  /** The contract of an LLM adapter, stated on the one fact the coordinator relies on:
      whether the adapter's engine may still hold GPU memory. */
  predicate ReleaseConfirms(returned: bool, mayHold: bool) {
    returned ==> !mayHold
  }

  predicate AbsenceConfirms(observedNothing: bool, mayHold: bool) {
    observedNothing ==> !mayHold
  }
}
