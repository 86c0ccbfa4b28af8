/** Finite runs of a state machine, the latest event outermost. */
module Traces {

  datatype Trace<+E> = Start | Then(before: Trace<E>, event: E)
}
