/** Small value wrappers shared by every store: optional values, the outcome of
    an awaited service call, and the way a store action's promise settles. */
module Wrappers {

  /** A nullable or optional field (`T | null`, `field?: T`). */
  datatype Option<+T> = None | Some(value: T) {

    /** The wrapped value, or `default` when absent (the `x || 0` idiom for amounts). */
    function GetOr(default: T): T {
      match this
      case Some(v) => v
      case None => default
    }
  }

  /** What an awaited service call produced: the decoded response, or a
      rejection whose detail the stores only log and then discard. */
  datatype Outcome<+T> = Ok(value: T) | Err

  /** How a store action's promise settles for its caller: it resolves with a
      value, or it re-throws the service's rejection. */
  datatype Reply<+T> = Returned(value: T) | Rethrown

  /** The store state after an action together with the action's reply. */
  datatype Step<S, +T> = Step(state: S, reply: Reply<T>)
}
