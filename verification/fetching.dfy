/** The two shapes of fetch action every store repeats, defined once.

    A guarded fetch sets `loading` and clears `error`, awaits the service,
    replaces the held value on success or records the action's fixed message
    on failure, and clears `loading` in its `finally` block. Only the settled
    result is modelled: the action is atomic given its outcome.

    A quiet fetch has no bookkeeping: it replaces the held value on success
    and only logs a failure. */
module Fetching {
  import opened Wrappers

  /** The held value and the two flags a guarded fetch leaves behind. */
  datatype Settled<T> = Settled(value: T, loading: bool, error: Option<string>)

  function Guarded<T>(held: T, o: Outcome<T>, message: string): Settled<T> {
    match o
    case Ok(v) => Settled(v, false, None)
    case Err => Settled(held, false, Some(message))
  }

  function Quiet<T>(held: T, o: Outcome<T>): T {
    match o
    case Ok(v) => v
    case Err => held
  }

  /** Fetching twice against an unchanged backend settles exactly as fetching once. */
  lemma GuardedIdempotent<T>(held: T, o: Outcome<T>, message: string)
    ensures Guarded(Guarded(held, o, message).value, o, message) == Guarded(held, o, message)
  {
  }

  /** A successful fetch does not depend on what was held before; a failed one
      keeps it. */
  lemma GuardedStaleOnlyOnFailure<T>(held: T, other: T, o: Outcome<T>, message: string)
    ensures o.Ok? ==> Guarded(held, o, message) == Guarded(other, o, message)
    ensures o.Err? ==> Guarded(held, o, message).value == held
  {
  }
}
