/** Shared value types. */
module Prelude {

  datatype Option<+T> = None | Some(value: T)

  /** The outcome of a step that may raise: the exception is kept, as Python keeps it. */
  datatype Outcome<+E> = Done | Raised(error: E)
}
