/** Shared value types: optional values and the outcome of a call that may raise. */
module Prelude {

  datatype Option<+T> = None | Some(value: T)

  /** What an external call gives back: a value, or one of the exceptions that the
      callers name in their except clauses. */
  datatype Answer<+T> = Got(value: T) | Raised
}
