/** Small failure-carrying datatypes shared by the other modules. */
module Wrappers {

  /** A value that may be absent. */
  datatype Option<+T> = None | Some(value: T)

  /** The result of an operation that either completes or stops with an error. */
  datatype Outcome<+E> = Pass | Fail(error: E)
}
