/** Option and Outcome values standing in for Python's `None` and for the
    RuntimeError a Timer raises on misuse. */
module Wrappers {

  datatype Option<+T> = None | Some(value: T)

  /** The result of an operation that either completes or fails with an error. */
  datatype Outcome<+E> = Pass | Fail(error: E)
}
