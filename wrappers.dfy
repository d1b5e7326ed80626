/** Failure-carrying values used in place of Go's `error` results. */
module Wrappers {

  /** An optional value: `None` stands for "no match found". */
  datatype Option<+T> = None | Some(value: T)

  /** The outcome of a check that returns a Go `error`: `Pass` is `nil`, `Fail` carries the error. */
  datatype Outcome<+E> = Pass | Fail(error: E)
}
