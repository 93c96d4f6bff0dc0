/** Option and Outcome: the Dafny stand-ins for Go's nil-able pointers and
    for functions whose only result is an `error` that may be nil. */
module Wrappers {

  /** A Go pointer field that may be nil (`*int`, `*Outpaint`). */
  datatype Option<+T> = None | Some(value: T)

  /** The result of a Go function returning only `error`:
      `Pass` is a nil error, `Fail(e)` a non-nil one. */
  datatype Outcome<+E> = Pass | Fail(error: E)
}
