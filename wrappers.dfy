/** Failure-compatible result types shared by the billing modules. */
module Wrappers {

  /** A value that may be absent: Python's `None` versus a value. */
  datatype Option<+T> = None | Some(value: T)

  /** Outcome of a call that either returns normally or raises an error. */
  datatype Outcome<+E> = Pass | Fail(error: E)

  /** Outcome of a call that either returns a value or ends the process (`sys.exit`
      or an uncaught exception). */
  datatype Fetched<+T> = Got(value: T) | Aborted
}
