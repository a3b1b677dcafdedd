/** Failure-compatible result types used by the model of the JPA plugin. */
module Wrappers {

  /** A value that may be absent: stands for a Java reference that may be null. */
  datatype Option<+T> = None | Some(value: T)

  /** A computation that either returns normally (Pass) or throws `error` (Fail). */
  datatype Outcome<+E> = Pass | Fail(error: E)

  /** A computation that either returns `value` or throws `error`. */
  datatype Result<+R, +E> = Success(value: R) | Failure(error: E)
}
