/** Failure-carrying values shared by the server and client models. */
module Wrappers {

  /** A value that may be absent (JavaScript's null/undefined, Python's IndexError). */
  datatype Option<+T> = None | Some(value: T)

  /** A computation that either yields a value or fails with an error (a thrown exception). */
  datatype Result<+T, +E> = Success(value: T) | Failure(error: E)
}
