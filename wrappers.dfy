/** Optional values and failure-carrying results shared by the model. */
module Wrappers {

  /** A value that may be absent; `None` stands for JavaScript's `null` / a missing property. */
  datatype Option<+T> = None | Some(value: T)

  /** A value or the error that replaced it (a thrown `Error` in the source). */
  datatype Result<+T, +E> = Success(value: T) | Failure(error: E)

  /** Success without a value, or the error a promise rejected with. */
  datatype Outcome<+E> = Pass | Fail(error: E)
}
