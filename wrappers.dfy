/** Optional values and error-carrying results shared by the other modules. */
module Wrappers {

  /** A JavaScript value that may be `undefined`. */
  datatype Option<+T> = None | Some(value: T)

  /** The `(error, value)` pair handed to a Node-style callback. */
  datatype Result<+T, +E> = Success(value: T) | Failure(error: E)

  /** A callback that receives only an error, or nothing on success. */
  datatype Outcome<+E> = Pass | Fail(error: E)
}
