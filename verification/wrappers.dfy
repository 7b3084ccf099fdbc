/** Optional values and results with an error, used where the JavaScript code has
    `undefined` values or throws. */
module Wrappers {

  datatype Option<+T> = None | Some(value: T)

  datatype Result<+T, +E> = Success(value: T) | Failure(error: E)
}
