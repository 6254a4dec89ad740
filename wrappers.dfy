/** Optional values and results with an error, used wherever JavaScript
    would hand back `null` or reject a promise. */
module Wrappers {

  datatype Option<+T> = None | Some(value: T)

  datatype Result<+R, +E> = Success(value: R) | Failure(error: E)
}
