/** Optional values and success/failure results, used wherever the JavaScript
    code has `null`/`undefined` or a thrown exception. */
module Wrappers {

  datatype Option<+T> = None | Some(value: T)

  datatype Result<+T, +E> = Success(value: T) | Failure(error: E)
}
