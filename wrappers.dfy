/** Optional values and results with an error, for the source's `Option` and
    for its `expect` calls, whose panics the model returns as failures. */
module Wrappers {

  datatype Option<+T> = None | Some(value: T)

  datatype Result<+R, +E> = Success(value: R) | Failure(error: E)
}
