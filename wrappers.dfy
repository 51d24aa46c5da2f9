/** Optional values, standing for the source's `null` and `undefined`, and
    results, standing for a call that may throw. */
module Wrappers {

  datatype Option<+T> = None | Some(value: T)

  datatype Result<+T, +E> = Success(value: T) | Failure(error: E)

}
