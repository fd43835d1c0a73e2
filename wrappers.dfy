/** Optional values and success-or-failure results, used for the source's
    `Optional` returns and for the failure that aborts a call. */
module Wrappers {

  datatype Option<+T> = None | Some(value: T)

  datatype Result<+R, +E> = Success(value: R) | Failure(error: E)
}
