/** Optional values and results with an error, used wherever the server
    sees "maybe absent" data or a call that can fail. */
module Wrappers {

  datatype Option<+T> = None | Some(value: T)

  datatype Result<+R, +E> = Success(value: R) | Failure(error: E)
}
