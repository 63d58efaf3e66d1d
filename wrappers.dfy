/** Optional values and results with an error, for the places where the
    pipeline's collaborators can fail or a configuration value is refused. */
module Wrappers {

  datatype Option<+T> = None | Some(value: T)

  datatype Result<+R, +E> = Success(value: R) | Failure(error: E)
}
