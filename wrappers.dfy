/** Failure-compatible wrappers for the `Option` and `Result` values the plugin handles. */
module Wrappers {

  datatype Option<+T> = None | Some(value: T)

  datatype Result<+T, +E> = Success(value: T) | Failure(error: E)
}
