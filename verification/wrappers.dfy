/** Failure-compatible wrappers used throughout the model: Python's `Optional[...]`
    becomes Option, and a call that may raise becomes a Result. */
module Wrappers {

  datatype Option<+T> = None | Some(value: T)

  datatype Result<+T, +E> = Success(value: T) | Failure(error: E)
}
