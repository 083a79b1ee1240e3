/** The wrappers used across the model: an optional value and a value-or-error
    result, the latter standing for a Swift function that `throws`. */
module Wrappers {

  datatype Option<+T> = None | Some(value: T)

  datatype Result<+T, +E> = Success(value: T) | Failure(error: E)
}
