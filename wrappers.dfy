/** Presence/absence and success/failure values used throughout the model.
    `Option` stands for a Go pointer or interface that may be nil; `Result`
    for a Go `(value, error)` pair in which exactly one side is meaningful. */
module Wrappers {

  datatype Option<+T> = None | Some(value: T)

  datatype Result<+R, +E> = Success(value: R) | Failure(error: E)
}
