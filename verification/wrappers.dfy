/** Failure-carrying wrappers used across the model: Go's "value, ok" and
    "value, err" return pairs become Option and Result. */
module Wrappers {

  datatype Option<+T> = None | Some(value: T)

  datatype Result<+R, +E> = Success(value: R) | Failure(error: E)
}
