/** Option and Result, used for Go's (value, error) pairs and for "absent". */
module Wrappers {

  datatype Option<+T> = None | Some(value: T)

  datatype Result<+R, +E> = Success(value: R) | Failure(error: E)
}
