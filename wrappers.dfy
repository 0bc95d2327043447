/** Option and Result: the values the model uses for Python's None and for
    operations that either produce a value or fail with a reason. */
module Wrappers {

  datatype Option<+T> = None | Some(value: T)

  datatype Result<+R, +E> = Success(value: R) | Failure(error: E)
}
