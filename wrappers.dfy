/** Option and Result, used for Python's `None` results, for Python expressions that raise,
    and for outcomes of calls the model does not see. */
module Wrappers {
  datatype Option<+T> = None | Some(value: T)

  datatype Result<+T, +E> = Success(value: T) | Failure(error: E)
}
