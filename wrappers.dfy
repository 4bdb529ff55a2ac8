/** Option and Result: the absent value (`null`, `undefined`) and the
    outcome of an awaited call that either resolves or rejects. */
module Wrappers {

  datatype Option<+T> = None | Some(value: T)

  datatype Result<+R, +E> = Success(value: R) | Failure(error: E)
}
