/** Option and Result, used for JavaScript's `undefined` fields and for thrown or emitted errors. */
module Wrappers {

  datatype Option<+T> = None | Some(value: T)

  datatype Result<+R, +E> = Success(value: R) | Failure(error: E)
}
