/** Option and Result, the two shapes every client operation speaks in. */
module Wrappers {

  /** Swift's `T?`. */
  datatype Option<+T> = None | Some(value: T)

  /** Swift's `Result<Success, Failure>`; also the outcome of a throwing call. */
  datatype Result<+T, +E> = Success(value: T) | Failure(error: E)
}
