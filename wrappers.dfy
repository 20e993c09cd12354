/** Option and Result values for the table's missing entries and failed
    computations. */
module Wrappers {

  /** A value that may be absent; pandas shows an absent value as NaN. */
  datatype Option<+T> = None | Some(value: T)

  /** The outcome of a computation that can fail. */
  datatype Result<+R, +E> = Success(value: R) | Failure(error: E)
}
