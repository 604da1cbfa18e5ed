/** Option and Result datatypes shared by the model: an optional value (a
    pandas value that may be NaN) and a result that is either a value or the
    reason the analysis halted. */
module Wrappers {

  /** A value that may be missing; `None` stands for the NaN that a rolling
      window produces before it has seen enough points. */
  datatype Option<+T> = None | Some(value: T)

  /** Either the computed value or the error that stopped the computation. */
  datatype Result<+R, +E> = Success(value: R) | Failure(error: E)
}
