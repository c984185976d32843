/** Missing values and failures. A pandas NaN cell is `None`; a raised exception is `Failure`. */
module Wrappers {

  datatype Option<+T> = None | Some(value: T)

  datatype Result<+R, +E> = Success(value: R) | Failure(error: E)
}
