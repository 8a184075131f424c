/** Optional values and exchange outcomes, shared by the rest of the model. */
module Wrappers {

  /** An optional value; stands for a Python argument that may be `None`. */
  datatype Option<+T> = None | Some(value: T)

  /** The outcome of an exchange: a value, or the exception raised instead. */
  datatype Result<+T, +E> = Success(value: T) | Failure(error: E)
}
