/** Small failure-carrying datatypes shared by the other modules. */
module Common {

  datatype Option<+T> = None | Some(value: T)

  /** The outcome of an operation that the source ends by throwing. */
  datatype Result<+T, +E> = Success(value: T) | Failure(error: E)
}
