/** Failure-carrying wrappers shared by every module of the model. */
module Results {

  /** A value that may be absent: a missing dictionary key, an undefined var. */
  datatype Option<+T> = None | Some(value: T)

  /** The outcome of an operation that either produces a value or raises an error. */
  datatype Result<+T, +E> = Ok(value: T) | Err(error: E)
}
