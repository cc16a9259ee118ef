/** Failure-carrying values used for the Python exceptions of the runner. */
module Results {

  datatype Option<T> = None | Some(value: T)

  datatype Result<T, E> = Ok(value: T) | Err(error: E)

  /** The result of a call that returns nothing on success. */
  datatype Outcome<E> = Pass | Fail(error: E)
}
