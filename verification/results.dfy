/** Failure-carrying values shared by the post-processor model. */
module Results {

  /** A value that may be absent. */
  datatype Option<+T> = None | Some(value: T)

  /** Either a computed value or the reason it could not be computed. */
  datatype Result<+T, +E> = Ok(value: T) | Err(error: E)
}
