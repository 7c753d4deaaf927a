/** Failure-carrying wrappers shared by every other module. */
module Results {

  /** An optional value. */
  datatype Option<+T> = None | Some(value: T)

  /** Either a value or the error that prevented producing it. */
  datatype Result<+T, +E> = Ok(value: T) | Err(error: E)
}
