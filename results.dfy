/** Optional values and error-carrying results, as Go's `(value, error)` pairs and nil-able values. */
module Results {

  datatype Option<+T> = None | Some(value: T)

  /** A value, or the text of the error that replaced it (Go's `err.Error()`). */
  datatype Result<+T> = Ok(value: T) | Err(error: string)
}
