/** Optional values and success-or-error results, used where the service returns
    nothing, raises a validation error or answers with an HTTP error. */
module Results {

  datatype Option<+T> = None | Some(value: T)

  datatype Result<+T, +E> = Ok(value: T) | Err(error: E)
}
