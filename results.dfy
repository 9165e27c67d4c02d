/** Optional values and error-carrying results, used for every Go
    `(value, error)` pair and every value that Go leaves nil. */
module Results {

  datatype Option<+T> = None | Some(value: T)

  datatype Result<+T, +E> = Ok(value: T) | Err(error: E)
}
