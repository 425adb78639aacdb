/** Optional values and success/failure results, the model's stand-ins for
    Java's nullable references, `Optional` and checked exceptions. */
module Results {

  datatype Option<+T> = None | Some(value: T)

  datatype Result<+T, +E> = Ok(value: T) | Err(error: E)
}
