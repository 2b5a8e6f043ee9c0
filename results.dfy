/** Failure-carrying results: the model's stand-in for the exceptions the
    Python code raises. */
module Results {

  datatype Option<+T> = None | Some(value: T)

  datatype Result<+T, +E> = Ok(value: T) | Err(error: E)
}
