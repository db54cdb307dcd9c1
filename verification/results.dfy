/** The success-or-error value every fallible step of the model returns. */
module Results {

  datatype Result<+T, +E> = Ok(value: T) | Err(error: E)
}
