/** The success/failure datatypes the driver passes back to its callers. */
module Results {

  /** A value or an error, as the driver's operations return it. */
  datatype Result<+T, +E> = Ok(value: T) | Err(error: E)

  /** An optional value, used for the transport's injected fault. */
  datatype Option<+T> = None | Some(value: T)
}
