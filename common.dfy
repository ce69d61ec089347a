/** Option and Result values shared by the other modules. */
module Common {
  datatype Option<+T> = None | Some(value: T)

  datatype Result<+T, +E> = Ok(value: T) | Err(error: E)
}
