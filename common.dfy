/** Option and Result types shared by the whole model. */
module Common {

  /** Python's `Optional[...]`: `None` or a value. */
  datatype Option<T> = None | Some(value: T)

  /** A value, or the exception the source would raise instead of returning. */
  datatype Result<T> = Ok(value: T) | Err(error: string)
}
