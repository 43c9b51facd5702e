/** Option and Result: a missing row, and the exception path of an operation. */
module Results {

  datatype Option<+T> = None | Some(value: T)

  datatype Result<+T> = Ok(value: T) | Err(reason: string)
}
