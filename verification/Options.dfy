/** Values that may be absent, and results of operations that may fail. */
module Options {
  datatype Option<+T> = None | Some(value: T)
  datatype Result<+T> = Ok(value: T) | Err(reason: string)
}
