/** Optional values and fallible results, used wherever the program can come back empty-handed. */
module Options {

  /** A value that may be absent. */
  datatype Option<+T> = None | Some(value: T)

  /** Either a value or an error message, the shape of `Result<_, failure::Error>`. */
  datatype Result<+T> = Ok(value: T) | Err(message: string)
}
