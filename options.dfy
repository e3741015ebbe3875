/** Optional values and failures shared by every module. */
module Options {

  datatype Option<+T> = None | Some(value: T)

  /** The outcome of an operation that may abort; a failure names the
      0-based position of the input that caused it. */
  datatype Result<+T> = Ok(value: T) | Failure(at: nat)
}
