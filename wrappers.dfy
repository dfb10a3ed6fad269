/** Optional values, the error kinds of the library, and results carrying them. */
module Wrappers {
  datatype Option<+T> = None | Some(value: T)

  /** The errors an indicator constructor or the data-item builder reports, and the
      out-of-range queue index that the library reports by panicking. */
  datatype ErrorKind = InvalidParameter | DataItemIncomplete | DataItemInvalid | OutOfBound

  datatype Result<+T> = Ok(value: T) | Err(error: ErrorKind)
}
