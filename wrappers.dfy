/** Optional values and success-or-error results shared by the fetcher and the converter. */
module Wrappers {

  /** A value that may be absent: a JavaScript property that is `undefined` or `null`. */
  datatype Option<+T> = None | Some(value: T)

  /** The outcome of an operation that either returns a value or throws an `Error`
      carrying a fixed message. */
  datatype Result<+T> = Ok(value: T) | Err(message: string)
}
