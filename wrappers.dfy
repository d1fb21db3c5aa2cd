/** Optional values and the outcome of an operation that can panic. */
module Wrappers {

  /** A Go pointer or an optional field: nil is None. */
  datatype Option<+T> = None | Some(value: T)

  /** The result of Go code that either returns a value or panics at run time. */
  datatype Result<+T> = Ok(value: T) | Panic(reason: string)
}
