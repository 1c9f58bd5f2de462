/** Optional values and results with an error, as the playground's optionals and traps need. */
module Wrappers {

  /** A value that may be absent, like a Swift optional. */
  datatype Option<+T> = None | Some(value: T)

  /** A value, or the reason why none could be produced. */
  datatype Result<+R, +E> = Success(value: R) | Failure(error: E)
}
