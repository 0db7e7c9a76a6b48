/** Small shared value types. */
module Wrappers {
  /** A value that may be missing: a null pointer or an empty gameplay tag in the engine. */
  datatype Option<T> = None | Some(value: T)
}
