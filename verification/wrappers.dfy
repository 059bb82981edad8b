/** Optional values: the outcome of a partial operation such as URL decoding. */
module Wrappers {

  /** `Some(value)` when the operation produced a value, `None` when it failed. */
  datatype Option<+T> = None | Some(value: T)
}
