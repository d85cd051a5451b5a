/**
 Kotlin's nullable types: `Some(v)` is a present value, `None` is `null`.
 */
module Nullable {

  /** A Kotlin `T?`: `None` plays the part of `null`. */
  datatype Option<+T> = None | Some(value: T)
}
