/** Optional values: the model's stand-in for Java's `null`. */
module Wrappers {

  /** `None` plays the part of a Java `null` reference; `Some(v)` a present value. */
  datatype Option<+T> = None | Some(value: T)
}
