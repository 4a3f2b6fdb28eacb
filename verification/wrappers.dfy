/** The optional value used wherever the Java code returns or stores `null`. */
module Wrappers {

  /** `None` stands for Java's `null`; `Some(v)` for a present reference. */
  datatype Option<+T> = None | Some(value: T)
}
