/** The usual optional-value datatype, used for calls into foreign code that may fail. */
module Wrappers {
  datatype Option<+T> = None | Some(value: T)
}
