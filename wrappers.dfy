/** The optional value returned where the C code either acts or does nothing. */
module Wrappers {
  datatype Option<+T> = None | Some(value: T)
}
