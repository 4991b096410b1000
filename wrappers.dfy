/** The optional value used where the C code returns NULL or "no such thing". */
module Wrappers {
  datatype Option<T> = None | Some(value: T)
}
