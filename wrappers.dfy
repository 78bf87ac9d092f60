/** The optional value used wherever the C++ code passes a possibly-null pointer by value. */
module Wrappers {
  datatype Option<T> = None | Some(value: T)
}
