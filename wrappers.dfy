/** The optional value used wherever the C++ code has a nullable pointer or an invalid value. */
module Wrappers {

  datatype Option<+T> = None | Some(value: T)
}
