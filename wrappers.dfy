/** The optional value used where the Java code has a nullable reference or
    a parse that can fail. */
module Wrappers {
  datatype Option<T> = None | Some(value: T)
}
