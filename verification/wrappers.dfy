/** The optional value used wherever the Java code has a nullable String. */
module Wrappers {

  datatype Option<+T> = None | Some(value: T)
}
