/** The Option and Result wrappers shared by the whole model. */
module Wrappers {

  /** An optional value; stands for Go's nil-able pointers and for
      collaborator calls that either produce a value or fail. */
  datatype Option<+T> = None | Some(value: T)

  /** A value or an error. */
  datatype Result<+R, +E> = Success(value: R) | Failure(error: E)
}
