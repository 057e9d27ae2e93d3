/** Small failure-carrying datatypes shared by every module of the model. */
module Wrappers {

  /** A Go pointer that may be nil, or a value that may be absent. */
  datatype Option<+T> = None | Some(value: T)

  /** A Go `(value, error)` pair where exactly one side is meaningful. */
  datatype Result<+T, +E> = Ok(value: T) | Err(error: E)

  /** What a Go expression does when it may dereference a nil pointer:
      it either returns a value or panics at run time. */
  datatype Outcome<+T> = Returns(value: T) | NilDereference
}
