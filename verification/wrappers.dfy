/** Small failure-carrying datatypes shared by the other modules. */
module Wrappers {

  /** A value that may be absent (Python's `None`). */
  datatype Option<+T> = None | Some(value: T)

  /** The outcome of a Python step that may raise: it either returns a value
      or raises an exception (whose kind the model does not need). */
  datatype Outcome<+T> = Returned(value: T) | Raised
}
