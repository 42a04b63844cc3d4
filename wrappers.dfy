/** Small failure-carrying datatypes shared by the rest of the model. */
module Wrappers {

  /** A value that may be absent (Python's `None`). */
  datatype Option<+T> = None | Some(value: T)

  /** The outcome of a Python call that either returns a value or raises an
      exception whose `str(e)` is `error`. */
  datatype Outcome<+T> = Done(value: T) | Raised(error: string)
}
