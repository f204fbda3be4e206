/** Result shapes shared by the router and the webhook model. */
module Wrappers {

  /** Python's `None` or a value. */
  datatype Option<+T> = None | Some(value: T)

  /** The outcome of a Python call: it either returns a value or raises an exception. */
  datatype Outcome<+T, +E> = Returned(value: T) | Raised(error: E)
}
