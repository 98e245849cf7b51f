/** The conventional optional value, used for Python's `None` and for
    computations that the source would never finish. */
module Wrappers {

  datatype Option<+T> = None | Some(value: T)
}
