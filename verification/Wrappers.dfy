/** A value that may be missing: Python's `None` where the host code uses it. */
module Wrappers {
  datatype Option<+T> = None | Some(value: T)
}
