/** Option values, standing for Python's None and Go's nil or empty results. */
module Wrappers {
  datatype Option<+T> = None | Some(value: T)
}
