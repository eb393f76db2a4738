/** Python's `None`-or-value, used for optional identifiers and cells. */
module Wrappers {

  datatype Option<+T> = None | Some(value: T)
}
