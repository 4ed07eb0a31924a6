/** The optional result used throughout. */
module Wrappers {
  datatype Option<+T> = None | Some(value: T)
}
