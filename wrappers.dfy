/** The optional value used throughout the model for Python's `None`-or-value results and absent keys. */
module Wrappers {
  datatype Option<+T> = None | Some(value: T)
}
