/** The Python `None`-or-value shape, used wherever the source returns `None`
    on failure or tests a value for truthiness. */
module Wrappers {

  datatype Option<+T> = None | Some(value: T)
}
