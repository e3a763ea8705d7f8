/** The optional value the model uses for Python's `None`-or-value. */
module Wrappers {

  datatype Option<T> = None | Some(value: T)
}
