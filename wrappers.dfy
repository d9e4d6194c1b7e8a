/** The optional value of the source's `None`-able fields and arguments. */
module Wrappers {

  datatype Option<+T> = None | Some(value: T)
}
