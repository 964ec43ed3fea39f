/** The optional value used for Python's `None`-defaulted arguments and for absent dict keys. */
module Wrappers {

  datatype Option<+T> = None | Some(value: T)
}
