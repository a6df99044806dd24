/** The absent-or-present value used for parsed inputs and for the stored cart. */
module Wrappers {
  datatype Option<+T> = None | Some(value: T)
}
