/** The optional-value datatype used for every nullable field of the
    checkout inputs and outputs. */
module Wrappers {

  datatype Option<+T> = None | Some(value: T)
}
