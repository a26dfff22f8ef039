/** The optional-value datatype used for `null`-or-value results throughout the model. */
module Wrappers {

  datatype Option<+T> = None | Some(value: T)
}
