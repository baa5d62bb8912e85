/** The optional-value type used for `null`-able results throughout the model. */
module Wrappers {

  datatype Option<+T> = None | Some(value: T)
}
