/** The optional-value datatype used for the cart's optional discount strategy. */
module Wrappers {

  datatype Option<+T> = None | Some(value: T)
}
