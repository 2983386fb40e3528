/** The optional-value datatype used for Swift's `T?` throughout the model. */
module Wrappers {

  datatype Option<+T> = None | Some(value: T)
}
