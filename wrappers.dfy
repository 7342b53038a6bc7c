/** The optional-value wrapper used throughout the model for Swift's `T?`. */
module Wrappers {

  datatype Option<+T> = None | Some(value: T)
}
