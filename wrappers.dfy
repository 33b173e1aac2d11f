/** The optional-value datatype used for fields that a placeholder object leaves absent. */
module Wrappers {
  datatype Option<+T> = None | Some(value: T)
}
