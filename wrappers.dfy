/** The optional-value type used for absent JSON fields and for the
    sources callback, which is either called with a list or not at all. */
module Wrappers {
  datatype Option<+T> = None | Some(value: T)
}
