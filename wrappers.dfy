/** The optional-value datatype used wherever the source returns null, `false` from a TryParse, or nothing. */
module Wrappers {

  datatype Option<+T> = None | Some(value: T)
}
