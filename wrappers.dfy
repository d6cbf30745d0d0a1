/** The usual optional-value datatype, used for JavaScript arguments that may be omitted. */
module Wrappers {

  datatype Option<+T> = None | Some(value: T)
}
