/** The optional-value datatype shared by the parser, the calculator and the session. */
module Wrappers {

  datatype Option<+T> = None | Some(value: T)
}
