/** The optional-value datatype used for every "maybe absent" input of the handler. */
module Wrappers {

  datatype Option<+T> = None | Some(value: T)
}
