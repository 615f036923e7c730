/** The optional value used for a dictionary lookup that may miss and for a parse that may fail. */
module Wrappers {

  datatype Option<+T> = None | Some(value: T)
}
