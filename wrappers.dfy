/** The optional value used for every nullable field and every optional parameter. */
module Wrappers {

  datatype Option<+T> = None | Some(value: T)
}
