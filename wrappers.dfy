/** The optional value used wherever the printer's PHP source works with a nullable value. */
module Wrappers {

  datatype Option<+T> = None | Some(value: T)
}
