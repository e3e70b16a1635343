/** The optional value used where the source leaves a field or a result undefined. */
module Wrappers {

  datatype Option<+T> = None | Some(value: T)

}
