/** The optional-value type the session state uses where the program stores `None`. */
module Wrappers {

  datatype Option<+T> = None | Some(value: T)
}
