/** The optional value used where the game stores `None`. */
module Wrappers {

  datatype Option<T> = None | Some(value: T)
}
