/** The optional value the model uses for every nullable field and for every
    external call that may fail. */
module Wrappers {
  datatype Option<T> = None | Some(value: T)
}
