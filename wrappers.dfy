/** The optional value used for "an action happened, carrying this". */
module Wrappers {
  datatype Option<T> = None | Some(value: T)
}
