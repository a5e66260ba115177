/** The optional value both queue models use for callbacks and results. */
module Wrappers {
  datatype Option<T> = None | Some(value: T)
}
