/** The optional-value wrapper shared by the other modules. */
module Wrappers {

  /** An optional value: the result of a lookup or a coercion that may fail. */
  datatype Option<+T> = None | Some(value: T)
}
