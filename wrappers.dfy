/** The optional-value type used for nullable pointers and fallible queries. */
module Wrappers {

  datatype Option<+T> = None | Some(value: T)
}
