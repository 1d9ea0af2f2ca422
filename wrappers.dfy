/** The optional value used for "no support" and "no binding". */
module Wrappers {

  datatype Option<T> = None | Some(value: T)
}
