/** Option type used for Python's "key absent from the result dict". */
module Wrappers {
  datatype Option<+T> = None | Some(value: T)
}
