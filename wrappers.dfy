/** The optional-value type used wherever the Go code returns a nil-able error or a value that may be missing. */
module Wrappers {

  datatype Option<+T> = None | Some(value: T)

}
