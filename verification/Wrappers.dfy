/** The stock option type, used for absent rows, absent errors and unparsable text. */
module Wrappers {
  datatype Option<+T> = None | Some(value: T)
}
