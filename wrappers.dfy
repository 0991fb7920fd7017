/** An optional value: a cookie that may or may not be set, a check that may or may not reject. */
module Wrappers {

  datatype Option<+T> = None | Some(value: T)
}
