/** A value that may be absent: a JavaScript `null`/`undefined` field, or
    "no request was issued". */
module Wrappers {
  datatype Option<+T> = None | Some(value: T)
}
