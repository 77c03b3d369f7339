/** The optional value that lookups return: JavaScript's `null`/`undefined` for "absent". */
module Wrappers {

  datatype Option<+T> = None | Some(value: T)
}
