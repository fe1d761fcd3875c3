/** An optional value: a JSON field or object property that may be absent. */
module Wrappers {

  datatype Option<+T> = None | Some(value: T)
}
