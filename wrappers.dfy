/** An optional value: a JSON key that may be missing, or input that may not parse. */
module Wrappers {

  datatype Option<+T> = None | Some(value: T)
}
