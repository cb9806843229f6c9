/**
  An optional value, as the model's lookups return it.
 */
module Wrappers {

  datatype Option<+T> = None | Some(value: T)
}
