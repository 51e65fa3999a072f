/** The optional value used for fields that may be absent (`x?: T | null`). */
module Wrappers {

  datatype Option<+T> = None | Some(value: T)
}
