/** Optional values: the nil-able pointers and absent members of the input document. */
module Wrappers {

  datatype Option<+T> = None | Some(value: T)
}
