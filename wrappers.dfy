/** An optional value: the decoder's answer when a load would write out of bounds. */
module Wrappers {

  datatype Option<T> = None | Some(value: T)
}
