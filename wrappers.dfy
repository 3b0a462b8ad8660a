/** The conventional optional value, used for absent parameter keys and a null capturer. */
module Wrappers {

  datatype Option<+T> = None | Some(value: T)
}
