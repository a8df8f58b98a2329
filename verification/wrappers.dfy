/** The conventional optional value, used wherever the source may find nothing. */
module Wrappers {

  datatype Option<+T> = None | Some(value: T)

}
