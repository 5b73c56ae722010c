/** The optional value used for "no cause", "nothing raised" and "not tracking yet". */
module Wrappers {
  datatype Option<+T> = None | Some(value: T)
}
