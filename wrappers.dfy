/** The conventional optional value, used where the repository may hold no value. */
module Wrappers {
  datatype Option<+T> = None | Some(value: T)
}
