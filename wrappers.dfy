/** Nullable references of the engine (an unassigned inspector slot, a missing
    array element) are modelled as optional values. */
module Wrappers {
  datatype Option<+T> = None | Some(value: T)
}
