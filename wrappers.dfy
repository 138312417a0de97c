/** Nullable values of the component's state (`null` in the source). */
module Wrappers {
  datatype Option<+T> = None | Some(value: T)
}
