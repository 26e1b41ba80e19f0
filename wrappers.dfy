/** The optional value used wherever the source has `undefined`, `null` or an empty selection. */
module Wrappers {
  datatype Option<+T> = None | Some(value: T)
}
