/** The optional value used wherever the source has `null`, `undefined` or a
    step that may not produce a value. */
module Wrappers {

  datatype Option<+T> = None | Some(value: T)
}
