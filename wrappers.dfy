/** The optional value used for `undefined`, `null` and missing results. */
module Wrappers {

  datatype Option<+T> = None | Some(value: T)

}
