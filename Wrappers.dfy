/** The JavaScript `undefined`/value distinction, as a datatype. */
module Wrappers {

  datatype Option<+T> = None | Some(value: T)
}
