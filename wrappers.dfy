/** The optional value used where the source may see a number that is not a number. */
module Wrappers {

  datatype Option<+T> = None | Some(value: T)
}
