/** The optional value used for the fields a TypeScript record may leave out. */
module Wrappers {
  datatype Option<+T> = None | Some(value: T)
}
