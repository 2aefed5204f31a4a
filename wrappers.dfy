/** The optional value of the TypeScript code's `T | null` fields. */
module Wrappers {

  datatype Option<+T> = None | Some(value: T)
}
