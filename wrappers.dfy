/** An optional value: TypeScript's `field?: T`, absent or present. */
module Wrappers {

  datatype Option<+T> = None | Some(value: T)
}
