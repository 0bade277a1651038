/** An optional value: `undefined` or a value, as TypeScript's optional fields have. */
module Wrappers {
  datatype Option<+T> = None | Some(value: T)
}
