/** Nullable values of the source: a Java reference or boxed field, or a
    TypeScript field or form control that may hold null/undefined. */
module Wrappers {

  datatype Option<+T> = None | Some(value: T)
}
