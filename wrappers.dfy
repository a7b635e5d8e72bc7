/** An optional value, standing for a pointer that may be null or a conversion that may fail. */
module Wrappers {
  datatype Option<T> = None | Some(value: T)
}
