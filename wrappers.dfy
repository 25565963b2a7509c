/** A value that may be absent, shared by the integrators and the models. */
module Wrappers {
  datatype Option<T> = None | Some(value: T)
}
