/** The optional value both modules use: a description a binding may lack,
    a window a lookup may not find. */
module Wrappers {

  datatype Option<T> = None | Some(value: T)
}
