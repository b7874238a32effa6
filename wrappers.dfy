/** The optional value used for a regular-expression match that may fail
    and for a query parameter that may be absent. */
module Wrappers {

  datatype Option<+T> = None | Some(value: T)
}
