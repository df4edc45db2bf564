/** The optional value used for absent query parameters, absent body fields
    and lookups that find nothing. */
module Wrappers {

  datatype Option<+T> = None | Some(value: T)
}
