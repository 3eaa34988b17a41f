/** The optional value used for the schema's nullable fields. */
module Wrappers {

  datatype Option<+T> = None | Some(value: T)
}
