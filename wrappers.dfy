/** The optional value used for the fields of `socket.data` that stay unset until a join. */
module Wrappers {

  datatype Option<+T> = None | Some(value: T)
}
