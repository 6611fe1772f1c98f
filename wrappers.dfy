/** Small shared definitions: the optional value and the chat user identity. */
module Wrappers {

  datatype Option<+T> = None | Some(value: T)

  /** A chat platform user id. */
  type UserId = int
}
