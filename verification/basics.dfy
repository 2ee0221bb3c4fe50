/** Small value types shared by the chat-client model. */
module Basics {

  /** A value that may be absent: a dict key that is missing, a buffer not yet created. */
  datatype Option<+T> = None | Some(value: T)

  /** One octet of raw audio as written by the capture callback. */
  newtype byte = b: int | 0 <= b < 256
}
