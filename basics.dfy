/** Values shared by every part of the model. */
module Basics {

  /** One octet of a Node.js `Buffer`. */
  type Byte = b: int | 0 <= b < 256

  /** A JavaScript value that may be `undefined` (or `null`). */
  datatype Option<+T> = None | Some(value: T)
}
