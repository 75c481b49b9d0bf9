/** Small value types shared by every module of the model. */
module Common {

  /** A JavaScript value that may be absent: `None` stands for `undefined` or `null`. */
  datatype Option<+T> = None | Some(value: T)

  /** One octet of a Node.js `Buffer`. */
  newtype byte = x: int | 0 <= x < 256
}
