/** Small datatypes shared by the modules of the model. */
module Basics {
  datatype Option<+T> = None | Some(value: T)

  newtype byte = x: int | 0 <= x < 256

  /** The contents of one cache page. */
  type Contents = seq<byte>
}
