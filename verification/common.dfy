/** Types shared by every module of the model. */
module Common {
  type Byte = b: int | 0 <= b < 256
  type Bytes = seq<Byte>

  /** A Bluetooth address. */
  type Address = a: Bytes | |a| == 6 witness [0, 0, 0, 0, 0, 0]

  datatype Option<+T> = None | Some(value: T)

  datatype Result<+T, +E> = Ok(value: T) | Err(error: E)
}
