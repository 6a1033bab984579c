/** Small definitions shared by both sides of the shim. */
module Common {

  /** A value that may be absent: `std::optional` on the client, an unset message field on the wire. */
  datatype Option<+T> = None | Some(value: T)

  /** One byte of file contents. */
  newtype byte = x: int | 0 <= x < 256
}
