/** Small shared wrappers. */
module Common {

  /** The conventional Some/None datatype, standing for a Python value that may be `None`. */
  datatype Option<+T> = None | Some(value: T)

  /** An unsigned byte, as Python's `bytes` elements and `struct` format `B`. */
  newtype byte = x: int | 0 <= x < 256
}
