/** Machine integers and small datatypes shared by every component. */
module Common {

  datatype Option<+T> = None | Some(value: T)

  datatype Result<+T, +E> = Ok(value: T) | Err(error: E)

  const TWO_31: int := 0x8000_0000
  const TWO_32: int := 0x1_0000_0000
  const UINT32_MAX: int := 0xFFFF_FFFF
  const UINT64_MAX: int := 0xFFFF_FFFF_FFFF_FFFF
  const INT64_MAX: int := 0x7FFF_FFFF_FFFF_FFFF

  type U32 = x: int | 0 <= x < 0x1_0000_0000
  type U64 = x: int | 0 <= x < 0x1_0000_0000_0000_0000

  /** Truncation to 32 bits, as every uint32_t addition and cast of the firmware performs it. */
  function Wrap(x: int): (r: U32) {
    x % TWO_32
  }
}
