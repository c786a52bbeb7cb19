/** The C integer types of the driver, and an optional value. */
module CTypes {

  /** `uint8_t`. */
  newtype u8 = x: int | 0 <= x < 0x100

  /** `uint16_t`. */
  newtype u16 = x: int | 0 <= x < 0x1_0000

  /** `uint32_t`. */
  newtype u32 = x: int | 0 <= x < 0x1_0000_0000

  datatype Option<+T> = None | Some(value: T)
}
