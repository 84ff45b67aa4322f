/** Fixed-width unsigned integers of the firmware, as ranges of `int`. */
module Ints {
  /** `uint8_t`. */
  type u8 = x: int | 0 <= x < 0x100

  /** `uint32_t`. */
  type u32 = x: int | 0 <= x < 0x1_0000_0000
}
