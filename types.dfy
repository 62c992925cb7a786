/** Machine types of the 8051 firmware: `uint8_t`, `uint32_t` (`param_t`),
    and an Option standing for a C pointer result that may be NULL. */
module Types {

  type uint8 = x: int | 0 <= x < 0x100

  type uint32 = x: int | 0 <= x < 0x1_0000_0000

  datatype Option<+T> = None | Some(value: T)
}
