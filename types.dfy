/**
 * The values shared with the host across the C ABI (src/lib.rs): the candle
 * record `T6` and the integer widths of `c_int` and `c_char`.
 */
module Types {

  /** One byte of a C string. */
  type Byte = b: int | 0 <= b < 0x100

  const MinCInt: int := -0x8000_0000
  const MaxCInt: int := 0x7fff_ffff

  /** The host's 32-bit `c_int`. */
  type CInt = x: int | -0x8000_0000 <= x <= 0x7fff_ffff

  /**
   * The host's candle record, fields in their wire order: the day-count
   * `time` (an `f64`), then six `f32` values. Both widths are modelled as
   * exact reals.
   */
  datatype T6 = T6(time: real, fHigh: real, fLow: real, fOpen: real, fClose: real, fVal: real, fVol: real)
}
