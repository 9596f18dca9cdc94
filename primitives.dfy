/** Machine types and result wrappers shared by the audiovis model. */
module Primitives {

  /** Rust's unsigned integer widths, as ranges of mathematical integers. */
  type u8 = x: int | 0 <= x < 0x100
  type u16 = x: int | 0 <= x < 0x1_0000
  type u32 = x: int | 0 <= x < 0x1_0000_0000
  type usize = x: int | 0 <= x < 0x1_0000_0000_0000_0000

  /** Single-precision floats are modelled as exact reals: no rounding, no NaN, no infinities. */
  type f32 = real

  /** A `[f32; 3]` array, such as a colour or a camera position. */
  type Vec3 = s: seq<f32> | |s| == 3 witness [0.0, 0.0, 0.0]

  /** Rust's `Result<T, String>`. */
  datatype Result<T> = Ok(value: T) | Err(msg: string)
}
