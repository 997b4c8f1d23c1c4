/** Machine integers, the opaque f64 payload and the Option/Result wrappers used by every other module. */
module Base {

  newtype u32 = x: int | 0 <= x < 0x1_0000_0000
  newtype u64 = x: int | 0 <= x < 0x1_0000_0000_0000_0000
  newtype i64 = x: int | -0x8000_0000_0000_0000 <= x < 0x8000_0000_0000_0000
  newtype NonZeroU64 = x: int | 0 < x < 0x1_0000_0000_0000_0000 witness 1

  /** An `f64` payload. The adapter only ever copies floats, so the model carries their bits and never computes with them. */
  datatype Float64 = Float64(bits: bv64)

  datatype Option<+T> = None | Some(value: T)

  datatype Result<+T, +E> = Ok(value: T) | Err(error: E)
}
