/** Machine integer ranges and the failure-carrying datatypes shared by the
    whole model. */
module Common {

  type uint8 = x: int | 0 <= x < 0x100
  type uint32 = x: int | 0 <= x < 0x1_0000_0000
  type uint64 = x: int | 0 <= x < 0x1_0000_0000_0000_0000
  type int32 = x: int | -0x8000_0000 <= x < 0x8000_0000
  type int64 = x: int | -0x8000_0000_0000_0000 <= x < 0x8000_0000_0000_0000

  const U64_MODULUS: int := 0x1_0000_0000_0000_0000

  /** `x as usize` for a signed machine integer: two's-complement reinterpretation. */
  function AsUsize(x: int64): (r: uint64)
    ensures x >= 0 ==> r == x
    ensures x < 0 ==> r == x + U64_MODULUS
  {
    x % U64_MODULUS
  }

  /** Wrapping 64-bit addition, as the release build of the kernel performs it. */
  function WrappingAdd(a: uint64, b: uint64): (r: uint64)
    ensures a + b < U64_MODULUS ==> r == a + b
    ensures a + b >= U64_MODULUS ==> r == a + b - U64_MODULUS
  {
    (a + b) % U64_MODULUS
  }

  /** `x as i64` for an unsigned 64-bit value: two's-complement reinterpretation. */
  function AsSigned(x: uint64): (r: int64)
    ensures x < 0x8000_0000_0000_0000 ==> r == x
    ensures x >= 0x8000_0000_0000_0000 ==> r == x - U64_MODULUS
  {
    if x < 0x8000_0000_0000_0000 then x else x - U64_MODULUS
  }

  datatype Option<+T> = None | Some(value: T)

  datatype Result<+T, +E> = Ok(value: T) | Err(error: E)

  /** The result of a kernel routine that may stop the machine with `panic!`. */
  datatype Outcome<+T> = Returned(value: T) | Panicked
}
