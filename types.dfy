/**
 * The integer widths of the C types that cross the OpenGL ES 2.0 interface
 * (src/types.rs), and the Rust `as` conversions the binding applies to them.
 * Dafny integers are unbounded, so every truncation is written out here.
 */
module GLTypes {

  const U32_LIMIT: int := 0x1_0000_0000
  const I32_MIN: int := -0x8000_0000
  /** One more than `i32::MAX`. */
  const I32_LIMIT: int := 0x8000_0000
  /** One more than `isize::MAX` on a 64-bit target: no Rust slice spans more bytes. */
  const ISIZE_LIMIT: int := 0x8000_0000_0000_0000

  type u8 = x: int | 0 <= x < 0x100
  type u32 = x: int | 0 <= x < 0x1_0000_0000
  type i32 = x: int | -0x8000_0000 <= x < 0x8000_0000
  type isize = x: int | -0x8000_0000_0000_0000 <= x < 0x8000_0000_0000_0000

  type GLboolean = u8
  type GLubyte = u8
  type GLenum = u32
  type GLuint = u32
  type GLint = i32
  type GLsizei = i32
  type GLintptr = isize
  type GLsizeiptr = isize

  /**
   * Rust's `x as i32` from any integer type: keep the low 32 bits and read
   * them in two's complement.
   */
  function AsI32(x: int): (r: i32)
    ensures I32_MIN <= x < I32_LIMIT ==> r == x
    ensures (x - r) % U32_LIMIT == 0
  {
    var low := x % U32_LIMIT;
    if low < I32_LIMIT then low else low - U32_LIMIT
  }

  /** Rust's `x as u32` from any integer type: keep the low 32 bits. */
  function AsU32(x: int): (r: u32)
    ensures 0 <= x < U32_LIMIT ==> r == x
    ensures (x - r) % U32_LIMIT == 0
  {
    x % U32_LIMIT
  }

  /** `a * b` on `u32` as a release build computes it: wrapping modulo 2^32. */
  function WrappingMulU32(a: u32, b: u32): (r: u32)
    ensures a * b < U32_LIMIT ==> r == a * b
    ensures (a * b - r) % U32_LIMIT == 0
  {
    AsU32(a * b)
  }

  /** A count of at least 2^31 turns negative when it is cast to `i32`. */
  lemma AsI32OfLargeCount(x: int)
    requires I32_LIMIT <= x < U32_LIMIT
    ensures AsI32(x) == x - U32_LIMIT && AsI32(x) < 0
  {
  }
}
