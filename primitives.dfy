/** Machine integers and the two pieces of Rust arithmetic the scheduling core
    relies on: the truncating `/` on signed integers and the `as u32` cast. */
module Primitives {

  datatype Option<+T> = None | Some(value: T)

  const U32_LIMIT: int := 0x1_0000_0000
  const I64_MIN: int := -0x8000_0000_0000_0000
  const I64_MAX: int := 0x7fff_ffff_ffff_ffff

  /** Rust `u32`. */
  type u32 = x: int | 0 <= x < U32_LIMIT

  /** Rust `i64`. */
  type i64 = x: int | I64_MIN <= x <= I64_MAX

  predicate InI64(x: int) {
    I64_MIN <= x <= I64_MAX
  }

  /** Rust's `n / d` on signed integers: the quotient is rounded toward zero,
      so the remainder takes the sign of the dividend (Dafny's own `/` is
      Euclidean and would round a negative dividend down instead). */
  function TruncDiv(n: int, d: int): (q: int)
    requires d > 0
    ensures 0 <= n ==> 0 <= q && d * q <= n < d * q + d
    ensures n < 0 ==> q <= 0 && d * q - d < n <= d * q
  {
    var m := if n >= 0 then n else -n;
    var k := m / d;
    assert d * k + m % d == m && 0 <= m % d < d;
    assert d * -k == -(d * k);
    if n >= 0 then k else -k
  }

  /** Rust's `x as u32` from a wider integer: keeps the low 32 bits, which for a
      negative two's-complement value is the value plus a multiple of 2^32. */
  function AsU32(x: int): (r: u32)
    ensures 0 <= x < U32_LIMIT ==> r == x
    ensures (x - r) % U32_LIMIT == 0
  {
    x % U32_LIMIT
  }
}
