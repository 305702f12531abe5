// Small shared vocabulary: an optional value and the unsigned 32-bit
// arithmetic of C's `uint32_t`, written out explicitly because Dafny's
// integers are unbounded.

module Opt {
  datatype Option<T> = None | Some(value: T)
}

module Uint32 {
  const Modulus: int := 0x1_0000_0000

  /** The values of a C `uint32_t`. */
  type u32 = x: int | 0 <= x < Modulus

  /** Conversion of an integer to `uint32_t`: the value modulo 2^32
      (for a negative `int` this is the two's complement reinterpretation). */
  function Wrap(x: int): (r: u32)
    ensures 0 <= x < Modulus ==> r == x
    ensures (x - r) % Modulus == 0
  {
    x % Modulus
  }

  /** `a * b` evaluated in `uint32_t`. */
  function Mul(a: u32, b: u32): u32
  {
    Wrap(a * b)
  }

  /** Without overflow the `uint32_t` product is the product. */
  lemma MulExact(a: u32, b: u32)
    requires a * b < Modulus
    ensures Mul(a, b) == a * b
  {
  }

  /** `a << 16` evaluated in `uint32_t`: the high 16 bits of `a` are lost. */
  function ShiftLeft16(a: u32): (r: u32)
    ensures r == (a % 0x1_0000) * 0x1_0000
    ensures a < 0x1_0000 ==> r == a * 0x1_0000
    ensures r % 0x1_0000 == 0
  {
    ShiftDropsHighBits(a);
    Wrap(a * 0x1_0000)
  }

  /** Shifting `a` left by 16 moves its high 16 bits past bit 31. */
  lemma ShiftDropsHighBits(a: u32)
    ensures (a * 0x1_0000) % Modulus == (a % 0x1_0000) * 0x1_0000
  {
    var hi, lo := a / 0x1_0000, a % 0x1_0000;
    assert a * 0x1_0000 == hi * Modulus + lo * 0x1_0000;
    assert 0 <= lo * 0x1_0000 < Modulus;
  }

  function Min(a: int, b: int): int
  {
    if a <= b then a else b
  }
}
