/**
 * The C integer types of the firmware and the conversions C applies to them.
 * The ESP32 targets are 32-bit: `int` and `long` are 32 bits wide, `time_t` is 64.
 */
module Machine {
  const U16_MOD: int := 0x1_0000
  const U32_MOD: int := 0x1_0000_0000
  const U64_MOD: int := 0x1_0000_0000_0000_0000

  type u16 = x: int | 0 <= x < 0x1_0000
  type u64 = x: int | 0 <= x < 0x1_0000_0000_0000_0000
  type i32 = x: int | -0x8000_0000 <= x < 0x8000_0000
  type i64 = x: int | -0x8000_0000_0000_0000 <= x < 0x8000_0000_0000_0000

  /** Conversion to `uint16_t`: C reduces the value modulo 2^16. */
  function ToU16(x: int): (r: u16)
    ensures (x - r) % U16_MOD == 0
    ensures 0 <= x < U16_MOD ==> r == x
  {
    x % U16_MOD
  }

  /** Conversion to `uint64_t`: C reduces the value modulo 2^64. */
  function ToU64(x: int): (r: u64)
    ensures (x - r) % U64_MOD == 0
    ensures 0 <= x < U64_MOD ==> r == x
  {
    x % U64_MOD
  }

  /**
   * A 32-bit signed result (`int` or `long` on the ESP32). An overflowing signed
   * product is undefined in C; the model takes the two's-complement wrap-around
   * that the compiler produces.
   */
  function ToI32(x: int): (r: i32)
    ensures (x - r) % U32_MOD == 0
    ensures -0x8000_0000 <= x < 0x8000_0000 ==> r == x
  {
    var m := x % U32_MOD;
    if m < 0x8000_0000 then m else m - U32_MOD
  }

  /** Conversion to the 64-bit signed `time_t`, two's complement. */
  function ToI64(x: int): (r: i64)
    ensures (x - r) % U64_MOD == 0
    ensures -0x8000_0000_0000_0000 <= x < 0x8000_0000_0000_0000 ==> r == x
  {
    var m := x % U64_MOD;
    if m < 0x8000_0000_0000_0000 then m else m - U64_MOD
  }

  /** Storing a `time_t` as `uint64_t` and reading it back gives the same time. */
  lemma SignedThroughUnsigned(t: i64)
    ensures ToI64(ToU64(t)) == t
  {
  }

  /** The 16 low bits survive the 32-bit wrap-around: 2^16 divides 2^32. */
  lemma LowBitsSurviveI32(z: int)
    ensures ToU16(ToI32(z)) == ToU16(z)
  {
    var j := (z - ToI32(z)) / U32_MOD;
    assert ToI32(z) == z - (j * 0x1_0000) * U16_MOD;
    ModMultiple(z, j * 0x1_0000);
  }

  /** Truncating an operand to 16 bits does not change the 16 low bits of a product. */
  lemma LowBitsOfProduct(x: int, k: int)
    ensures ToU16(ToU16(x) * k) == ToU16(x * k)
  {
    var q := x / U16_MOD;
    assert x == q * U16_MOD + ToU16(x);
    assert ToU16(x) * k == x * k - (q * k) * U16_MOD;
    ModMultiple(x * k, q * k);
  }

  /**
   * Scaling a `uint64_t` by 1000 modulo 2^64 fixes only 0: 999 is odd, so it
   * has an inverse modulo 2^64 and 999 * x wraps to 0 only for x == 0.
   */
  lemma ScaleByThousandFixesOnlyZero(x: u64)
    ensures ToU64(x * 1000) == x <==> x == 0
  {
    if ToU64(x * 1000) == x {
      var j := (999 * x) / U64_MOD;
      assert 999 * x == U64_MOD * j;
      // 999 * 0xbe65fd6ffbe65fd7 == 1 + 743 * 2^64
      var m := 0xbe65fd6ffbe65fd7 * j - 743 * x;
      assert x == U64_MOD * m;
    }
  }

  /** Subtracting a multiple of 2^16 does not change a value modulo 2^16. */
  lemma ModMultiple(a: int, n: int)
    ensures ToU16(a - n * U16_MOD) == ToU16(a)
  {
  }
}
