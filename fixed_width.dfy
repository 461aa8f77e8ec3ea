/** The C++ integer widths the headers store and convert between. The model's integers are
    unbounded, so every narrowing or unsigned wrap-around of the source is written out here. */
module FixedWidth {

  const TWO_31: int := 0x8000_0000
  const TWO_32: int := 0x1_0000_0000
  const TWO_63: int := 0x8000_0000_0000_0000
  const TWO_64: int := 0x1_0000_0000_0000_0000

  /** C++ `int`: 32-bit two's complement. */
  type Int32 = x: int | -0x8000_0000 <= x < 0x8000_0000

  /** C++ `int64_t` (the representation of `std::chrono::microseconds`). */
  type Int64 = x: int | -0x8000_0000_0000_0000 <= x < 0x8000_0000_0000_0000

  /** C++ `size_t` and `uint64_t`: unsigned 64-bit. */
  type UInt64 = x: int | 0 <= x < 0x1_0000_0000_0000_0000

  /** Conversion of any integer to `int`: the one value of the 32-bit range that is congruent
      to `x` modulo 2^32 (the two's complement rule that C++20 makes normative). */
  function ToInt32(x: int): (r: Int32)
    ensures (x - r) % TWO_32 == 0
    ensures -TWO_31 <= x < TWO_31 ==> r == x
  {
    var m := x % TWO_32;
    if m < TWO_31 then m else m - TWO_32
  }

  /** Conversion of any integer to `size_t` / `uint64_t`: reduction modulo 2^64. A negative
      `int` converted to `size_t` therefore becomes `x + 2^64`. */
  function ToUInt64(x: int): (r: UInt64)
    ensures (x - r) % TWO_64 == 0
    ensures 0 <= x < TWO_64 ==> r == x
    ensures -TWO_63 <= x < 0 ==> r == x + TWO_64
  {
    x % TWO_64
  }

  /** A `size_t` stored into an `int` and read back as a `size_t` comes back unchanged exactly
      when it lies below 2^31 or within 2^31 of 2^64 (where sign extension restores it). */
  lemma NarrowingRoundTrip(n: UInt64)
    ensures ToUInt64(ToInt32(n)) == n <==> n < TWO_31 || TWO_64 - TWO_31 <= n
  {
    var q, m := n / TWO_32, n % TWO_32;
    assert n == q * TWO_32 + m;
    assert 0 <= q < TWO_32;
    if m < TWO_31 {
      assert ToInt32(n) == m;
      assert ToUInt64(m) == m;
      assert m == n <==> q == 0;
    } else {
      assert ToInt32(n) == m - TWO_32;
      assert ToUInt64(m - TWO_32) == m - TWO_32 + TWO_64;
      assert m - TWO_32 + TWO_64 == n <==> q == TWO_32 - 1;
    }
  }
}
