/**
 * The C integer conversions and bit operations the firmware relies on, stated
 * on Dafny's unbounded integers.  The target is an RP2040 built with GCC:
 * `int` is 32 bits, `char` is unsigned, a conversion to a narrower signed type
 * wraps modulo 2^N and `>>` on a negative `int` is an arithmetic shift.
 */
module CInt {

  /** An `uint8_t`, and the unsigned `char` a UART primitive takes. */
  type Byte = b: int | 0 <= b < 0x100

  const INT16_MIN := -0x8000
  const INT16_MAX := 0x7FFF

  /** The values an `int16_t` can hold. */
  predicate IsInt16(v: int) {
    INT16_MIN <= v <= INT16_MAX
  }

  /**
   * Storing an `int` into an `int16_t`: the value congruent to `v` modulo
   * 2^16 that lies in the `int16_t` range.
   */
  function ToInt16(v: int): (r: int)
    ensures IsInt16(r)
    ensures (v - r) % 0x1_0000 == 0
  {
    var m := v % 0x1_0000;
    if m <= INT16_MAX then m else m - 0x1_0000
  }

  /**
   * The low eight bits of the two's-complement representation of `x`.  This
   * is both `x & 0xFF` and the conversion of an `int` argument to an unsigned
   * `char` parameter (so `-1` becomes 0xFF).
   */
  function LowByte(x: int): (r: Byte)
    ensures (x - r) % 0x100 == 0
  {
    x % 0x100
  }

  /** `x >> 8` on a signed `int`: an arithmetic shift, rounding toward minus infinity. */
  function ShiftRight8(x: int): (r: int)
    ensures r * 0x100 <= x < r * 0x100 + 0x100
  {
    x / 0x100
  }

  /**
   * `hi << 8 | lo` on two bytes promoted to `int`: the low byte fills exactly
   * the bits the shift cleared, so the high byte and the low byte can be read
   * back.
   */
  function ShiftOr(hi: Byte, lo: Byte): (r: int)
    ensures 0 <= r < 0x1_0000
    ensures ShiftRight8(r) == hi && LowByte(r) == lo
  {
    hi * 0x100 + lo
  }

  /** Reference reading of a big-endian 16-bit two's-complement pair: bit 7 of `hi` is the sign. */
  function BigEndianInt16(hi: Byte, lo: Byte): (r: int)
    ensures IsInt16(r)
    ensures r < 0 <==> hi >= 0x80
  {
    if hi < 0x80 then hi * 0x100 + lo else hi * 0x100 + lo - 0x1_0000
  }

  /** `ShiftOr` agrees with the bitwise shift-and-or on 32-bit words. */
  lemma ShiftOrIsBitwise(hi: bv8, lo: bv8)
    ensures ShiftOr(hi as int, lo as int) == (((hi as bv32) << 8) | (lo as bv32)) as int
  {
    var w := ((hi as bv32) << 8) | (lo as bv32);
    assert w == (hi as bv32) * 0x100 + (lo as bv32);
  }

  /** An `int16_t` store leaves an in-range value alone. */
  lemma {:induction false} ToInt16OfInt16(v: int)
    requires IsInt16(v)
    ensures ToInt16(v) == v
  {
    if v < 0 {
      assert v % 0x1_0000 == v + 0x1_0000;
    }
  }

  /** Values congruent modulo 2^16 are stored as the same `int16_t`. */
  lemma ToInt16Congruent(a: int, b: int)
    requires (a - b) % 0x1_0000 == 0
    ensures ToInt16(a) == ToInt16(b)
  {
    var k := (a - b) / 0x1_0000;
    assert a - b == k * 0x1_0000;
    var qb := b / 0x1_0000;
    assert b == qb * 0x1_0000 + b % 0x1_0000;
    DivModUnique(a, qb + k, b % 0x1_0000);
  }

  /** Helper: a decomposition `q * 2^16 + r` with `r` in `[0, 2^16)` is Euclid's. */
  lemma DivModUnique(a: int, q: int, r: int)
    requires 0 <= r < 0x1_0000 && a == q * 0x1_0000 + r
    ensures a % 0x1_0000 == r && a / 0x1_0000 == q
  {
  }

  /** Helper: the same for division by 2^8. */
  lemma DivModByteUnique(a: int, q: int, r: int)
    requires 0 <= r < 0x100 && a == q * 0x100 + r
    ensures a % 0x100 == r && a / 0x100 == q
  {
  }

  /**
   * Splitting a value with `(v >> 8) & 0xFF` and `v & 0xFF` and joining the
   * two bytes again gives back `v` modulo 2^16.
   */
  lemma {:induction false} SplitJoin(v: int)
    ensures ShiftOr(LowByte(ShiftRight8(v)), LowByte(v)) == v % 0x1_0000
  {
    var q := v / 0x100;
    var lo := v % 0x100;
    var hi := q % 0x100;
    assert v == q * 0x100 + lo;
    assert q == (q / 0x100) * 0x100 + hi;
    assert v == (q / 0x100) * 0x1_0000 + (hi * 0x100 + lo);
    DivModUnique(v, q / 0x100, hi * 0x100 + lo);
  }

  /** The bytes of a word stored as `int16_t` are read back, big-endian, as that `int16_t`. */
  lemma {:induction false} ToInt16IsBigEndian(hi: Byte, lo: Byte)
    ensures ToInt16(ShiftOr(hi, lo)) == BigEndianInt16(hi, lo)
  {
    var w := ShiftOr(hi, lo);
    DivModUnique(w, 0, w);
  }
}
