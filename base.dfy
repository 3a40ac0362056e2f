// Small shared vocabulary: optional values, clamping, C#-style integer
// division and the fixed-width integer types the program relies on.
module Base {

  datatype Option<T> = None | Some(value: T)

  /** An unsigned byte. */
  type Byte = b: int | 0 <= b < 256

  /** A C# `uint`. */
  type U32 = x: int | 0 <= x < 0x1_0000_0000

  /** A C# `ulong`. */
  type U64 = x: int | 0 <= x < 0x1_0000_0000_0000_0000

  const INT32_MIN: int := -0x8000_0000
  const INT32_MAX: int := 0x7FFF_FFFF

  predicate IsInt32(x: int) { INT32_MIN <= x <= INT32_MAX }

  function Min(a: int, b: int): int { if a <= b then a else b }
  function Max(a: int, b: int): int { if a >= b then a else b }

  /** Math.Clamp(v, lo, hi); the program only calls it with lo <= hi. */
  function Clamp(v: int, lo: int, hi: int): (r: int)
    requires lo <= hi
    ensures lo <= r <= hi
    ensures lo <= v <= hi ==> r == v
    ensures v < lo ==> r == lo
    ensures v > hi ==> r == hi
  {
    if v < lo then lo else if v > hi then hi else v
  }

  /** Math.Clamp on reals (the program's double/float clamps on values it treats as numbers). */
  function ClampReal(v: real, lo: real, hi: real): (r: real)
    requires lo <= hi
    ensures lo <= r <= hi
    ensures lo <= v <= hi ==> r == v
  {
    if v < lo then lo else if v > hi then hi else v
  }

  /** Clamp7 of both settings editors: Math.Clamp into the MIDI data range [0, 127]. */
  function Clamp7(v: int): (r: int)
    ensures 0 <= r <= 127
    ensures 0 <= v <= 127 ==> r == v
    ensures v < 0 ==> r == 0
    ensures v > 127 ==> r == 127
  {
    Clamp(v, 0, 127)
  }

  /** C# integer division by a positive divisor, which truncates toward zero (Dafny's `/` is Euclidean). */
  function DivTrunc(a: int, b: int): (q: int)
    requires b > 0
    ensures a >= 0 ==> q == a / b
    ensures a <= 0 ==> q == -((-a) / b)
  {
    if a >= 0 then a / b else -((-a) / b)
  }

  /** The value C# keeps of an integer result stored in an `int`: the low 32 bits, read as two's complement. */
  function ToInt32(x: int): (r: int)
    ensures IsInt32(r)
    ensures IsInt32(x) ==> r == x
  {
    (x - INT32_MIN) % 0x1_0000_0000 + INT32_MIN
  }

  /** A `uint` increment, which wraps around at 2^32. */
  function WrapIncU32(x: U32): (r: U32)
    ensures x < 0xFFFF_FFFF ==> r == x + 1
    ensures x == 0xFFFF_FFFF ==> r == 0
  {
    (x + 1) % 0x1_0000_0000
  }

  /** Little-endian bytes of a 32-bit value (BitConverter on x86, and the explicit shifts of the codec). */
  function LeBytes32(x: U32): (r: seq<Byte>)
    ensures |r| == 4
  {
    [x % 256, (x / 256) % 256, (x / 65536) % 256, x / 16777216]
  }

  /** The value of four little-endian bytes. */
  function LeU32(b0: Byte, b1: Byte, b2: Byte, b3: Byte): (r: U32)
  {
    b0 + 256 * b1 + 65536 * b2 + 16777216 * b3
  }

  lemma DivModByte(lo: Byte, hi: int)
    ensures (lo + 256 * hi) % 256 == lo && (lo + 256 * hi) / 256 == hi
  {
  }

  /** Reading back the bytes LeBytes32 writes yields the original value, and conversely. */
  lemma LeRoundTrip(x: U32)
    ensures var b := LeBytes32(x); LeU32(b[0], b[1], b[2], b[3]) == x
  {
    var b := LeBytes32(x);
    var q1 := x / 256;
    var q2 := q1 / 256;
    assert x == b[0] + 256 * q1;
    assert q1 == b[1] + 256 * q2;
    assert x / 65536 == q2 by { assert x == b[0] + 256 * (b[1] + 256 * q2); }
    assert q2 == b[2] as int + 256 * b[3] as int;
  }

  lemma LeBytesOf(b0: Byte, b1: Byte, b2: Byte, b3: Byte)
    ensures LeBytes32(LeU32(b0, b1, b2, b3)) == [b0, b1, b2, b3]
  {
    var x := LeU32(b0, b1, b2, b3);
    var m2: int := b2 as int + 256 * b3 as int;
    var m1: int := b1 as int + 256 * m2;
    assert x == b0 + 256 * m1;
    DivModByte(b0, m1);
    DivModByte(b1, m2);
    DivModByte(b2, b3);
    assert x / 65536 == m2 by { assert x / 65536 == (x / 256) / 256; }
    assert x / 16777216 == b3 by { assert x / 16777216 == (x / 65536) / 256; }
  }

  /** The value of eight little-endian bytes (BitConverter.ToInt64 / a 64-bit BlockCopy). */
  function LeU64(b: seq<Byte>): (r: U64)
    requires |b| == 8
  {
    LeU32(b[0], b[1], b[2], b[3]) + 0x1_0000_0000 * LeU32(b[4], b[5], b[6], b[7])
  }
}
