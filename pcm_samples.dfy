// The sample encodings shared by the VBAN receiver and the WASAPI capture
// path: little-endian PCM of 16, 24 and 32 bits and IEEE-754 float32 and
// float64. A decoded sample keeps its integer value (or its bit pattern for
// the float encodings); the scaling of integers to floats (/32768, /2^23,
// /2^31) and the float64-to-float32 narrowing are floating point and are not
// part of this model.
module PcmSamples {
  import opened Base

  datatype Sample =
    | Pcm(value: int, bits: nat)   // a signed integer sample of `bits` bits, before normalisation
    | Ieee32(pattern: U32)         // a float32 sample, as its bit pattern
    | Ieee64(pattern64: U64)        // a float64 sample, as its bit pattern (before narrowing to float32)

  datatype Encoding = Float32 | Int16 | Int24 | Int32 | Float64

  /** Bytes per sample of each payload encoding. */
  function Width(e: Encoding): (w: nat)
    ensures 2 <= w <= 8
  {
    match e
    case Int16 => 2
    case Int24 => 3
    case Int32 => 4
    case Float32 => 4
    case Float64 => 8
  }

  /** `(short)(b0 | b1 << 8)`: a little-endian two's-complement 16-bit value. */
  function Int16Le(b0: Byte, b1: Byte): (v: int)
    ensures -0x8000 <= v < 0x8000
  {
    var u := b0 + 256 * b1;
    if u >= 0x8000 then u - 0x1_0000 else u
  }

  /** `b0 | b1 << 8 | b2 << 16`, sign-extended from bit 23. */
  function Int24Le(b0: Byte, b1: Byte, b2: Byte): (v: int)
    ensures -0x80_0000 <= v < 0x80_0000
  {
    var u := b0 + 256 * b1 + 65536 * b2;
    if u >= 0x80_0000 then u - 0x100_0000 else u
  }

  /** BitConverter.ToInt32 on a little-endian machine. */
  function Int32Le(b0: Byte, b1: Byte, b2: Byte, b3: Byte): (v: int)
    ensures IsInt32(v)
    ensures v % 0x1_0000_0000 == LeU32(b0, b1, b2, b3)
  {
    var u := LeU32(b0, b1, b2, b3);
    if u >= 0x8000_0000 then u - 0x1_0000_0000 else u
  }

  /** Int32Le reads back any 32-bit value from its two's-complement little-endian bytes, and those bytes from the value. */
  lemma Int32LeRoundTrip(x: int, b0: Byte, b1: Byte, b2: Byte, b3: Byte)
    requires IsInt32(x)
    ensures var b := LeBytes32(x % 0x1_0000_0000); Int32Le(b[0], b[1], b[2], b[3]) == x
    ensures LeBytes32(Int32Le(b0, b1, b2, b3) % 0x1_0000_0000) == [b0, b1, b2, b3]
  {
    LeRoundTrip(x % 0x1_0000_0000);
    LeBytesOf(b0, b1, b2, b3);
  }

  /** The i-th sample of a payload of encoding e. */
  function SampleAt(payload: seq<Byte>, e: Encoding, i: nat): Sample
    requires (i + 1) * Width(e) <= |payload|
  {
    var o := i * Width(e);
    match e
    case Int16 => Pcm(Int16Le(payload[o], payload[o + 1]), 16)
    case Int24 => Pcm(Int24Le(payload[o], payload[o + 1], payload[o + 2]), 24)
    case Int32 => Pcm(Int32Le(payload[o], payload[o + 1], payload[o + 2], payload[o + 3]), 32)
    case Float32 => Ieee32(LeU32(payload[o], payload[o + 1], payload[o + 2], payload[o + 3]))
    case Float64 => Ieee64(LeU64(payload[o..o + 8]))
  }

  lemma SampleFits(n: nat, w: nat, i: nat)
    requires w > 0 && i < n / w
    ensures (i + 1) * w <= n
  {
    assert (n / w) * w <= n;
    assert (i + 1) * w <= (n / w) * w;
  }

  /**
   * Every whole sample of a payload, decoded in order; trailing bytes that
   * do not make up a whole sample are ignored.
   */
  function Decode(payload: seq<Byte>, e: Encoding): (r: seq<Sample>)
    ensures |r| == |payload| / Width(e)
  {
    seq(|payload| / Width(e), i requires 0 <= i < |payload| / Width(e) =>
      SampleFits(|payload|, Width(e), i); SampleAt(payload, e, i))
  }

  /** The i-th decoded float32 sample is the little-endian word at byte 4i. */
  lemma Float32At(payload: seq<Byte>, i: nat)
    requires i < |payload| / 4
    ensures 4 * i + 4 <= |payload|
    ensures Decode(payload, Float32)[i] == Ieee32(LeU32(payload[4 * i], payload[4 * i + 1], payload[4 * i + 2], payload[4 * i + 3]))
  {
    SampleFits(|payload|, 4, i);
    assert Decode(payload, Float32)[i] == SampleAt(payload, Float32, i);
  }

  /** Half the range of a signed integer of the given width: 2^(bits-1). */
  function HalfRange(bits: nat): int
  {
    if bits == 16 then 0x8000 else if bits == 24 then 0x80_0000 else if bits == 32 then 0x8000_0000 else 0
  }

  /** A sample's integer value lies in the range of its width. */
  predicate InRange(s: Sample)
  {
    s.Pcm? ==> s.bits in {16, 24, 32} && -HalfRange(s.bits) <= s.value < HalfRange(s.bits)
  }

  /** Decoded integer samples always lie within their width, and the width matches the encoding. */
  lemma DecodeInRange(payload: seq<Byte>, e: Encoding, i: nat)
    requires i < |Decode(payload, e)|
    ensures InRange(Decode(payload, e)[i])
    ensures Decode(payload, e)[i].Pcm? <==> e in {Int16, Int24, Int32}
    ensures Decode(payload, e)[i].Pcm? ==> Decode(payload, e)[i].bits == 8 * Width(e)
  {
  }

  // ------------------------------------------------------------ reference encoders

  /** The little-endian two's-complement bytes of a value of `w` bytes. */
  function EncodeSigned(v: int, w: nat): (r: seq<Byte>)
    requires w >= 1
    ensures |r| == w
  {
    var u := if v < 0 then v + Pow256(w) else v;
    seq(w, k requires 0 <= k < w => (u / Pow256(k)) % 256)
  }

  function Pow256(k: nat): (p: nat)
    ensures p >= 1
  {
    if k == 0 then 1 else 256 * Pow256(k - 1)
  }

  function EncodeInt16s(vs: seq<int>): (r: seq<Byte>)
    ensures |r| == 2 * |vs|
  {
    if |vs| == 0 then [] else EncodeSigned(vs[0], 2) + EncodeInt16s(vs[1..])
  }

  /** 16-bit PCM written by the reference encoder decodes back to the same values. */
  lemma {:induction false} Int16RoundTrip(vs: seq<int>)
    requires forall i :: 0 <= i < |vs| ==> -0x8000 <= vs[i] < 0x8000
    ensures Decode(EncodeInt16s(vs), Int16) == seq(|vs|, i requires 0 <= i < |vs| => Pcm(vs[i], 16))
  {
    var bytes := EncodeInt16s(vs);
    var d := Decode(bytes, Int16);
    forall i | 0 <= i < |vs|
      ensures d[i] == Pcm(vs[i], 16)
    {
      EncodeInt16sAt(vs, i);
      Int16OfEncoded(vs[i]);
    }
  }

  lemma {:induction false} EncodeInt16sAt(vs: seq<int>, i: nat)
    requires i < |vs|
    ensures EncodeInt16s(vs)[2 * i..2 * i + 2] == EncodeSigned(vs[i], 2)
  {
    if i > 0 {
      EncodeInt16sAt(vs[1..], i - 1);
      assert EncodeInt16s(vs) == EncodeSigned(vs[0], 2) + EncodeInt16s(vs[1..]);
      assert EncodeInt16s(vs)[2 * i..2 * i + 2] == EncodeInt16s(vs[1..])[2 * (i - 1)..2 * (i - 1) + 2];
    }
  }

  lemma Int16OfEncoded(v: int)
    requires -0x8000 <= v < 0x8000
    ensures var b := EncodeSigned(v, 2); Int16Le(b[0], b[1]) == v
  {
    var b := EncodeSigned(v, 2);
    assert Pow256(1) == 256 && Pow256(2) == 0x1_0000;
    var u := if v < 0 then v + 0x1_0000 else v;
    var q := u / 256;
    assert 0 <= q < 256 && u == 256 * q + u % 256;
    assert b[0] == u % 256 && b[1] == q;
  }

  lemma Int24OfEncoded(v: int)
    requires -0x80_0000 <= v < 0x80_0000
    ensures var b := EncodeSigned(v, 3); Int24Le(b[0], b[1], b[2]) == v
  {
    var b := EncodeSigned(v, 3);
    assert Pow256(1) == 256 && Pow256(2) == 0x1_0000 && Pow256(3) == 0x100_0000;
    var u := if v < 0 then v + 0x100_0000 else v;
    var q := u / 256;
    var q2 := q / 256;
    assert u == 256 * q + u % 256;
    assert q == 256 * q2 + q % 256;
    assert 0 <= q2 < 256;
    DivByConstant(u, q2, 256 * (q % 256) + u % 256);
    assert q2 % 256 == q2;
    assert b[0] == u % 256;
    assert b[1] == q % 256;
    assert b[2] == (u / 0x1_0000) % 256;
  }

  lemma DivByConstant(u: int, q: int, r: int)
    requires 0 <= r < 65536 && u == 65536 * q + r
    ensures u / 65536 == q
  {
  }
}
