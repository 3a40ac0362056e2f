// VbanPacket: parsing the 28-byte VBAN header and decoding the payload of a
// received datagram into interleaved samples.
module VbanPacket {
  import opened Base
  import opened Text
  import opened PcmSamples
  import VbanTx

  datatype Header = Header(
    sampleRate: int,
    channels: int,
    samplesPerFrame: int,
    dataType: int,
    codec: int,
    subProtocol: int,
    streamName: string,
    frameCounter: U32)

  /** Encoding.ASCII.GetString: bytes above 0x7F decode as '?'. */
  function AsciiString(bytes: seq<Byte>): (r: string)
    ensures |r| == |bytes|
  {
    seq(|bytes|, i requires 0 <= i < |bytes| => if bytes[i] < 128 then bytes[i] as char else '?')
  }

  predicate IsNulOrSpace(c: char) { c == '\0' || c == ' ' }

  /** TryParseHeader: None for a wrong magic or a sample-rate index outside the table. */
  function TryParseHeader(buf: seq<Byte>): (r: Option<Header>)
    requires |buf| >= VbanTx.HEADER_SIZE
    ensures r.Some? <==> buf[..4] == ['V' as int, 'B' as int, 'A' as int, 'N' as int] && buf[4] % 32 < |VbanTx.SR_LIST|
    ensures r.Some? ==> 1 <= r.value.channels <= 256 && 1 <= r.value.samplesPerFrame <= 256
    ensures r.Some? ==> 0 <= r.value.dataType < 8 && |r.value.streamName| <= 16
  {
    if buf[0] != 'V' as int || buf[1] != 'B' as int || buf[2] != 'A' as int || buf[3] != 'N' as int then None
    else
      var srIndex := buf[4] % 32;
      var subProto := buf[4] - buf[4] % 32;
      if srIndex >= |VbanTx.SR_LIST| then None
      else
        Some(Header(
          sampleRate := VbanTx.SR_LIST[srIndex],
          channels := buf[6] as int + 1,
          samplesPerFrame := buf[5] as int + 1,
          dataType := buf[7] % 8,
          codec := buf[7] - buf[7] % 16,
          subProtocol := subProto,
          streamName := TrimEndWhere(AsciiString(buf[8..24]), NulOrSpace),
          frameCounter := LeU32(buf[24], buf[25], buf[26], buf[27])))
  }

  /** A parsed header always carries one of the 21 rates of the table. */
  lemma ParsedRateListed(buf: seq<Byte>)
    requires |buf| >= VbanTx.HEADER_SIZE && TryParseHeader(buf).Some?
    ensures TryParseHeader(buf).value.sampleRate in VbanTx.SR_LIST
  {
  }

  /** The payload encoding a header's data-type field names; 0, 6 and 7 are not decoded. */
  function EncodingOf(dataType: int): Option<Encoding>
  {
    if dataType == 0x04 then Some(Float32)
    else if dataType == 0x01 then Some(Int16)
    else if dataType == 0x02 then Some(Int24)
    else if dataType == 0x03 then Some(Int32)
    else if dataType == 0x05 then Some(Float64)
    else None
  }

  /** What DecodePayloadToFloat yields for a payload. */
  function DecodedPayload(payload: seq<Byte>, dataType: int): seq<Sample>
  {
    match EncodingOf(dataType)
    case None => []
    case Some(e) => Decode(payload, e)
  }

  predicate PayloadInBounds(buf: seq<Byte>, offset: int, bytes: int)
  {
    0 <= offset && (bytes > 0 ==> offset + bytes <= |buf|)
  }

  /** DecodePayloadToFloat: dispatch on the data type. */
  method DecodePayloadToFloat(buf: seq<Byte>, offset: int, bytes: int, dataType: int) returns (r: seq<Sample>)
    requires PayloadInBounds(buf, offset, bytes)
    ensures bytes <= 0 ==> r == []
    ensures bytes > 0 ==> r == DecodedPayload(buf[offset..offset + bytes], dataType)
  {
    if bytes <= 0 {
      return [];
    }
    if dataType == 0x04 {
      r := DecodeFloat32(buf, offset, bytes);
    } else if dataType == 0x01 {
      r := DecodeInt16(buf, offset, bytes);
    } else if dataType == 0x02 {
      r := DecodeInt24(buf, offset, bytes);
    } else if dataType == 0x03 {
      r := DecodeInt32(buf, offset, bytes);
    } else if dataType == 0x05 {
      r := DecodeFloat64ToFloat32(buf, offset, bytes);
    } else {
      r := [];
    }
  }

  /** DecodeFloat32: a block copy of whole 4-byte groups. */
  method DecodeFloat32(buf: seq<Byte>, offset: int, bytes: int) returns (r: seq<Sample>)
    requires bytes > 0 && PayloadInBounds(buf, offset, bytes)
    ensures r == Decode(buf[offset..offset + bytes], Float32)
  {
    var samples := bytes / 4;
    if samples <= 0 {
      return [];
    }
    ghost var payload := buf[offset..offset + bytes];
    var floats := new Sample[samples];
    forall k | 0 <= k < samples {
      floats[k] := Ieee32(LeU32(buf[offset + 4 * k], buf[offset + 4 * k + 1], buf[offset + 4 * k + 2], buf[offset + 4 * k + 3]));
    }
    r := floats[..];
    forall k | 0 <= k < samples
      ensures r[k] == Decode(payload, Float32)[k]
    {
      SampleFits(bytes, 4, k);
    }
  }

  /** DecodeInt16: `(short)(lo | hi << 8)` per sample. */
  method DecodeInt16(buf: seq<Byte>, offset: int, bytes: int) returns (r: seq<Sample>)
    requires bytes > 0 && PayloadInBounds(buf, offset, bytes)
    ensures r == Decode(buf[offset..offset + bytes], Int16)
  {
    var samples := bytes / 2;
    if samples <= 0 {
      return [];
    }
    ghost var payload := buf[offset..offset + bytes];
    var floats := new Sample[samples];
    var o := offset;
    var i := 0;
    while i < samples
      invariant 0 <= i <= samples && o == offset + 2 * i
      invariant forall k :: 0 <= k < i ==> floats[k] == Decode(payload, Int16)[k]
    {
      SampleFits(bytes, 2, i);
      floats[i] := Pcm(Int16Le(buf[o], buf[o + 1]), 16);
      o := o + 2;
      i := i + 1;
    }
    r := floats[..];
  }

  /** DecodeInt24: three bytes, sign-extended from bit 23. */
  method DecodeInt24(buf: seq<Byte>, offset: int, bytes: int) returns (r: seq<Sample>)
    requires bytes > 0 && PayloadInBounds(buf, offset, bytes)
    ensures r == Decode(buf[offset..offset + bytes], Int24)
  {
    var samples := bytes / 3;
    if samples <= 0 {
      return [];
    }
    ghost var payload := buf[offset..offset + bytes];
    var floats := new Sample[samples];
    var o := offset;
    var i := 0;
    while i < samples
      invariant 0 <= i <= samples && o == offset + 3 * i
      invariant forall k :: 0 <= k < i ==> floats[k] == Decode(payload, Int24)[k]
    {
      SampleFits(bytes, 3, i);
      floats[i] := Pcm(Int24Le(buf[o], buf[o + 1], buf[o + 2]), 24);
      o := o + 3;
      i := i + 1;
    }
    r := floats[..];
  }

  /** DecodeInt32: BitConverter.ToInt32 per sample. */
  method DecodeInt32(buf: seq<Byte>, offset: int, bytes: int) returns (r: seq<Sample>)
    requires bytes > 0 && PayloadInBounds(buf, offset, bytes)
    ensures r == Decode(buf[offset..offset + bytes], Int32)
  {
    var samples := bytes / 4;
    if samples <= 0 {
      return [];
    }
    ghost var payload := buf[offset..offset + bytes];
    var floats := new Sample[samples];
    var o := offset;
    var i := 0;
    while i < samples
      invariant 0 <= i <= samples && o == offset + 4 * i
      invariant forall k :: 0 <= k < i ==> floats[k] == Decode(payload, Int32)[k]
    {
      SampleFits(bytes, 4, i);
      floats[i] := Pcm(Int32Le(buf[o], buf[o + 1], buf[o + 2], buf[o + 3]), 32);
      o := o + 4;
      i := i + 1;
    }
    r := floats[..];
  }

  /** DecodeFloat64ToFloat32: BitConverter.ToDouble per sample (the clamp and narrowing are floating point). */
  method DecodeFloat64ToFloat32(buf: seq<Byte>, offset: int, bytes: int) returns (r: seq<Sample>)
    requires bytes > 0 && PayloadInBounds(buf, offset, bytes)
    ensures r == Decode(buf[offset..offset + bytes], Float64)
  {
    var samples := bytes / 8;
    if samples <= 0 {
      return [];
    }
    ghost var payload := buf[offset..offset + bytes];
    var floats := new Sample[samples];
    var o := offset;
    var i := 0;
    while i < samples
      invariant 0 <= i <= samples && o == offset + 8 * i
      invariant forall k :: 0 <= k < i ==> floats[k] == Decode(payload, Float64)[k]
    {
      Float64At(buf, offset, bytes, i);
      floats[i] := Ieee64(LeU64(buf[o..o + 8]));
      o := o + 8;
      i := i + 1;
    }
    r := floats[..];
  }

  lemma Float64At(buf: seq<Byte>, offset: int, bytes: int, i: nat)
    requires bytes > 0 && PayloadInBounds(buf, offset, bytes) && i < bytes / 8
    ensures offset + 8 * i + 8 <= |buf|
    ensures Decode(buf[offset..offset + bytes], Float64)[i] == Ieee64(LeU64(buf[offset + 8 * i..offset + 8 * i + 8]))
  {
    SampleFits(bytes, 8, i);
    var payload := buf[offset..offset + bytes];
    var o := 8 * i;
    assert o + 8 <= bytes;
    SliceOfSlice(buf, offset, offset + bytes, o, o + 8);
    assert i * Width(Float64) == o;
    assert Decode(payload, Float64)[i] == SampleAt(payload, Float64, i);
    assert SampleAt(payload, Float64, i) == Ieee64(LeU64(payload[o..o + 8]));
  }

  lemma SliceOfSlice(s: seq<Byte>, a: nat, b: nat, c: nat, d: nat)
    requires a <= b <= |s| && c <= d <= b - a
    ensures s[a..b][c..d] == s[a + c..a + d]
  {
    var x := s[a..b][c..d];
    var y := s[a + c..a + d];
    assert |x| == |y|;
    forall j | 0 <= j < |x|
      ensures x[j] == y[j]
    {
    }
  }
}
