// How the sender's header and payload read back through the receiver's
// parser: what survives exactly, what is saturated or folded on the way.
module VbanRoundTrip {
  import opened Base
  import opened Text
  import opened PcmSamples
  import opened VbanTx
  import opened VbanPacket
  import opened VbanRx
  import opened WaveFormats

  /** The stream name a receiver reads from the name field the sender writes. */
  function ReceivedName(streamName: Option<string>): string
  {
    TrimEndWhere(AsciiString(NameField(streamName)), NulOrSpace)
  }

  /** The header a receiver parses from any header the sender writes, field by field. */
  function ParsedHeader(sampleRate: int, channels: int, samplesPerChannel: int, dataType: int, codec: int,
                        streamName: Option<string>, frameCounter: U32): Header
  {
    Header(
      sampleRate := SR_LIST[GetSampleRateIndex(sampleRate)],
      channels := Clamp(channels, 1, 256),
      samplesPerFrame := Clamp(samplesPerChannel, 1, 256),
      dataType := dataType % 8,
      codec := ((codec % 256) / 16) * 16,
      subProtocol := 0,
      streamName := ReceivedName(streamName),
      frameCounter := frameCounter)
  }

  /**
   * Every header WriteHeader produces parses, whatever follows it: the
   * rate falls back to 48000 when it is not in the table, the counts
   * saturate to 1..256, the type and codec keep their bit fields, and the
   * frame counter survives exactly.
   */
  lemma HeaderRoundTrip(sampleRate: int, channels: int, samplesPerChannel: int, dataType: int, codec: int,
                        streamName: Option<string>, frameCounter: U32, payload: seq<Byte>)
    ensures TryParseHeader(HeaderBytes(sampleRate, channels, samplesPerChannel, dataType, codec, streamName, frameCounter) + payload)
         == Some(ParsedHeader(sampleRate, channels, samplesPerChannel, dataType, codec, streamName, frameCounter))
  {
    var h := HeaderBytes(sampleRate, channels, samplesPerChannel, dataType, codec, streamName, frameCounter);
    var buf := h + payload;
    HeaderLayout(sampleRate, channels, samplesPerChannel, dataType, codec, streamName, frameCounter);
    assert buf[..4] == h[..4] && buf[8..24] == h[8..24];
    assert buf[4] == h[4] && buf[5] == h[5] && buf[6] == h[6] && buf[7] == h[7];
    assert buf[24] == h[24] && buf[25] == h[25] && buf[26] == h[26] && buf[27] == h[27];
    var idx := GetSampleRateIndex(sampleRate);
    assert h[4] % 32 == idx by { SmallMod(idx); }
    ParseFields(buf);
    assert SR_LIST[buf[4] % 32] == SR_LIST[idx];
    assert TrimEndWhere(AsciiString(buf[8..24]), NulOrSpace) == ReceivedName(streamName);
    var b7: int := h[7];
    assert b7 % 8 == dataType % 8 && b7 - b7 % 16 == ((codec % 256) / 16) * 16 by {
      assert b7 == ((codec % 256) / 16) * 16 + dataType % 8;
    }
    assert buf[4] - buf[4] % 32 == 0;
    assert LeU32(buf[24], buf[25], buf[26], buf[27]) == frameCounter by {
      LeRoundTrip(frameCounter);
    }
  }

  lemma SmallMod(x: nat)
    requires x < 32
    ensures x % 32 == x
  {
  }

  /** Where WriteHeader puts each field. */
  lemma HeaderLayout(sampleRate: int, channels: int, samplesPerChannel: int, dataType: int, codec: int,
                     streamName: Option<string>, frameCounter: U32)
    ensures var h := HeaderBytes(sampleRate, channels, samplesPerChannel, dataType, codec, streamName, frameCounter);
            && h[..4] == ['V' as int, 'B' as int, 'A' as int, 'N' as int]
            && h[4] == GetSampleRateIndex(sampleRate)
            && h[5] as int + 1 == Clamp(samplesPerChannel, 1, 256)
            && h[6] as int + 1 == Clamp(channels, 1, 256)
            && h[7] == FormatBit(codec, dataType)
            && h[8..24] == NameField(streamName)
            && [h[24], h[25], h[26], h[27]] == LeBytes32(frameCounter)
  {
  }

  /** TryParseHeader on a buffer whose magic and rate index are valid, field by field. */
  lemma ParseFields(buf: seq<Byte>)
    requires |buf| >= HEADER_SIZE && buf[..4] == ['V' as int, 'B' as int, 'A' as int, 'N' as int] && buf[4] % 32 < |SR_LIST|
    ensures TryParseHeader(buf) == Some(Header(
      SR_LIST[buf[4] % 32], buf[6] as int + 1, buf[5] as int + 1, buf[7] % 8, buf[7] - buf[7] % 16,
      buf[4] - buf[4] % 32, TrimEndWhere(AsciiString(buf[8..24]), NulOrSpace), LeU32(buf[24], buf[25], buf[26], buf[27])))
  {
    assert buf[0] == 'V' as int && buf[1] == 'B' as int && buf[2] == 'A' as int && buf[3] == 'N' as int;
  }

  /** Trailing NULs appended to text are exactly what TrimEnd('\0', ' ') removes first. */
  lemma {:induction false} TailCountPadding(x: string, m: nat)
    ensures TailCount(x + seq(m, _ => '\0'), NulOrSpace) == m + TailCount(x, NulOrSpace)
  {
    var padded := x + seq(m, _ => '\0');
    if m > 0 {
      assert IsNulOrSpace(padded[|padded| - 1]);
      assert padded[..|padded| - 1] == x + seq(m - 1, _ => '\0');
      TailCountPadding(x, m - 1);
    } else {
      assert padded == x;
    }
  }

  /**
   * A name of at most 16 ASCII characters that does not end in NUL or
   * space reaches the receiver unchanged.
   */
  lemma NameRoundTrip(name: string)
    requires |name| <= 16
    requires forall i :: 0 <= i < |name| ==> name[i] as int < 128
    requires |name| > 0 ==> !IsNulOrSpace(name[|name| - 1])
    ensures ReceivedName(Some(name)) == name
  {
    var field := NameField(Some(name));
    var text := AsciiString(field);
    var pad := seq(16 - |name|, _ => '\0');
    assert text == name + pad;
    TailCountPadding(name, 16 - |name|);
    assert TailCount(name, NulOrSpace) == 0;
  }

  /** Exact recovery: a header with in-range fields parses back to the very same fields. */
  lemma HeaderExact(sampleRate: int, channels: int, samplesPerChannel: int, dataType: int, codec: int,
                    name: string, frameCounter: U32, payload: seq<Byte>)
    requires sampleRate in SR_LIST && 1 <= channels <= 256 && 1 <= samplesPerChannel <= 256
    requires 0 <= dataType < 8 && 0 <= codec < 256 && codec % 16 == 0
    requires |name| <= 16 && (forall i :: 0 <= i < |name| ==> name[i] as int < 128)
    requires |name| > 0 ==> !IsNulOrSpace(name[|name| - 1])
    ensures TryParseHeader(HeaderBytes(sampleRate, channels, samplesPerChannel, dataType, codec, Some(name), frameCounter) + payload)
         == Some(Header(sampleRate, channels, samplesPerChannel, dataType, codec, 0, name, frameCounter))
  {
    HeaderRoundTrip(sampleRate, channels, samplesPerChannel, dataType, codec, Some(name), frameCounter, payload);
    ParsedHeaderExact(sampleRate, channels, samplesPerChannel, dataType, codec, name, frameCounter);
  }

  /** With in-range fields, nothing of the header is saturated, folded or trimmed. */
  lemma ParsedHeaderExact(sampleRate: int, channels: int, samplesPerChannel: int, dataType: int, codec: int,
                          name: string, frameCounter: U32)
    requires sampleRate in SR_LIST && 1 <= channels <= 256 && 1 <= samplesPerChannel <= 256
    requires 0 <= dataType < 8 && 0 <= codec < 256 && codec % 16 == 0
    requires |name| <= 16 && (forall i :: 0 <= i < |name| ==> name[i] as int < 128)
    requires |name| > 0 ==> !IsNulOrSpace(name[|name| - 1])
    ensures ParsedHeader(sampleRate, channels, samplesPerChannel, dataType, codec, Some(name), frameCounter)
         == Header(sampleRate, channels, samplesPerChannel, dataType, codec, 0, name, frameCounter)
  {
    SampleRateIndexAgrees(sampleRate);
    NameRoundTrip(name);
    AlignedCodec(codec);
  }

  lemma AlignedCodec(codec: int)
    requires 0 <= codec < 256 && codec % 16 == 0
    ensures ((codec % 256) / 16) * 16 == codec
  {
    assert codec % 256 == codec;
    assert codec == (codec / 16) * 16 + codec % 16;
  }

  /** The float32 payload the sender copies out reads back as the same bit patterns, in order. */
  lemma Float32PayloadRoundTrip(frame: seq<U32>)
    ensures Decode(Float32Payload(frame), Float32) == seq(|frame|, i requires 0 <= i < |frame| => Ieee32(frame[i]))
  {
    var bytes := Float32Payload(frame);
    var d := Decode(bytes, Float32);
    forall i | 0 <= i < |frame|
      ensures d[i] == Ieee32(frame[i])
    {
      PayloadWord(frame, i);
      Float32At(bytes, i);
      LeRoundTrip(frame[i]);
    }
  }

  /** The four payload bytes of sample i are that sample's little-endian bytes. */
  lemma PayloadWord(frame: seq<U32>, i: nat)
    requires i < |frame|
    ensures var bytes := Float32Payload(frame); var b := LeBytes32(frame[i]);
            bytes[4 * i] == b[0] && bytes[4 * i + 1] == b[1] && bytes[4 * i + 2] == b[2] && bytes[4 * i + 3] == b[3]
  {
    assert (4 * i) / 4 == i && (4 * i) % 4 == 0;
    assert (4 * i + 1) / 4 == i && (4 * i + 1) % 4 == 1;
    assert (4 * i + 2) / 4 == i && (4 * i + 2) % 4 == 2;
    assert (4 * i + 3) / 4 == i && (4 * i + 3) % 4 == 3;
  }

  /**
   * A packet the sender builds announces the frame's samples per channel
   * only up to 256: any frame longer than that per channel is announced
   * as 256.
   */
  lemma FrameSizeSaturates(frame: seq<U32>, sampleRate: int, channels: int, streamName: Option<string>, frameCounter: U32)
    requires 1 <= channels <= 256
    ensures var packet := Float32Packet(frame, sampleRate, channels, streamName, frameCounter);
            |packet| >= HEADER_SIZE && TryParseHeader(packet).Some? &&
            TryParseHeader(packet).value.samplesPerFrame == Clamp(|frame| / channels, 1, 256)
    ensures |frame| / channels > 256 ==>
            TryParseHeader(Float32Packet(frame, sampleRate, channels, streamName, frameCounter)).value.samplesPerFrame < |frame| / channels
  {
    HeaderRoundTrip(sampleRate, channels, |frame| / Max(1, channels), DATA_TYPE_FLOAT32, CODEC_PCM, streamName, frameCounter, Float32Payload(frame));
  }

  /**
   * End to end: a float32 frame the sender transmits under a clean ASCII
   * name reaches a receiver listening for that name (in any letter case)
   * as the same sample bit patterns, and locks the receiver's format to
   * 32-bit float at the announced rate and channel count.
   */
  lemma SenderFrameDelivered(frame: seq<U32>, sampleRate: int, channels: int, name: string, frameCounter: U32,
                             expectedIp: Option<string>, streamName: string, from: string, current: Option<WaveFormat>)
    requires |frame| > 0 && 1 <= channels <= 256
    requires |name| <= 16 && (forall i :: 0 <= i < |name| ==> name[i] as int < 128)
    requires |name| > 0 ==> !IsNulOrSpace(name[|name| - 1])
    requires EqualsIgnoreCase(name, streamName) && SenderAllowed(expectedIp, from)
    ensures var d := Datagram(from, Float32Packet(frame, sampleRate, channels, Some(name), frameCounter));
            Classify(expectedIp, streamName, d) == Delivered(seq(|frame|, i requires 0 <= i < |frame| => Ieee32(frame[i])))
            && FormatAfter(current, expectedIp, streamName, d) == Some(WaveFormat(SR_LIST[GetSampleRateIndex(sampleRate)], channels, IeeeFloat, 32))
  {
    var payload := Float32Payload(frame);
    var packet := Float32Packet(frame, sampleRate, channels, Some(name), frameCounter);
    var d := Datagram(from, packet);
    var h := ParsedHeader(sampleRate, channels, |frame| / Max(1, channels), DATA_TYPE_FLOAT32, CODEC_PCM, Some(name), frameCounter);
    HeaderRoundTrip(sampleRate, channels, |frame| / Max(1, channels), DATA_TYPE_FLOAT32, CODEC_PCM, Some(name), frameCounter, payload);
    assert HeaderOf(packet) == Some(h);
    NameRoundTrip(name);
    assert h.streamName == name && h.subProtocol == 0 && h.codec == 0 && h.dataType == DATA_TYPE_FLOAT32 && h.channels == channels;
    assert Admitted(expectedIp, streamName, d);
    assert PayloadSamples(d) == seq(|frame|, i requires 0 <= i < |frame| => Ieee32(frame[i])) by {
      assert packet[HEADER_SIZE..] == payload;
      Float32PayloadRoundTrip(frame);
    }
  }
}
