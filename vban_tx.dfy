// The VBAN sender: the 28-byte VBAN AUDIO header, the sample-rate table
// lookup and the float32 packets of VbanTxEngine.
module VbanTx {
  import opened Base
  import Endpoints

  const HEADER_SIZE: nat := 28
  const DATA_TYPE_FLOAT32: int := 0x04
  const CODEC_PCM: int := 0x00

  /** The VBAN sample-rate table; a header carries an index into it. */
  const SR_LIST: seq<int> := [
    6000, 12000, 24000, 48000, 96000, 192000, 384000,
    8000, 16000, 32000, 64000, 128000, 256000, 512000,
    11025, 22050, 44100, 88200, 176400, 352800, 705600]

  /** GetSampleRateIndex: the table index of a rate; rates outside the table fall back to 48000 (index 3). */
  function GetSampleRateIndex(sampleRate: int): (idx: nat)
    ensures idx < |SR_LIST|
  {
    if sampleRate == 6000 then 0
    else if sampleRate == 12000 then 1
    else if sampleRate == 24000 then 2
    else if sampleRate == 48000 then 3
    else if sampleRate == 96000 then 4
    else if sampleRate == 192000 then 5
    else if sampleRate == 384000 then 6
    else if sampleRate == 8000 then 7
    else if sampleRate == 16000 then 8
    else if sampleRate == 32000 then 9
    else if sampleRate == 64000 then 10
    else if sampleRate == 128000 then 11
    else if sampleRate == 256000 then 12
    else if sampleRate == 512000 then 13
    else if sampleRate == 11025 then 14
    else if sampleRate == 22050 then 15
    else if sampleRate == 44100 then 16
    else if sampleRate == 88200 then 17
    else if sampleRate == 176400 then 18
    else if sampleRate == 352800 then 19
    else if sampleRate == 705600 then 20
    else 3
  }

  /** The switch agrees with the table: a listed rate maps to its own position, any other rate to 48000's. */
  lemma SampleRateIndexAgrees(sampleRate: int)
    ensures sampleRate in SR_LIST ==> SR_LIST[GetSampleRateIndex(sampleRate)] == sampleRate
    ensures sampleRate !in SR_LIST ==> GetSampleRateIndex(sampleRate) == 3 && SR_LIST[3] == 48000
  {
  }

  /** Encoding.ASCII.GetBytes: every character above U+007F becomes '?'. */
  function AsciiBytes(s: string): (r: seq<Byte>)
    ensures |r| == |s|
    ensures forall i :: 0 <= i < |s| ==> r[i] < 128
  {
    seq(|s|, i requires 0 <= i < |s| => if s[i] as int < 128 then s[i] as int else '?' as int)
  }

  /** The 16-byte stream-name field: at most 16 ASCII bytes of the name, NUL-padded. */
  function NameField(streamName: Option<string>): (r: seq<Byte>)
    ensures |r| == 16
  {
    var bytes := AsciiBytes(if streamName.Some? then streamName.value else "");
    var n := Min(16, |bytes|);
    bytes[..n] + seq(16 - n, _ => 0)
  }

  /** `(codec & 0xF0) | (dataType & 0x07)` on two's-complement ints. */
  function FormatBit(codec: int, dataType: int): (b: Byte)
    ensures b % 8 == dataType % 8 && b / 16 == (codec % 256) / 16
    ensures b % 16 < 8
  {
    ((codec % 256) / 16) * 16 + dataType % 8
  }

  /** Bytes 0..7 of a header: the magic "VBAN" and the four format bytes. */
  function FormatBytes(sampleRate: int, channels: int, samplesPerChannel: int, dataType: int, codec: int): (r: seq<Byte>)
    ensures |r| == 8
  {
    ['V' as int, 'B' as int, 'A' as int, 'N' as int,
     GetSampleRateIndex(sampleRate),
     Clamp(samplesPerChannel, 1, 256) - 1,
     Clamp(channels, 1, 256) - 1,
     FormatBit(codec, dataType)]
  }

  /** The header WriteHeader writes, byte by byte. */
  function HeaderBytes(sampleRate: int, channels: int, samplesPerChannel: int, dataType: int, codec: int,
                       streamName: Option<string>, frameCounter: U32): (r: seq<Byte>)
    ensures |r| == HEADER_SIZE
  {
    FormatBytes(sampleRate, channels, samplesPerChannel, dataType, codec) + NameField(streamName) + LeBytes32(frameCounter)
  }

  /** WriteHeader: fills the first 28 bytes of `packet` and leaves the payload area alone. */
  method WriteHeader(packet: array<Byte>, sampleRate: int, channels: int, samplesPerChannel: int,
                     dataType: int, codec: int, streamName: Option<string>, frameCounter: U32)
    requires packet.Length >= HEADER_SIZE
    modifies packet
    ensures packet[..HEADER_SIZE] == HeaderBytes(sampleRate, channels, samplesPerChannel, dataType, codec, streamName, frameCounter)
    ensures packet[HEADER_SIZE..] == old(packet[HEADER_SIZE..])
  {
    WriteFormat(packet, sampleRate, channels, samplesPerChannel, dataType, codec);
    ghost var format := packet[..8];
    WriteNameField(packet, streamName);
    assert packet[..8] == format;
    ghost var name := packet[8..24];
    WriteCounter(packet, frameCounter);
    assert packet[..8] == format && packet[8..24] == name;
    assert packet[..HEADER_SIZE] == packet[..8] + packet[8..24] + packet[24..HEADER_SIZE];
  }

  /** The format part of WriteHeader: bytes 0..7, the rest of the packet untouched. */
  method WriteFormat(packet: array<Byte>, sampleRate: int, channels: int, samplesPerChannel: int, dataType: int, codec: int)
    requires packet.Length >= HEADER_SIZE
    modifies packet
    ensures packet[..8] == FormatBytes(sampleRate, channels, samplesPerChannel, dataType, codec)
    ensures forall k :: 8 <= k < packet.Length ==> packet[k] == old(packet[k])
  {
    packet[0] := 'V' as int;
    packet[1] := 'B' as int;
    packet[2] := 'A' as int;
    packet[3] := 'N' as int;
    var srIndex := GetSampleRateIndex(sampleRate);
    packet[4] := srIndex % 32;
    var nbs := Clamp(samplesPerChannel, 1, 256);
    packet[5] := nbs - 1;
    var nbc := Clamp(channels, 1, 256);
    packet[6] := nbc - 1;
    packet[7] := FormatBit(codec, dataType);
  }

  /** The frame-counter part of WriteHeader: bytes 24..27, least significant first. */
  method WriteCounter(packet: array<Byte>, frameCounter: U32)
    requires packet.Length >= HEADER_SIZE
    modifies packet
    ensures packet[24..HEADER_SIZE] == LeBytes32(frameCounter)
    ensures forall k :: 0 <= k < packet.Length && !(24 <= k < HEADER_SIZE) ==> packet[k] == old(packet[k])
  {
    var fc := LeBytes32(frameCounter);
    packet[24] := fc[0];
    packet[25] := fc[1];
    packet[26] := fc[2];
    packet[27] := fc[3];
  }

  /** The name part of WriteHeader: bytes 8..23, the rest of the packet untouched. */
  method WriteNameField(packet: array<Byte>, streamName: Option<string>)
    requires packet.Length >= HEADER_SIZE
    modifies packet
    ensures packet[8..24] == NameField(streamName)
    ensures forall k :: 0 <= k < packet.Length && !(8 <= k < 24) ==> packet[k] == old(packet[k])
  {
    ghost var name := NameField(streamName);
    var nameBytes := AsciiBytes(if streamName.Some? then streamName.value else "");
    var n := Min(16, |nameBytes|);
    assert forall k :: 0 <= k < n ==> name[k] == nameBytes[k];
    forall k | 0 <= k < n {
      packet[8 + k] := nameBytes[k];
    }
    var i := 8 + n;
    while i < 24
      invariant 8 + n <= i <= 24
      invariant forall k :: 8 <= k < i ==> packet[k] == name[k - 8]
      invariant forall k :: 0 <= k < packet.Length && !(8 <= k < 24) ==> packet[k] == old(packet[k])
    {
      packet[i] := 0;
      i := i + 1;
    }
  }

  /** The payload of a float32 frame: each sample's bit pattern, least significant byte first. */
  function Float32Payload(samples: seq<U32>): (r: seq<Byte>)
    ensures |r| == 4 * |samples|
  {
    seq(4 * |samples|, k requires 0 <= k < 4 * |samples| => LeBytes32(samples[k / 4])[k % 4])
  }

  /** The whole datagram for `sampleCount` interleaved float32 samples. */
  function Float32Packet(frame: seq<U32>, sampleRate: int, channels: int,
                         streamName: Option<string>, frameCounter: U32): seq<Byte>
  {
    HeaderBytes(sampleRate, channels, PerChannel(|frame|, channels), DATA_TYPE_FLOAT32, CODEC_PCM, streamName, frameCounter)
    + Float32Payload(frame)
  }

  function PerChannel(count: int, channels: int): int
  {
    count / Max(1, channels)
  }

  datatype SendOutcome =
    | Skipped      // sampleCount <= 0: nothing happens
    | Sent         // the datagram was handed to the socket
    | CopyFailed   // BlockCopy threw because sampleCount exceeds the array; the counter has already advanced

  /** The IPEndPoint the datagrams go to: the parsed remote address and the port. */
  datatype RemoteEndPoint = RemoteEndPoint(address: string, port: int)

  /**
   * The sending side of a VBAN stream. `sent` stands for the datagrams
   * handed to the UDP socket, in order, all addressed to `remote`.
   */
  class VbanTxEngine {
    const streamName: Option<string>
    const remote: RemoteEndPoint
    var frameCounter: U32
    var sent: seq<seq<Byte>>

    /** The constructor once IPAddress.Parse has accepted the remote address. */
    constructor (streamName: Option<string>, remote: RemoteEndPoint)
      ensures this.streamName == streamName && this.remote == remote && frameCounter == 0 && sent == []
    {
      this.streamName := streamName;
      this.remote := remote;
      frameCounter := 0;
      sent := [];
    }

    /**
     * SendInterleavedFloat32Frame: one datagram carrying the first
     * `sampleCount` samples; every attempt that gets as far as the header
     * consumes one frame number, wrapping at 2^32.
     */
    method SendInterleavedFloat32Frame(interleaved: seq<U32>, sampleCount: int, sampleRate: int, channels: int)
      returns (outcome: SendOutcome)
      modifies this
      ensures sampleCount <= 0 ==> outcome == Skipped
      ensures sampleCount > |interleaved| ==> outcome == CopyFailed
      ensures 0 < sampleCount <= |interleaved| ==> outcome == Sent
      ensures outcome == Skipped ==> frameCounter == old(frameCounter)
      ensures outcome != Skipped ==> frameCounter == WrapIncU32(old(frameCounter))
      ensures outcome == Sent ==>
        sent == old(sent) + [Float32Packet(interleaved[..sampleCount], sampleRate, channels, streamName, old(frameCounter))]
      ensures outcome != Sent ==> sent == old(sent)
    {
      if sampleCount <= 0 {
        return Skipped;
      }
      var bytes := sampleCount * 4;
      var packet := new Byte[HEADER_SIZE + bytes];
      var fc := frameCounter;
      frameCounter := WrapIncU32(frameCounter);
      WriteHeader(packet, sampleRate, channels, sampleCount / Max(1, channels), DATA_TYPE_FLOAT32, CODEC_PCM, streamName, fc);
      if sampleCount > |interleaved| {
        return CopyFailed;
      }
      ghost var header := packet[..HEADER_SIZE];
      var frame := interleaved[..sampleCount];
      forall k | 0 <= k < bytes {
        packet[HEADER_SIZE + k] := LeBytes32(frame[k / 4])[k % 4];
      }
      assert packet[..HEADER_SIZE] == header;
      assert packet[HEADER_SIZE..] == Float32Payload(frame);
      assert packet[..] == packet[..HEADER_SIZE] + packet[HEADER_SIZE..];
      sent := sent + [packet[..]];
      return Sent;
    }
  }

  /**
   * `new VbanTxEngine(cfg)`: the sender for the settings' stream name,
   * addressed to RemoteIp and Port. IPAddress.Parse throws FormatException
   * for an address it does not accept; `parsable` holds the addresses it
   * accepts, and null stands for the exception.
   */
  method NewVbanTxEngine(cfg: Endpoints.VbanTxSettings, parsable: set<string>) returns (tx: VbanTxEngine?)
    ensures cfg.remoteIp !in parsable <==> tx == null
    ensures tx != null ==>
      fresh(tx) && tx.streamName == Some(cfg.streamName) && tx.remote == RemoteEndPoint(cfg.remoteIp, cfg.port)
      && tx.frameCounter == 0 && tx.sent == []
  {
    if cfg.remoteIp !in parsable {
      return null;
    }
    tx := new VbanTxEngine(Some(cfg.streamName), RemoteEndPoint(cfg.remoteIp, cfg.port));
  }
}
