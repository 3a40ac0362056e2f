// The VBAN receiver: the remote-address filter chosen at construction, the
// wave format announced by a header, and the chain of checks each received
// datagram goes through before its samples are handed on.
module VbanRx {
  import opened Base
  import opened Text
  import opened PcmSamples
  import opened Endpoints
  import opened VbanPacket
  import VbanTx
  import opened WaveFormats

  /**
   * CreateWaveFormat: integer PCM of 16, 24 or 32 bits for data types 1, 2
   * and 3; 32-bit IEEE float for float32, float64 and every other type.
   */
  function CreateWaveFormat(sampleRate: int, channels: int, dataType: int): (f: WaveFormat)
    ensures f.sampleRate == sampleRate && f.channels == channels
    ensures f.encoding == IntegerPcm <==> dataType in {1, 2, 3}
    ensures f.encoding == IntegerPcm ==> f.bitsPerSample == 8 * Width(EncodingOf(dataType).value)
    ensures f.encoding != IntegerPcm ==> f.encoding == IeeeFloat && f.bitsPerSample == 32
  {
    if dataType == 0x04 then IeeeFloatFormat(sampleRate, channels)
    else if dataType == 0x05 then IeeeFloatFormat(sampleRate, channels)
    else if dataType == 0x01 then PcmFormat(sampleRate, 16, channels)
    else if dataType == 0x02 then PcmFormat(sampleRate, 24, channels)
    else if dataType == 0x03 then PcmFormat(sampleRate, 32, channels)
    else IeeeFloatFormat(sampleRate, channels)
  }

  /**
   * The remote-address filter: none for a blank address or "0.0.0.0",
   * otherwise the trimmed address.
   */
  function ExpectedRemoteIp(remoteIp: string): (r: Option<string>)
    ensures r.None? <==> AllWhiteSpace(remoteIp) || Trim(remoteIp) == "0.0.0.0"
    ensures r.Some? ==> r.value == Trim(remoteIp) && |r.value| > 0
  {
    TrimEmptyIffBlank(remoteIp);
    if AllWhiteSpace(remoteIp) then None
    else if Trim(remoteIp) == "0.0.0.0" then None
    else Some(Trim(remoteIp))
  }

  /** A UDP datagram and the textual address of its sender. */
  datatype Datagram = Datagram(from: string, buffer: seq<Byte>)

  /** What the receive loop does with one datagram: skip it at the first failing check, or deliver its samples. */
  datatype Verdict =
    | WrongSender
    | TooShort
    | NotVban
    | OtherStream
    | NotAudio
    | NotPcm
    | NoPayload
    | NothingDecoded
    | Delivered(samples: seq<Sample>)

  predicate SenderAllowed(expectedIp: Option<string>, from: string)
  {
    expectedIp.None? || from == expectedIp.value
  }

  /** The header of a datagram long enough to carry one, when it parses. */
  function HeaderOf(buf: seq<Byte>): Option<Header>
  {
    if |buf| < VbanTx.HEADER_SIZE then None else TryParseHeader(buf)
  }

  /** A datagram that passes the first six checks: it is from the right sender and is a PCM audio packet of our stream. */
  predicate Admitted(expectedIp: Option<string>, streamName: string, d: Datagram)
  {
    SenderAllowed(expectedIp, d.from) && HeaderOf(d.buffer).Some?
    && EqualsIgnoreCase(HeaderOf(d.buffer).value.streamName, streamName)
    && HeaderOf(d.buffer).value.subProtocol == 0 && HeaderOf(d.buffer).value.codec == 0
  }

  /** The samples an admitted datagram carries after its 28-byte header. */
  function PayloadSamples(d: Datagram): seq<Sample>
    requires HeaderOf(d.buffer).Some?
  {
    DecodedPayload(d.buffer[VbanTx.HEADER_SIZE..], HeaderOf(d.buffer).value.dataType)
  }

  /** The checks of one loop iteration, in the order the loop makes them. */
  function Classify(expectedIp: Option<string>, streamName: string, d: Datagram): Verdict
  {
    if !SenderAllowed(expectedIp, d.from) then WrongSender
    else if |d.buffer| < VbanTx.HEADER_SIZE then TooShort
    else if TryParseHeader(d.buffer).None? then NotVban
    else
      var h := TryParseHeader(d.buffer).value;
      if !EqualsIgnoreCase(h.streamName, streamName) then OtherStream
      else if h.subProtocol != 0 then NotAudio
      else if h.codec != 0 then NotPcm
      else if |d.buffer| - VbanTx.HEADER_SIZE <= 0 then NoPayload
      else
        var samples := PayloadSamples(d);
        if |samples| == 0 then NothingDecoded else Delivered(samples)
  }

  /** The wave format after one datagram: an admitted datagram locks in the format its header announces. */
  function FormatAfter(current: Option<WaveFormat>, expectedIp: Option<string>, streamName: string, d: Datagram): (r: Option<WaveFormat>)
    ensures !Admitted(expectedIp, streamName, d) ==> r == current
    ensures Admitted(expectedIp, streamName, d) ==> r.Some? && 1 <= r.value.channels <= 256
  {
    if Admitted(expectedIp, streamName, d) then
      var h := HeaderOf(d.buffer).value;
      Some(CreateWaveFormat(h.sampleRate, h.channels, h.dataType))
    else current
  }

  /**
   * A datagram is delivered exactly when it passes all eight checks, and
   * then what is delivered is the decoded payload; any earlier failure
   * drops it.
   */
  lemma DeliveredIff(expectedIp: Option<string>, streamName: string, d: Datagram)
    ensures Classify(expectedIp, streamName, d).Delivered? <==>
      Admitted(expectedIp, streamName, d) && |d.buffer| > VbanTx.HEADER_SIZE && |PayloadSamples(d)| > 0
    ensures Classify(expectedIp, streamName, d).Delivered? ==>
      Classify(expectedIp, streamName, d).samples == PayloadSamples(d)
    ensures !SenderAllowed(expectedIp, d.from) ==> Classify(expectedIp, streamName, d) == WrongSender
    ensures SenderAllowed(expectedIp, d.from) && |d.buffer| < VbanTx.HEADER_SIZE ==> Classify(expectedIp, streamName, d) == TooShort
  {
  }

  /** The samples delivered for a sequence of datagrams, in arrival order. */
  function DeliveredAll(expectedIp: Option<string>, streamName: string, ds: seq<Datagram>): seq<seq<Sample>>
  {
    if |ds| == 0 then []
    else
      var v := Classify(expectedIp, streamName, ds[|ds| - 1]);
      DeliveredAll(expectedIp, streamName, ds[..|ds| - 1]) + (if v.Delivered? then [v.samples] else [])
  }

  /** The wave format after a sequence of datagrams. */
  function FormatAfterAll(current: Option<WaveFormat>, expectedIp: Option<string>, streamName: string, ds: seq<Datagram>): Option<WaveFormat>
  {
    if |ds| == 0 then current
    else FormatAfter(FormatAfterAll(current, expectedIp, streamName, ds[..|ds| - 1]), expectedIp, streamName, ds[|ds| - 1])
  }

  /**
   * The receiving side of a VBAN stream. `listening` stands for the bound
   * UDP socket; `received` for the SamplesReceived notifications, in order;
   * `formatLocks` counts how often the wave format was replaced.
   */
  class VbanRxEngine {
    const cfg: VbanRxSettings
    const expectedRemoteIp: Option<string>
    var listening: bool
    var waveFormat: Option<WaveFormat>
    var formatLocks: nat
    var received: seq<seq<Sample>>

    /** The locked format always has the 1..256 channels a header can announce. */
    ghost predicate Valid()
      reads this
    {
      waveFormat.Some? ==> 1 <= waveFormat.value.channels <= 256
    }

    constructor (cfg: VbanRxSettings)
      ensures Valid()
      ensures this.cfg == cfg && expectedRemoteIp == ExpectedRemoteIp(cfg.remoteIp)
      ensures !listening && waveFormat.None? && formatLocks == 0 && received == []
    {
      this.cfg := cfg;
      expectedRemoteIp := ExpectedRemoteIp(cfg.remoteIp);
      listening := false;
      waveFormat := None;
      formatLocks := 0;
      received := [];
    }

    /** Start: Stop first, then bind the socket again. */
    method Start()
      modifies this
      ensures listening
      ensures waveFormat == old(waveFormat) && formatLocks == old(formatLocks) && received == old(received)
    {
      Stop();
      listening := true;
    }

    /** Stop: closes the socket; harmless when already stopped. */
    method Stop()
      modifies this
      ensures !listening
      ensures waveFormat == old(waveFormat) && formatLocks == old(formatLocks) && received == old(received)
    {
      listening := false;
    }

    /** One iteration of the receive loop. */
    method HandleDatagram(d: Datagram) returns (v: Verdict)
      requires Valid()
      modifies this
      ensures Valid()
      ensures v == Classify(expectedRemoteIp, cfg.streamName, d)
      ensures waveFormat == FormatAfter(old(waveFormat), expectedRemoteIp, cfg.streamName, d)
      ensures formatLocks == old(formatLocks) + (if old(waveFormat) != waveFormat then 1 else 0)
      ensures received == old(received) + (if v.Delivered? then [v.samples] else [])
      ensures listening == old(listening)
    {
      if expectedRemoteIp.Some? && d.from != expectedRemoteIp.value {
        return WrongSender;
      }
      var buf := d.buffer;
      if |buf| < VbanTx.HEADER_SIZE {
        return TooShort;
      }
      var parsed := TryParseHeader(buf);
      if parsed.None? {
        return NotVban;
      }
      var h := parsed.value;
      if !EqualsIgnoreCase(h.streamName, cfg.streamName) {
        return OtherStream;
      }
      if h.subProtocol != 0x00 {
        return NotAudio;
      }
      if h.codec != 0x00 {
        return NotPcm;
      }
      var fmt := CreateWaveFormat(h.sampleRate, h.channels, h.dataType);
      LockFormat(fmt);
      var payloadOffset := VbanTx.HEADER_SIZE;
      var payloadBytes := |buf| - payloadOffset;
      if payloadBytes <= 0 {
        return NoPayload;
      }
      var floats := DecodePayloadToFloat(buf, payloadOffset, payloadBytes, h.dataType);
      assert buf[payloadOffset..payloadOffset + payloadBytes] == buf[VbanTx.HEADER_SIZE..];
      if |floats| == 0 {
        return NothingDecoded;
      }
      received := received + [floats];
      return Delivered(floats);
    }

    /** The format lock: replace the wave format only when rate, channels, encoding or bits differ. */
    method LockFormat(fmt: WaveFormat)
      modifies this
      ensures waveFormat == Some(fmt)
      ensures formatLocks == old(formatLocks) + (if old(waveFormat) != waveFormat then 1 else 0)
      ensures listening == old(listening) && received == old(received)
    {
      if waveFormat.None? || waveFormat.value.sampleRate != fmt.sampleRate || waveFormat.value.channels != fmt.channels
         || waveFormat.value.encoding != fmt.encoding || waveFormat.value.bitsPerSample != fmt.bitsPerSample {
        waveFormat := Some(fmt);
        formatLocks := formatLocks + 1;
      }
    }

    /** RxLoop over the datagrams that arrive before cancellation; nothing happens when no socket is bound. */
    method RxLoop(datagrams: seq<Datagram>)
      requires Valid()
      modifies this
      ensures Valid()
      ensures !old(listening) ==> waveFormat == old(waveFormat) && received == old(received)
      ensures old(listening) ==> received == old(received) + DeliveredAll(expectedRemoteIp, cfg.streamName, datagrams)
      ensures old(listening) ==> waveFormat == FormatAfterAll(old(waveFormat), expectedRemoteIp, cfg.streamName, datagrams)
      ensures listening == old(listening)
    {
      if !listening {
        return;
      }
      var i := 0;
      while i < |datagrams|
        invariant 0 <= i <= |datagrams| && listening && Valid()
        invariant received == old(received) + DeliveredAll(expectedRemoteIp, cfg.streamName, datagrams[..i])
        invariant waveFormat == FormatAfterAll(old(waveFormat), expectedRemoteIp, cfg.streamName, datagrams[..i])
      {
        assert datagrams[..i + 1][..i] == datagrams[..i];
        var verdict := HandleDatagram(datagrams[i]);
        i := i + 1;
      }
      assert datagrams[..i] == datagrams;
    }
  }
}
