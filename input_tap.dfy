// InputTapEngine: feeds one input into a rolling buffer, either from a local
// WASAPI endpoint or from a VBAN receiver. The device enumerator is a map from
// endpoint ids to what it would open; capture callbacks and received VBAN
// chunks are methods the environment calls.
module InputTap {
  import opened Base
  import opened Text
  import opened PcmSamples
  import opened WaveFormats
  import opened Endpoints
  import opened VbanPacket
  import opened VbanRx
  import opened RollingBuffer

  /** Trim, then strip one "loop:", "wasapi:" or "audio:" prefix (case-insensitive, in that order). */
  function NormalizeDeviceId(raw: string): (r: string)
    ensures var s := Trim(raw);
      (StartsWithIgnoreCase(s, "loop:") ==> r == s[5..])
      && (!StartsWithIgnoreCase(s, "loop:") && StartsWithIgnoreCase(s, "wasapi:") ==> r == s[7..])
      && (!StartsWithIgnoreCase(s, "loop:") && !StartsWithIgnoreCase(s, "wasapi:") && StartsWithIgnoreCase(s, "audio:") ==> r == s[6..])
  {
    var s := Trim(raw);
    if StartsWithIgnoreCase(s, "loop:") then s[5..]
    else if StartsWithIgnoreCase(s, "wasapi:") then s[7..]
    else if StartsWithIgnoreCase(s, "audio:") then s[6..]
    else s
  }

  predicate HasKnownPrefix(s: string)
  {
    StartsWithIgnoreCase(s, "loop:") || StartsWithIgnoreCase(s, "wasapi:") || StartsWithIgnoreCase(s, "audio:")
  }

  /** The normalised id is a suffix of the trimmed id, and it is the whole trimmed id exactly when no prefix matches. */
  lemma NormalizeIsSuffix(raw: string)
    ensures var s := Trim(raw); var r := NormalizeDeviceId(raw);
      |r| <= |s| && r == s[|s| - |r|..] && (r == s <==> !HasKnownPrefix(s))
  {
  }

  /** A "loop:" id round-trips: normalising "loop:" + id gives back id when id has no surrounding white space. */
  lemma LoopIdRoundTrip(id: string)
    requires |id| > 0 ==> !IsWhiteSpace(id[0]) && !IsWhiteSpace(id[|id| - 1])
    ensures NormalizeDeviceId("loop:" + id) == id
  {
    var s := "loop:" + id;
    TrimNothing(s, WhiteSpace);
    assert s[..5] == "loop:";
    assert s[5..] == id;
  }

  datatype DataFlow = CaptureFlow | Render

  /** An endpoint the enumerator can open: its data flow and its mix format. */
  datatype Device = Device(flow: DataFlow, mixFormat: WaveFormat)

  datatype CaptureKind = Loopback | Microphone

  /** The running capture object: WasapiLoopbackCapture or WasapiCapture on an endpoint. */
  datatype Capture = Capture(kind: CaptureKind, endpointId: string)

  /** Loopback capture for a raw id starting with "loop:" or for a render endpoint. */
  function CaptureKindFor(raw: string, flow: DataFlow): (k: CaptureKind)
    ensures k == Loopback <==> StartsWithIgnoreCase(raw, "loop:") || flow == Render
  {
    if StartsWithIgnoreCase(raw, "loop:") || flow == Render then Loopback else Microphone
  }

  /** The decoder ConvertToFloatInterleaved uses for a capture format, if any. */
  function CaptureEncoding(fmt: WaveFormat): (e: Option<Encoding>)
    ensures e == Some(Float32) <==> fmt.encoding == IeeeFloat && fmt.bitsPerSample == 32
    ensures e.Some? && e != Some(Float32) ==> fmt.encoding == IntegerPcm && fmt.bitsPerSample == 8 * Width(e.value)
    ensures fmt.encoding == IntegerPcm && fmt.bitsPerSample in {16, 24, 32} ==> e.Some?
  {
    if fmt.encoding == IeeeFloat && fmt.bitsPerSample == 32 then Some(Float32)
    else if fmt.encoding == IntegerPcm && fmt.bitsPerSample == 16 then Some(Int16)
    else if fmt.encoding == IntegerPcm && fmt.bitsPerSample == 24 then Some(Int24)
    else if fmt.encoding == IntegerPcm && fmt.bitsPerSample == 32 then Some(Int32)
    else None
  }

  /** What a capture delivers: the first `bytes` bytes decoded by the format's decoder, nothing for another format. */
  function Converted(data: seq<Byte>, bytes: int, fmt: WaveFormat): seq<Sample>
    requires bytes <= |data|
  {
    if bytes <= 0 then []
    else match CaptureEncoding(fmt)
      case None => []
      case Some(e) => Decode(data[..bytes], e)
  }

  /**
   * Captured bytes decode exactly as a VBAN payload of the same layout: for
   * the formats a VBAN header of type 1-4 announces, the capture decoder is
   * the receiver's.
   */
  lemma CaptureMatchesVban(sampleRate: int, channels: int, dataType: int)
    requires dataType in {1, 2, 3, 4}
    ensures CaptureEncoding(CreateWaveFormat(sampleRate, channels, dataType)) == EncodingOf(dataType)
  {
  }

  /** ConvertToFloatInterleaved. */
  method ConvertToFloatInterleaved(data: seq<Byte>, bytes: int, fmt: WaveFormat) returns (r: seq<Sample>)
    requires bytes <= |data|
    ensures r == Converted(data, bytes, fmt)
    ensures bytes > 0 && CaptureEncoding(fmt).Some? ==> |r| == bytes / Width(CaptureEncoding(fmt).value)
  {
    if bytes <= 0 {
      return [];
    }
    assert data[0..0 + bytes] == data[..bytes];
    if fmt.encoding == IeeeFloat && fmt.bitsPerSample == 32 {
      r := DecodeFloat32(data, 0, bytes);
      return;
    }
    if fmt.encoding == IntegerPcm && fmt.bitsPerSample == 16 {
      r := DecodeInt16(data, 0, bytes);
      return;
    }
    if fmt.encoding == IntegerPcm && fmt.bitsPerSample == 24 {
      r := DecodeInt24(data, 0, bytes);
      return;
    }
    if fmt.encoding == IntegerPcm && fmt.bitsPerSample == 32 {
      r := DecodeInt32(data, 0, bytes);
      return;
    }
    return [];
  }

  /** The receiver's format differs from the buffer's in rate, channels, bits or encoding. */
  predicate FormatDiffers(current: WaveFormat, fmt: WaveFormat)
  {
    current.sampleRate != fmt.sampleRate || current.channels != fmt.channels
    || current.bitsPerSample != fmt.bitsPerSample || current.encoding != fmt.encoding
  }

  /** The four compared fields are all a WaveFormat holds, so a new buffer is made exactly when the formats are not equal. */
  lemma FormatDiffersIff(current: WaveFormat, fmt: WaveFormat)
    ensures FormatDiffers(current, fmt) <==> current != fmt
  {
  }

  /** `new VbanRxEngine(cfg)`, with only what the tap relies on. */
  method NewReceiver(cfg: VbanRxSettings) returns (rx: VbanRxEngine)
    ensures fresh(rx) && rx.Valid() && rx.cfg == cfg && !rx.listening && rx.waveFormat.None?
  {
    rx := new VbanRxEngine(cfg);
  }

  class InputTapEngine {
    const deviceIdRaw: Option<string>
    const endpoint: Option<InputEndpointSettings>
    var device: Option<string>
    var capture: Option<Capture>
    var vbanRx: VbanRxEngine?
    var waveFormat: Option<WaveFormat>
    var channels: int
    var running: bool
    var requestedRollingSeconds: int
    var buffer: RollingAudioBuffer?<Sample>

    ghost predicate Valid()
      reads this, buffer, vbanRx
      reads if buffer != null then {buffer.ring} else {}
    {
      (buffer != null ==> buffer.Valid()) && (vbanRx != null ==> vbanRx.Valid())
      && (buffer != null && waveFormat.Some? ==> buffer.format == waveFormat.value)
    }

    /** The legacy constructor: a local device id and no endpoint settings. */
    constructor FromDeviceId(deviceId: Option<string>)
      ensures Valid()
      ensures deviceIdRaw == deviceId && endpoint.None?
      ensures device.None? && capture.None? && vbanRx == null && buffer == null && waveFormat.None? && !running
    {
      deviceIdRaw := deviceId;
      endpoint := None;
      device := None;
      capture := None;
      vbanRx := null;
      waveFormat := None;
      channels := 0;
      running := false;
      requestedRollingSeconds := 0;
      buffer := null;
    }

    constructor (input: InputEndpointSettings)
      ensures Valid()
      ensures deviceIdRaw == input.localDeviceId && endpoint == Some(input)
      ensures device.None? && capture.None? && vbanRx == null && buffer == null && waveFormat.None? && !running
    {
      deviceIdRaw := input.localDeviceId;
      endpoint := Some(input);
      device := None;
      capture := None;
      vbanRx := null;
      waveFormat := None;
      channels := 0;
      running := false;
      requestedRollingSeconds := 0;
      buffer := null;
    }

    /** The endpoint mode; the legacy constructor means Local. */
    function Mode(): AudioEndpointMode
    {
      if endpoint.None? then Local else endpoint.value.mode
    }

    /** The state after opening endpoint `id` with capture `kind` and mix format `fmt` for `seconds` of history. */
    ghost predicate OpenedOn(id: string, kind: CaptureKind, fmt: WaveFormat, seconds: int)
      reads this, buffer
    {
      running && device == Some(id) && capture == Some(Capture(kind, id))
      && waveFormat == Some(fmt) && channels == fmt.channels
      && buffer != null && buffer.format == fmt && buffer.history == []
      && buffer.ring.Length == CapacityFor(fmt.sampleRate, fmt.channels, Max(1, seconds))
    }

    /** The local endpoint the raw id names, when it is set and the enumerator knows it. */
    function Endpoint(devices: map<string, Device>): Option<string>
    {
      if IsBlank(deviceIdRaw) || NormalizeDeviceId(deviceIdRaw.value) !in devices then None
      else Some(NormalizeDeviceId(deviceIdRaw.value))
    }

    /**
     * Start: Stop first, clamp the rolling seconds to at least 1, then open
     * the VBAN receiver or the local endpoint. `bindFails` says whether the
     * receiver's UDP bind throws.
     */
    method Start(rollingSeconds: int, devices: map<string, Device>, bindFails: bool)
      requires Valid()
      requires forall id :: id in devices ==> devices[id].mixFormat.channels >= 1
      modifies this, vbanRx
      ensures Valid()
      ensures requestedRollingSeconds == Max(1, rollingSeconds)
      ensures Mode() == Vban ==> capture.None? && device.None?
      ensures Mode() == Vban && !bindFails ==>
        vbanRx != null && fresh(vbanRx) && vbanRx.listening && vbanRx.cfg == endpoint.value.vban && vbanRx.waveFormat.None?
        && buffer == null && waveFormat.None? && channels == 0 && running
      ensures Mode() == Vban && bindFails ==> vbanRx == null && !running && buffer == old(buffer)
      ensures Mode() == Local ==> vbanRx == null
      ensures Mode() == Local && Endpoint(devices).None? ==> !running && capture.None? && device.None? && buffer == old(buffer)
      ensures Mode() == Local && Endpoint(devices).Some? ==>
        var id := Endpoint(devices).value;
        fresh(buffer) && OpenedOn(id, CaptureKindFor(deviceIdRaw.value, devices[id].flow), devices[id].mixFormat, rollingSeconds)
    {
      Stop();
      requestedRollingSeconds := Max(1, rollingSeconds);
      if Mode() == Vban {
        StartVban(bindFails);
        return;
      }
      StartWasapi(requestedRollingSeconds, devices);
    }

    method StartWasapi(rollingSeconds: int, devices: map<string, Device>)
      requires Valid() && capture.None? && device.None? && vbanRx == null && !running
      requires forall id :: id in devices ==> devices[id].mixFormat.channels >= 1
      modifies this
      ensures Valid() && vbanRx == null && requestedRollingSeconds == old(requestedRollingSeconds)
      ensures Endpoint(devices).None? ==> !running && capture.None? && device.None? && buffer == old(buffer)
      ensures Endpoint(devices).Some? ==>
        var id := Endpoint(devices).value;
        fresh(buffer) && OpenedOn(id, CaptureKindFor(deviceIdRaw.value, devices[id].flow), devices[id].mixFormat, rollingSeconds)
    {
      if deviceIdRaw.None? || AllWhiteSpace(deviceIdRaw.value) {
        return;
      }
      var raw := deviceIdRaw.value;
      var forceLoopback := StartsWithIgnoreCase(raw, "loop:");
      var endpointId := NormalizeDeviceId(raw);
      if endpointId !in devices {
        // GetDevice throws; the handler stops the tap.
        Stop();
        return;
      }
      var dev := devices[endpointId];
      Open(endpointId, if forceLoopback || dev.flow == Render then Loopback else Microphone, dev.mixFormat, rollingSeconds);
    }

    /** The capture object, its format and a fresh buffer for it, then recording. */
    method Open(id: string, kind: CaptureKind, fmt: WaveFormat, seconds: int)
      requires Valid() && fmt.channels >= 1
      modifies this
      ensures Valid() && vbanRx == old(vbanRx) && requestedRollingSeconds == old(requestedRollingSeconds)
      ensures fresh(buffer) && OpenedOn(id, kind, fmt, seconds)
    {
      device := Some(id);
      capture := Some(Capture(kind, id));
      waveFormat := Some(fmt);
      channels := fmt.channels;
      buffer := new RollingAudioBuffer(seconds, fmt);
      running := true;
    }

    method StartVban(bindFails: bool)
      requires Valid() && endpoint.Some? && capture.None? && device.None? && vbanRx == null
      modifies this
      ensures Valid() && capture.None? && device.None? && requestedRollingSeconds == old(requestedRollingSeconds)
      ensures !bindFails ==>
        vbanRx != null && fresh(vbanRx) && vbanRx.listening && vbanRx.cfg == endpoint.value.vban && vbanRx.waveFormat.None?
        && buffer == null && waveFormat.None? && channels == 0 && running
      ensures bindFails ==> vbanRx == null && !running && buffer == old(buffer)
    {
      var rx := NewReceiver(endpoint.value.vban);
      vbanRx := rx;
      if bindFails {
        // VbanRxEngine.Start throws; the handler stops the tap.
        Stop();
        return;
      }
      rx.Start();
      buffer := null;
      waveFormat := None;
      channels := 0;
      running := true;
    }

    /** Stop: release the capture, the device and the receiver; the buffer and its format stay. */
    method Stop()
      requires Valid()
      modifies this, vbanRx
      ensures Valid()
      ensures capture.None? && device.None? && vbanRx == null && !running
      ensures buffer == old(buffer) && waveFormat == old(waveFormat) && channels == old(channels)
      ensures requestedRollingSeconds == old(requestedRollingSeconds)
      ensures old(vbanRx) != null ==> !old(vbanRx).listening && old(vbanRx).waveFormat == old(vbanRx.waveFormat)
    {
      capture := None;
      device := None;
      if vbanRx != null {
        vbanRx.Stop();
      }
      vbanRx := null;
      running := false;
    }

    /** Whether a received chunk replaces the buffer: none yet, no format, or a different format. */
    predicate NeedsNewBuffer(fmt: WaveFormat)
      reads this
    {
      buffer == null || waveFormat.None? || FormatDiffers(waveFormat.value, fmt)
    }

    /** VbanRx_SamplesReceived: (re)create the buffer for the receiver's format if needed, then append the chunk. */
    method OnVbanSamples(samples: seq<Sample>, sampleCount: int)
      requires Valid()
      modifies this, buffer, if buffer != null then {buffer.ring} else {}
      ensures Valid() && vbanRx == old(vbanRx) && running == old(running) && capture == old(capture)
      ensures sampleCount <= 0 || vbanRx == null || vbanRx.waveFormat.None? ==>
        buffer == old(buffer) && waveFormat == old(waveFormat) && (buffer != null ==> buffer.history == old(buffer.history))
      ensures sampleCount > 0 && vbanRx != null && vbanRx.waveFormat.Some? ==>
        waveFormat == Some(vbanRx.waveFormat.value) && buffer != null && buffer.format == vbanRx.waveFormat.value
      ensures sampleCount > 0 && vbanRx != null && vbanRx.waveFormat.Some? && old(NeedsNewBuffer(vbanRx.waveFormat.value)) ==>
        fresh(buffer) && buffer.history == Added(Some(samples), sampleCount)
        && buffer.ring.Length == CapacityFor(vbanRx.waveFormat.value.sampleRate, vbanRx.waveFormat.value.channels, Max(1, requestedRollingSeconds))
      ensures sampleCount > 0 && vbanRx != null && vbanRx.waveFormat.Some? && !old(NeedsNewBuffer(vbanRx.waveFormat.value)) ==>
        buffer == old(buffer) && buffer.history == old(buffer.history) + Added(Some(samples), sampleCount)
    {
      if sampleCount <= 0 || vbanRx == null {
        return;
      }
      var fmt := vbanRx.waveFormat;
      if fmt.None? {
        return;
      }
      EnsureBuffer(fmt.value);
      buffer.AddSamples(Some(samples), sampleCount);
    }

    /** The buffer re-initialisation of VbanRx_SamplesReceived. */
    method EnsureBuffer(fmt: WaveFormat)
      requires Valid() && fmt.channels >= 1
      modifies this
      ensures Valid() && buffer != null && waveFormat == Some(fmt)
      ensures vbanRx == old(vbanRx) && running == old(running) && capture == old(capture)
      ensures requestedRollingSeconds == old(requestedRollingSeconds)
      ensures old(NeedsNewBuffer(fmt)) ==>
        fresh(buffer) && fresh(buffer.ring) && buffer.history == [] && buffer.format == fmt
        && buffer.ring.Length == CapacityFor(fmt.sampleRate, fmt.channels, Max(1, requestedRollingSeconds))
      ensures !old(NeedsNewBuffer(fmt)) ==> buffer == old(buffer)
    {
      if buffer == null || waveFormat.None? || FormatDiffers(waveFormat.value, fmt) {
        waveFormat := Some(fmt);
        channels := fmt.channels;
        buffer := new RollingAudioBuffer(requestedRollingSeconds, fmt);
      } else {
        FormatDiffersIff(waveFormat.value, fmt);
      }
    }

    /**
     * One datagram through the receiver and into the tap: the receiver's
     * checks, then, for a delivered chunk, OnVbanSamples.
     */
    method OnDatagram(d: Datagram)
      requires Valid() && vbanRx != null
      modifies this, vbanRx, buffer, if buffer != null then {buffer.ring} else {}
      ensures Valid() && vbanRx == old(vbanRx)
      ensures vbanRx.waveFormat == FormatAfter(old(vbanRx.waveFormat), vbanRx.expectedRemoteIp, vbanRx.cfg.streamName, d)
      ensures var v := Classify(vbanRx.expectedRemoteIp, vbanRx.cfg.streamName, d);
        (!v.Delivered? ==> buffer == old(buffer) && (buffer != null ==> buffer.history == old(buffer.history)))
        && (v.Delivered? ==>
              buffer != null && buffer.format == vbanRx.waveFormat.value
              && (buffer == old(buffer) ==> buffer.history == old(buffer.history) + v.samples)
              && (buffer != old(buffer) ==> buffer.history == v.samples))
    {
      var v := vbanRx.HandleDatagram(d);
      if v.Delivered? {
        DeliveredIff(vbanRx.expectedRemoteIp, vbanRx.cfg.streamName, d);
        assert v.samples[..Min(|v.samples|, |v.samples|)] == v.samples;
        OnVbanSamples(v.samples, |v.samples|);
      }
    }

    /** Capture_DataAvailable: convert the recorded bytes and append them, unless no buffer or format exists. */
    method OnDeviceData(data: seq<Byte>, bytesRecorded: int)
      requires Valid() && bytesRecorded <= |data|
      modifies if buffer != null then {buffer, buffer.ring} else {}
      ensures Valid()
      ensures buffer == null || waveFormat.None? ==> buffer == null || buffer.history == old(buffer.history)
      ensures buffer != null && waveFormat.Some? ==>
        buffer.history == old(buffer.history) + Converted(data, bytesRecorded, waveFormat.value)
    {
      if buffer == null || waveFormat.None? {
        return;
      }
      var floats := ConvertToFloatInterleaved(data, bytesRecorded, waveFormat.value);
      if |floats| > 0 {
        assert floats[..Min(|floats|, |floats|)] == floats;
        buffer.AddSamples(Some(floats), |floats|);
      }
    }

    /** Capture_RecordingStopped. */
    method OnRecordingStopped()
      modifies this
      ensures !running
      ensures buffer == old(buffer) && capture == old(capture) && vbanRx == old(vbanRx) && waveFormat == old(waveFormat)
    {
      running := false;
    }
  }
}
