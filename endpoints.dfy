// Routing settings of the audio endpoints: each input is a local capture
// device or a VBAN receiver, each output a local render device or a VBAN
// sender. The settings are plain values here; the engines only read them.
module Endpoints {
  import opened Base

  datatype AudioEndpointMode = Local | Vban

  datatype VbanRxSettings = VbanRxSettings(
    remoteIp: string,
    port: int,
    streamName: string,
    jitterMs: int)

  datatype VbanTxSettings = VbanTxSettings(
    remoteIp: string,
    port: int,
    streamName: string,
    sampleRate: int,
    channels: int,
    float32: bool,
    frameSamples: int)   // samples per channel in each packet

  datatype InputEndpointSettings = InputEndpointSettings(
    mode: AudioEndpointMode,
    localDeviceId: Option<string>,   // a capture id, or "loop:" followed by a render id
    localIsLoopback: bool,
    vban: VbanRxSettings)

  datatype OutputEndpointSettings = OutputEndpointSettings(
    mode: AudioEndpointMode,
    localDeviceId: Option<string>,
    vban: VbanTxSettings)

  /** A new VbanRxSettings: listen on 6980 for "ECHO_IN" from 127.0.0.1. */
  const DEFAULT_VBAN_RX: VbanRxSettings := VbanRxSettings("127.0.0.1", 6980, "ECHO_IN", 60)

  /** A new VbanTxSettings: send "ECHO_OUT" to 127.0.0.1:6980 as 48 kHz stereo float32, 256 samples per channel. */
  const DEFAULT_VBAN_TX: VbanTxSettings := VbanTxSettings("127.0.0.1", 6980, "ECHO_OUT", 48000, 2, true, 256)

  /** A new input endpoint: local, no device chosen. */
  const DEFAULT_INPUT: InputEndpointSettings := InputEndpointSettings(Local, None, false, DEFAULT_VBAN_RX)

  /** A new output endpoint: local, no device chosen. */
  const DEFAULT_OUTPUT: OutputEndpointSettings := OutputEndpointSettings(Local, None, DEFAULT_VBAN_TX)

  /** A local endpoint on a device id, as the legacy two-device overload of PlayPadAsync builds it. */
  function LocalOutput(deviceId: Option<string>): (o: OutputEndpointSettings)
    ensures o.mode == Local && o.localDeviceId == deviceId && o.vban == DEFAULT_VBAN_TX
  {
    OutputEndpointSettings(Local, deviceId, DEFAULT_VBAN_TX)
  }
}
