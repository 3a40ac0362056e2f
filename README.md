# Echopad core in Dafny

Echopad is a Windows soundboard. Sixteen pads each hold a sound clip that
plays to a local output device or is sent over the network as a VBAN
stream. An input (a local capture device or a VBAN receiver) is buffered
all the time, so that an "echo" pad can commit the last seconds it heard
to a WAV file. Pads are triggered from the mouse, the keyboard or MIDI.
MIDI LEDs show each pad's state. Sixteen profiles hold different pad
layouts, and a link mode can share profile 1's MIDI and hotkey binds with
every profile.

This project models the integer, byte and state logic of that program and
proves what it promises:

- **VBAN wire codec.**
  - `VbanTx` covers the 28-byte VBAN AUDIO header, the 21-entry sample-rate table, the float32 packets and the 32-bit frame counter.
  - `VbanPacket` covers header parsing and payload decoding.
  - `VbanRx` covers the receiver's address filter, the format lock and the ordered acceptance checks.
  - `VbanRoundTrip` proves that a written header parses back.
  - `PcmSamples` and `WaveFormats` hold the sample encodings and the stream format.
- **Input and playback engines.**
  - `RollingBuffer` is the ring buffer: an array with a cursor, a fill count and a ghost history of everything added since the last reset.
  - `InputTap` is the capture and VBAN input lifecycle.
  - `AudioEngines` holds the per-pad playback tables, the trim window and the VBAN send loop.
  - `CommitService` is the 16-bit PCM WAV commit.
  - `Endpoints` holds the routing settings.
- **Pads.**
  - `PadModels` is the observable pad.
  - `PadControl` is the pad activation state machine: toggle, echo-commit gate, copy mode and clear.
  - `Settings` holds the persisted pad, global and profile-switch settings.
- **Profiles and locks.**
  - `Profiles` holds profiles.json and its normal form.
  - `ProfileRules` and `ProfileServices` are the profile service's load, save, overlay, slot-fill, seed and preserve rules.
  - `ProfileSwitching` is the main window's profile switch.
  - `Locks` holds the profile-switch lock and the UI input blocker.
- **MIDI.**
  - `MidiBinds` is the bind text parser, the event matcher and the learn-text builder.
  - `MidiLed` covers the LED value choice, raw hex templates, short-message packing and the hex-byte parser.
- **User interface rules.**
  - `MainWindowRules` covers hydration, the MIDI trigger debounce and profile stepping.
  - `PadSettingsVm` is the pad editor: trim clamping, mode exclusion, LED entries and colour hex.
  - `SettingsVm` is the folder list and drop folder.
  - `ProfileManagerVm` covers the link flags, slot sync and save.
  - `TrimWheel` is the mouse-wheel trim.
  - `BrushConverter` maps pad state to a colour.
  - `PadKeymap` is the keyboard layout.
  - The shared helpers live in `Base` (clamping, C#'s truncating division, 32-bit wrap-around and little-endian bytes) and `Text` (.NET trimming, splitting, case folding, and int and hex parsing over `seq<char>`).

C# objects whose fields change become classes with `modifies` clauses.
Their methods are specified against functions of the old state.
Clocks become a `now` parameter. `File.Exists`, and the clip duration a
file reader reports, become function parameters, and so does the set of
addresses `IPAddress.Parse` accepts. Devices and sockets
become maps or flags that say what opening them would give. The effects
raised by the program become values recorded in the state: events,
PropertyChanged notifications, MIDI messages and datagrams sent.

In the repository, some data classes lack members that other code reads:
`PadModel.GainDb`, `PadSettings.MidiLedActiveRaw`, `MidiLedArmedRaw`,
`MidiLedRunningRaw`, `MidiLedClearRaw` and `PadName`, and
`GlobalSettings.Out1`, `Input1`, `ProfileSwitch` and `EnsureCompatibility`.
The fields are modelled as that code uses them; `EnsureCompatibility` is
taken to leave the settings as they are.

Four properties of the code are stated as lemmas because they are easy
to miss:

- In the profile manager, each row bind the sync fills saves at once, and
  that save runs the sync again before the loop goes on. `NestedSave`,
  `NestedSync` and `NestedFill` model these re-entrant saves as the code
  runs them. They end in the state of one save after one sync
  (`ProfileManagerVm.NestedSaveCollapses`,
  `ProfileManagerVm.LinkChangedCollapses`), which is what the rest of the
  model uses.
- Unticking "full manual" is undone by the next save when no link flag is
  set (`ProfileManagerVm.SaveRealigns`).
- The trim wheel can move a pad's end to 0. The rest of the program reads
  an end of 0 as "the whole clip" (`TrimWheel.EndCanReachZero`,
  `TrimWheel.EndMoveStopsAtStart`).
- Opening the pad editor on a pad whose runtime trim starts after the
  stored end loses the runtime start (`PadSettingsVm.RuntimeStartLost`,
  listed under Findings).

## Model

| member | source | states |
|---|---|---|
| PcmSamples.Int16Le | Echopad.Audio/Vban/VbanRxEngine.cs:274 | the 16-bit little-endian two's-complement value of two bytes, in [-32768, 32767] |
| PcmSamples.Int24Le | Echopad.Audio/Vban/VbanRxEngine.cs:290-291 | three bytes sign-extended from bit 23, in [-2^23, 2^23) |
| PcmSamples.Int32Le | Echopad.Audio/Vban/VbanRxEngine.cs:307 | BitConverter.ToInt32 on four little-endian bytes is a 32-bit value congruent to the bytes' unsigned little-endian value modulo 2^32 |
| PcmSamples.Int32LeRoundTrip | Echopad.Audio/Vban/VbanRxEngine.cs:307 | every 32-bit value is read back from its two's-complement little-endian bytes, and every four bytes are the bytes of the value read |
| PcmSamples.Decode | Echopad.Audio/Vban/VbanRxEngine.cs:255-328 | a payload decodes to as many samples as whole sample widths fit in it |
| PcmSamples.Float32At | Echopad.Audio/Vban/VbanRxEngine.cs:255-263 | the i-th float32 sample is the IEEE bit pattern of the little-endian word at byte 4i |
| PcmSamples.DecodeInRange | Echopad.Audio/Vban/VbanRxEngine.cs:265-312 | every decoded integer sample lies within its width, and integer samples come exactly from the integer encodings, with 8 x width bits |
| PcmSamples.Int16RoundTrip | Echopad.Audio/Vban/VbanRxEngine.cs:265-279 | 16-bit PCM written as little-endian two's complement decodes back to the same values, in order |
| PcmSamples.Int16OfEncoded | Echopad.Audio/Vban/VbanRxEngine.cs:274 | the 16-bit reader inverts the two-byte two's-complement encoding |
| PcmSamples.Int24OfEncoded | Echopad.Audio/Vban/VbanRxEngine.cs:290-291 | the 24-bit reader with its sign extension inverts the three-byte two's-complement encoding |
| WaveFormats.IeeeFloatFormat | Echopad.Audio/Vban/VbanRxEngine.cs:158 | CreateIeeeFloatWaveFormat keeps rate and channels and announces 32-bit IEEE float |
| WaveFormats.PcmFormat | Echopad.Audio/Vban/VbanRxEngine.cs:160-162 | new WaveFormat(rate, bits, channels) keeps all three and announces integer PCM |
| VbanPacket.TryParseHeader | Echopad.Audio/Vban/VbanRxEngine.cs:192-237 | a header parses exactly when the magic is "VBAN" and the 5-bit rate index is inside the 21-entry table; channels and samples per frame are then in 1..256, the data type below 8 and the name at most 16 characters |
| VbanPacket.ParsedRateListed | Echopad.Audio/Vban/VbanRxEngine.cs:173-178 | a parsed header always carries one of the 21 VBAN sample rates |
| VbanPacket.DecodePayloadToFloat | Echopad.Audio/Vban/VbanRxEngine.cs:239-253 | no bytes give no samples; otherwise the payload window is decoded by its data type, unknown types giving none |
| VbanPacket.DecodeFloat32 | Echopad.Audio/Vban/VbanRxEngine.cs:255-263 | the loop yields the reference decoding of whole 4-byte groups of the window |
| VbanPacket.DecodeInt16 | Echopad.Audio/Vban/VbanRxEngine.cs:265-279 | the loop yields the reference 16-bit decoding of the window |
| VbanPacket.DecodeInt24 | Echopad.Audio/Vban/VbanRxEngine.cs:281-296 | the loop yields the reference 24-bit decoding of the window |
| VbanPacket.DecodeInt32 | Echopad.Audio/Vban/VbanRxEngine.cs:298-312 | the loop yields the reference 32-bit decoding of the window |
| VbanPacket.DecodeFloat64ToFloat32 | Echopad.Audio/Vban/VbanRxEngine.cs:314-328 | the loop yields the reference float64 decoding of whole 8-byte groups |
| VbanPacket.Float64At | Echopad.Audio/Vban/VbanRxEngine.cs:323 | the i-th float64 sample is the little-endian 8-byte word at byte 8i of the window |
| VbanRx.CreateWaveFormat | Echopad.Audio/Vban/VbanRxEngine.cs:152-165 | rate and channels are kept; the format is integer PCM exactly for data types 1-3, with 16, 24 or 32 bits, and 32-bit float for every other type |
| VbanRx.ExpectedRemoteIp | Echopad.Audio/Vban/VbanRxEngine.cs:40-44 | no filter exactly for a blank address or "0.0.0.0" after trimming; otherwise the trimmed, non-empty address |
| VbanRx.FormatAfter | Echopad.Audio/Vban/VbanRxEngine.cs:104-136 | a datagram that is not admitted leaves the wave format alone; an admitted one locks in a format with 1..256 channels |
| VbanRx.DeliveredIff | Echopad.Audio/Vban/VbanRxEngine.cs:104-146 | a datagram is handed on exactly when the sender is allowed, it holds a full header that parses, the name matches ignoring case, protocol and codec are 0 and the payload decodes to at least one sample; each failing check has its own outcome, in the loop's order |
| VbanRx.VbanRxEngine.constructor | Echopad.Audio/Vban/VbanRxEngine.cs:36-45 | the settings are kept, the address filter is chosen once, and no format or samples exist yet |
| VbanRx.VbanRxEngine.Start | Echopad.Audio/Vban/VbanRxEngine.cs:47-65 | after Start the receiver listens; the format and what was received stay |
| VbanRx.VbanRxEngine.Stop | Echopad.Audio/Vban/VbanRxEngine.cs:67-80 | after Stop the receiver does not listen, whatever it did before; nothing else changes |
| VbanRx.VbanRxEngine.HandleDatagram | Echopad.Audio/Vban/VbanRxEngine.cs:104-146 | one loop iteration: its outcome is the datagram's classification, the format follows FormatAfter, a lock is counted only when the format changes, and only delivered samples are appended |
| VbanRx.VbanRxEngine.LockFormat | Echopad.Audio/Vban/VbanRxEngine.cs:127-136 | the format becomes the announced one, and the lock is counted only when rate, channels, encoding or bits differ |
| VbanRx.VbanRxEngine.RxLoop | Echopad.Audio/Vban/VbanRxEngine.cs:82-150 | without a socket nothing happens; otherwise the received samples grow by exactly the delivered samples of the datagrams, in order, and the format is the one the admitted datagrams leave |
| VbanTx.GetSampleRateIndex | Echopad.Audio/Vban/VbanTxEngine.cs:110-144 | the index is always inside the 21-entry table |
| VbanTx.SampleRateIndexAgrees | Echopad.Audio/Vban/VbanTxEngine.cs:110-144 | the switch agrees with the receiver's table: a listed rate maps to its own position, any other rate to 48000's index 3 |
| VbanTx.AsciiBytes | Echopad.Audio/Vban/VbanTxEngine.cs:98 | one byte per character, each below 128 |
| VbanTx.NameField | Echopad.Audio/Vban/VbanTxEngine.cs:98-101 | the stream-name field is always 16 bytes: the first 16 ASCII bytes, NUL-padded |
| VbanTx.FormatBit | Echopad.Audio/Vban/VbanTxEngine.cs:95 | the format byte carries the data type in its low 3 bits and the codec's upper nibble, bit 3 clear |
| VbanTx.HeaderBytes | Echopad.Audio/Vban/VbanTxEngine.cs:64-108 | the header is 28 bytes |
| VbanTx.WriteHeader | Echopad.Audio/Vban/VbanTxEngine.cs:64-108 | the first 28 bytes of the packet become the header and the payload area is untouched |
| VbanTx.WriteFormat | Echopad.Audio/Vban/VbanTxEngine.cs:74-95 | bytes 0..7 become magic and format bytes, nothing else changes |
| VbanTx.WriteNameField | Echopad.Audio/Vban/VbanTxEngine.cs:97-101 | bytes 8..23 become the name field, nothing else changes |
| VbanTx.WriteCounter | Echopad.Audio/Vban/VbanTxEngine.cs:103-107 | bytes 24..27 become the frame counter, least significant byte first, nothing else changes |
| VbanTx.Float32Payload | Echopad.Audio/Vban/VbanTxEngine.cs:59 | the payload is four bytes per sample |
| VbanTx.VbanTxEngine.constructor | Echopad.Audio/Vban/VbanTxEngine.cs:24-34 | the stream name and the remote endpoint (address and port) are kept, the frame counter starts at 0 and nothing has been sent |
| VbanTx.NewVbanTxEngine | Echopad.Audio/Vban/VbanTxEngine.cs:24-34 | exactly when the remote address does not parse there is no sender (IPAddress.Parse throws FormatException); otherwise a fresh sender on the settings' stream name, remote address and port, with counter 0 and nothing sent |
| VbanTx.VbanTxEngine.SendInterleavedFloat32Frame | Echopad.Audio/Vban/VbanTxEngine.cs:36-62 | no samples send nothing and keep the counter; more samples than the array holds fail the copy; otherwise exactly one packet (header with the current counter, then the payload) is sent and the counter steps by one, wrapping at 2^32 |
| VbanRoundTrip.HeaderRoundTrip | Echopad.Audio/Vban/VbanTxEngine.cs:64-108 | every header the sender writes parses in the receiver, with the rate mapped through the table, channels and frame size clamped to 1..256, the data type and codec folded, and the name trimmed |
| VbanRoundTrip.HeaderLayout | Echopad.Audio/Vban/VbanTxEngine.cs:74-107 | where the sender puts each header field, byte by byte |
| VbanRoundTrip.ParseFields | Echopad.Audio/Vban/VbanRxEngine.cs:192-237 | on a valid magic and rate index the receiver reads each field from its byte |
| VbanRoundTrip.NameRoundTrip | Echopad.Audio/Vban/VbanRxEngine.cs:215 | a name of at most 16 ASCII characters whose last is neither NUL nor space survives the NUL padding and TrimEnd unchanged |
| VbanRoundTrip.HeaderExact | Echopad.Audio/Vban/VbanRxEngine.cs:192-237 | with in-range fields, the parsed header is exactly what was written |
| VbanRoundTrip.ParsedHeaderExact | Echopad.Audio/Vban/VbanTxEngine.cs:64-108 | with in-range fields nothing of the header is saturated, folded or trimmed |
| VbanRoundTrip.Float32PayloadRoundTrip | Echopad.Audio/Vban/VbanRxEngine.cs:255-263 | the float32 payload the sender copies out reads back as the same bit patterns, in order |
| VbanRoundTrip.PayloadWord | Echopad.Audio/Vban/VbanTxEngine.cs:59 | the four payload bytes of sample i are that sample's little-endian bytes |
| VbanRoundTrip.FrameSizeSaturates | Echopad.Audio/Vban/VbanTxEngine.cs:86-87 | a frame of more than 256 samples per channel is announced as 256 |
| VbanRoundTrip.SenderFrameDelivered | Echopad.Audio/Vban/VbanRxEngine.cs:104-146 | a non-empty frame of the sender, addressed to an allowed receiver under its own stream name, is delivered with the same sample bit patterns and locks the format to 32-bit float at the announced rate and channel count |
| InputTap.NormalizeIsSuffix | Echopad.Audio/InputTapEngine.cs:308-315 | the endpoint id is a suffix of the trimmed id, and the whole trimmed id exactly when none of "loop:", "wasapi:", "audio:" starts it (ignoring case) |
| InputTap.LoopIdRoundTrip | Echopad.Audio/InputTapEngine.cs:308-315 | normalising "loop:" + id gives back id for an id without surrounding white space |
| InputTap.CaptureKindFor | Echopad.Audio/InputTapEngine.cs:91-101 | loopback capture exactly for a raw id starting with "loop:" (ignoring case) or for a render endpoint |
| InputTap.CaptureEncoding | Echopad.Audio/InputTapEngine.cs:250-306 | a capture format is decoded as float32 exactly for 32-bit IEEE float, as integer PCM of its width otherwise, and every 16/24/32-bit PCM format has a decoder |
| InputTap.CaptureMatchesVban | Echopad.Audio/InputTapEngine.cs:250-306 | a format the VBAN receiver announces is decoded by the capture path exactly as the receiver decodes its data type |
| InputTap.ConvertToFloatInterleaved | Echopad.Audio/InputTapEngine.cs:250-306 | the loops yield the reference decoding of the recorded bytes, one sample per whole sample width |
| InputTap.FormatDiffersIff | Echopad.Audio/InputTapEngine.cs:166-170 | comparing rate, channels, bits and encoding is exactly format inequality |
| InputTap.NewReceiver | Echopad.Audio/Vban/VbanRxEngine.cs:36-45 | a fresh receiver on the endpoint's VBAN settings, not listening and without a format |
| InputTap.InputTapEngine.FromDeviceId | Echopad.Audio/InputTapEngine.cs:47-50 | the legacy constructor keeps the raw id and no endpoint; nothing is open |
| InputTap.InputTapEngine.constructor | Echopad.Audio/InputTapEngine.cs:55-59 | the endpoint and its local device id are kept; nothing is open |
| InputTap.InputTapEngine.Start | Echopad.Audio/InputTapEngine.cs:61-76 | Stop first, the rolling seconds are at least 1; VBAN mode starts a fresh listening receiver and drops the buffer (or, when the bind fails, ends stopped); local mode opens the normalised device with the right capture kind and a fresh buffer for its format, or ends stopped when the device is missing or unselected |
| InputTap.InputTapEngine.StartWasapi | Echopad.Audio/InputTapEngine.cs:81-121 | no device or a failed lookup leaves the tap stopped with its buffer; otherwise the device opened is the one the normalised id names, with loopback as CaptureKindFor decides |
| InputTap.InputTapEngine.Open | Echopad.Audio/InputTapEngine.cs:95-112 | the capture, its format and a fresh buffer for that format, then running |
| InputTap.InputTapEngine.StartVban | Echopad.Audio/InputTapEngine.cs:126-153 | a fresh listening receiver on the endpoint's VBAN settings, no buffer or format yet, running; a failed bind ends stopped |
| InputTap.InputTapEngine.Stop | Echopad.Audio/InputTapEngine.cs:190-221 | capture, device and receiver are released and the tap stops; the buffer and its format stay, and a released receiver no longer listens |
| InputTap.InputTapEngine.OnVbanSamples | Echopad.Audio/InputTapEngine.cs:155-185 | nothing without samples, a receiver or its format; otherwise the buffer has the receiver's format, is fresh and holds just this chunk when the format changed, and otherwise grows by the chunk |
| InputTap.InputTapEngine.EnsureBuffer | Echopad.Audio/InputTapEngine.cs:166-177 | a fresh empty buffer sized for the receiver's format and the requested seconds exactly when the format differs; the same buffer otherwise |
| InputTap.InputTapEngine.OnDatagram | Echopad.Audio/Vban/VbanRxEngine.cs:104-146 | a datagram through the tap's receiver: the receiver's format follows FormatAfter, and only a delivered datagram's samples reach the buffer (appended, or alone in a fresh buffer after a format change) |
| InputTap.InputTapEngine.OnDeviceData | Echopad.Audio/InputTapEngine.cs:230-245 | without a buffer or format nothing is added; otherwise the buffer grows by the converted recording |
| InputTap.InputTapEngine.OnRecordingStopped | Echopad.Audio/InputTapEngine.cs:223-228 | the tap is no longer running; nothing else changes |
| RollingBuffer.AgeNext | Echopad.Audio/RollingAudioBuffer.cs:108-114 | stepping the read cursor forward, with wrap, reaches the slot written one sample later |
| RollingBuffer.StartAge | Echopad.Audio/RollingAudioBuffer.cs:104-106 | the start slot of a read of the n newest samples holds the oldest of them |
| RollingBuffer.WriteChunk | Echopad.Audio/RollingAudioBuffer.cs:72-85 | one Array.Copy to the cursor and the wrap keep the ring-holds-history invariant |
| RollingBuffer.OverwriteAll | Echopad.Audio/RollingAudioBuffer.cs:60-67 | overwriting the whole ring with the last capacity samples of a chunk leaves the cursor at 0 and the ring full of the newest samples |
| RollingBuffer.LastOfLast | Echopad.Audio/RollingAudioBuffer.cs:243-272 | a snapshot is the tail of ReadAll |
| RollingBuffer.CapacityFor | Echopad.Audio/RollingAudioBuffer.cs:36 | the capacity is at least one sample, products taken in 32-bit ints |
| RollingBuffer.CapacityNoOverflow | Echopad.Audio/RollingAudioBuffer.cs:36 | without overflow the capacity is rate x channels x seconds samples |
| RollingBuffer.MeterSamples | Echopad.Audio/RollingAudioBuffer.cs:133-137 | the meters never read more samples than are buffered |
| RollingBuffer.MeterSamplesNoOverflow | Echopad.Audio/RollingAudioBuffer.cs:133-137 | without 32-bit overflow the meters read min(max(1, rate x ms / 1000) x channels, filled) samples |
| RollingBuffer.SnapshotCount | Echopad.Audio/RollingAudioBuffer.cs:252-253 | a snapshot copies between 0 and the buffered count |
| RollingBuffer.MaxMagnitudeIsMax | Echopad.Audio/RollingAudioBuffer.cs:210-220 | the peak scan result bounds every magnitude of the window and is 0 or one of them |
| RollingBuffer.SumOfSquaresStep | Echopad.Audio/RollingAudioBuffer.cs:150-162 | one more frame adds the square of its channel average |
| RollingBuffer.RollingAudioBuffer.constructor | Echopad.Audio/RollingAudioBuffer.cs:25-28 | a fresh empty ring of capacity max(rate x channels x max(seconds, 1), 1), cursor and fill 0 |
| RollingBuffer.RollingAudioBuffer.Reset | Echopad.Audio/RollingAudioBuffer.cs:30-44 | a fresh empty ring of the new capacity for the new format; the history starts again |
| RollingBuffer.RollingAudioBuffer.AddSamples | Echopad.Audio/RollingAudioBuffer.cs:47-89 | the history grows by the first min(count, length) samples (none for null or a non-positive count), the ring keeps holding the newest min(history, capacity) samples, and a chunk of at least capacity samples leaves cursor 0 and a full ring |
| RollingBuffer.RollingAudioBuffer.Overwrite | Echopad.Audio/RollingAudioBuffer.cs:60-67 | the big-chunk branch keeps the ring invariant with cursor 0 and a full ring |
| RollingBuffer.RollingAudioBuffer.CopyWrapped | Echopad.Audio/RollingAudioBuffer.cs:69-87 | the copy loop leaves the cursor advanced by count with one wrap and the ring holding the extended history |
| RollingBuffer.RollingAudioBuffer.WriteStep | Echopad.Audio/RollingAudioBuffer.cs:74-84 | one pass of the copy loop: the cursor advances and wraps to 0 at the end, and the ring holds the history extended by the copied part |
| RollingBuffer.RollingAudioBuffer.CopyRecent | Echopad.Audio/RollingAudioBuffer.cs:105-114 | the walk from the start slot copies out exactly the n newest samples, oldest first |
| RollingBuffer.RollingAudioBuffer.ReadAll | Echopad.Audio/RollingAudioBuffer.cs:95-118 | the last min(history, capacity) samples added since Reset, oldest first; empty on an empty buffer |
| RollingBuffer.RollingAudioBuffer.SnapshotLastSeconds | Echopad.Audio/RollingAudioBuffer.cs:243-272 | the newest rate x channels x max(seconds, 1) samples, or all that are buffered, oldest first, and always a tail of ReadAll |
| RollingBuffer.RollingAudioBuffer.GetPeakLastMs | Echopad.Audio/RollingAudioBuffer.cs:191-226 | 0 on an empty buffer; otherwise the largest magnitude among the newest meter-window samples, clamped to [0, 1] |
| RollingBuffer.RollingAudioBuffer.PeakFrom | Echopad.Audio/RollingAudioBuffer.cs:210-220 | the scan loop yields the largest magnitude of the window |
| RollingBuffer.RollingAudioBuffer.GetRmsLastMs | Echopad.Audio/RollingAudioBuffer.cs:124-171 | 0 on an empty buffer or a window without a whole frame; otherwise the square root of the mean squared channel average over the window's whole frames, clamped to [0, 1] |
| RollingBuffer.RollingAudioBuffer.FrameSquares | Echopad.Audio/RollingAudioBuffer.cs:149-162 | the frame loop yields the sum of squared channel averages of the whole frames |
| RollingBuffer.RollingAudioBuffer.SumFrame | Echopad.Audio/RollingAudioBuffer.cs:152-158 | the channel loop yields the sum of one frame's samples and leaves the cursor at the next frame |
| RollingBuffer.Added | Echopad.Audio/RollingAudioBuffer.cs:49-57 | nothing for a null array or a non-positive count, otherwise the first min(count, length) samples |
| CommitService.ClampUnit | Echopad.Audio/RollingBufferCommitService.cs:43-45 | the clamp lands in [-1, 1] and leaves samples already there alone |
| CommitService.RoundHalfEven | Echopad.Audio/RollingBufferCommitService.cs:47 | Math.Round lands within half of its argument |
| CommitService.Pcm16Of | Echopad.Audio/RollingBufferCommitService.cs:42-47 | every written value lies in [-32767, 32767], so the short cast never wraps |
| CommitService.RoundBounded | Echopad.Audio/RollingBufferCommitService.cs:47 | rounding a value within [-m, m] stays within [-m, m] |
| CommitService.Pcm16Values | Echopad.Audio/RollingBufferCommitService.cs:40-51 | one value per sample, in order, each the clamped, scaled, rounded sample |
| CommitService.Pcm16DataDecodes | Echopad.Audio/RollingBufferCommitService.cs:37-51 | the written data, read as signed 16-bit little-endian, gives back one value per sample, in order |
| CommitService.Pcm16Accurate | Echopad.Audio/RollingBufferCommitService.cs:47 | a sample in [-1, 1] is written within half a step of sample x 32767 |
| CommitService.ShortBytes | Echopad.Audio/RollingBufferCommitService.cs:49-50 | the low and high byte of a short are its two's-complement little-endian bytes |
| CommitService.PathCombine | Echopad.Audio/RollingBufferCommitService.cs:27 | a rooted file name (leading separator, or ASCII drive letter and colon) or an empty directory gives the file name; otherwise the result starts with the directory and ends with the file name |
| CommitService.Duration | Echopad.Audio/RollingBufferCommitService.cs:59-60 | a duration is never negative, and there is none exactly when rate x channels wraps to 0 in 32 bits |
| CommitService.DurationExact | Echopad.Audio/RollingBufferCommitService.cs:59-60 | for a positive rate x channels that fits in 32 bits the duration is samples / (rate x channels) seconds |
| CommitService.CommitToWav | Echopad.Audio/RollingBufferCommitService.cs:21-63 | a null buffer and an empty buffer fail; otherwise the file is at Path.Combine(dir, name + ".wav"), 16-bit PCM at the buffer's rate and channels, holding the 16-bit conversion of ReadAll, with its duration |
| CommitService.EncodeInt16sSnoc | Echopad.Audio/RollingBufferCommitService.cs:49-50 | one more value appends its two bytes |
| CommitService.SampleBytes | Echopad.Audio/RollingBufferCommitService.cs:43-50 | one pass of the loop writes the two's-complement bytes of the sample's 16-bit value |
| CommitService.ToPcm16 | Echopad.Audio/RollingBufferCommitService.cs:37-51 | the byte loop writes exactly the reference 16-bit data |
| Endpoints.LocalOutput | Echopad.Audio/AudioEngine.cs:40-50 | a local endpoint on the given device with the default VBAN sender settings |
| AudioEngines.TrimWindow | Echopad.Audio/AudioEngine.cs:77-83 | the played window starts inside the clip, never ends before it starts, and ends inside the clip unless the end is unset on a clip the start already passes |
| AudioEngines.TrimWindowKeepsValidTrim | Echopad.Audio/AudioEngine.cs:77-79 | a trim with 0 <= start <= end <= clip length and a positive end is played exactly as stored |
| AudioEngines.TrimWindowEnds | Echopad.Audio/AudioEngine.cs:77-79 | an end of 0 or less plays from the clamped start to the clip's end, and a start at or past the end plays nothing |
| AudioEngines.EffectiveGainDb | Echopad.Audio/AudioEngine.cs:94 | the applied gain lies in [-60, 20] dB and a gain already inside is kept |
| AudioEngines.ReaderFor | Echopad.Audio/AudioEngine.cs:72-94 | the registered reader is positioned at the clamped start, its Take is the clamped window's length and its gain the clamped gain; a Take of 0 (an empty window) reads to the clip's end, see ReaderPlaysWindow |
| AudioEngines.ReaderPlaysWindow | Echopad.Audio/AudioEngine.cs:76-89 | with NAudio's Take of 0 meaning no limit, the reader plays the trim window when it is not empty, and from the start to the clip's end when it is empty |
| AudioEngines.EmptyTrimPlaysRest | Echopad.Audio/AudioEngine.cs:76-89 | a 5000..3000 ms trim on a 10 s clip is the empty window at 5000 ms, yet the reader plays 5000..10000 ms |
| AudioEngines.IntendedPlaysWindow | Echopad.Audio/AudioEngine.cs:76-89 | the intended reader, none for an empty window, is missing exactly when the window is empty and otherwise plays exactly the trim window |
| AudioEngines.CreateWasapiOutById | Echopad.Audio/AudioEngine.cs:267-281 | the named device exactly when the id is set and the device opens, otherwise the default output |
| AudioEngines.FrameSamplesPerChannel | Echopad.Audio/AudioEngine.cs:152 | samples per channel per packet lie in [64, 1024], and a setting already inside is kept |
| AudioEngines.FloatsPerFrame | Echopad.Audio/AudioEngine.cs:152-155 | the send buffer holds between 64 and 1024 samples of every channel |
| AudioEngines.FramesCoverAll | Echopad.Audio/AudioEngine.cs:163-176 | uncancelled, the buffers sent concatenate to all the samples, in order |
| AudioEngines.FramesCancelled | Echopad.Audio/AudioEngine.cs:163-176 | a loop cancelled after k iterations sends at most k buffers, and what it sends is a prefix of the samples |
| AudioEngines.FramesCount | Echopad.Audio/AudioEngine.cs:163-176 | uncancelled, the loop sends the fewest buffers of the buffer's size that hold all the samples |
| AudioEngines.FramesStep | Echopad.Audio/AudioEngine.cs:165-169 | one iteration takes the next min(buffer, remaining) samples off the front |
| AudioEngines.NumberedAppend | Echopad.Audio/Vban/VbanTxEngine.cs:36-62 | each further datagram carries the frame counter advanced once per earlier datagram, modulo 2^32 |
| AudioEngines.AudioEngine.constructor | Echopad.Audio/AudioEngine.cs:22-27 | all four dictionaries start empty and nothing has been stopped, cancelled or ended |
| AudioEngines.AudioEngine.StopPad | Echopad.Audio/AudioEngine.cs:199-215 | a null pad changes nothing; otherwise the pad's player is stopped and dropped, its token cancelled and dropped, its sender and reader dropped, and every other pad is untouched |
| AudioEngines.AudioEngine.CleanupLocalOnly | Echopad.Audio/AudioEngine.cs:235-243 | the pad's player (not stopped) and reader are dropped; nothing else changes |
| AudioEngines.AudioEngine.CleanupVbanOnly | Echopad.Audio/AudioEngine.cs:245-257 | the pad's token is cancelled and dropped and its sender dropped; nothing else changes |
| AudioEngines.AudioEngine.CleanupReaderOnly | Echopad.Audio/AudioEngine.cs:259-265 | the pad's reader is dropped; nothing else changes |
| AudioEngines.AudioEngine.PlayPad | Echopad.Audio/AudioEngine.cs:58-134 | nothing without a pad, a clip path or an existing clip file; otherwise the pad is stopped first, its reader registered with the trimmed window, and the chosen endpoint gets a local player on its device or a fresh VBAN token and sender with the clamped frame size; when the VBAN remote address does not parse, the token stays registered, no sender or job exists and the exception leaves the call |
| AudioEngines.AudioEngine.OpenOutput | Echopad.Audio/AudioEngine.cs:104-131 | a VBAN endpoint starts a VBAN run (or, with an unparsable remote address, only registers its token), a local one registers a player on CreateWasapiOutById's device |
| AudioEngines.AudioEngine.StartVbanTx | Echopad.Audio/AudioEngine.cs:136-157 | the fresh token is registered for the pad first; then, exactly when the remote address parses, a sender on the endpoint's stream and remote endpoint is registered and a job with a buffer of one frame per channel is returned; otherwise no sender and no job |
| AudioEngines.AudioEngine.RunVbanTx | Echopad.Audio/AudioEngine.cs:159-195 | the sender emits one numbered datagram per buffer the loop reads, then the pad's token, sender and reader are dropped and PadPlaybackEnded is raised for it |
| AudioEngines.AudioEngine.OnPlaybackStopped | Echopad.Audio/AudioEngine.cs:113-121 | the player ending drops the pad's player and reader without stopping and raises PadPlaybackEnded |
| AudioEngines.AudioEngine.PlayPadOnDevices | Echopad.Audio/AudioEngine.cs:38-53 | the legacy overload plays on a local player on the chosen device, with the same guards |
| AudioEngines.SendLoop | Echopad.Audio/AudioEngine.cs:161-177 | the datagrams sent are the VBAN packets of the loop's buffers, numbered from the sender's counter |
| AudioEngines.SendFrames | Echopad.Audio/AudioEngine.cs:161-177 | the loop sends Frames of the samples, one datagram each, and the counter advances by their number modulo 2^32 |
| AudioEngines.SendStep | Echopad.Audio/AudioEngine.cs:165-169 | one iteration: an empty read ends the loop having sent everything due, otherwise one more buffer is sent |
| AudioEngines.ReadInto | Echopad.Audio/AudioEngine.cs:165 | Read copies min(buffer length, remaining) samples to the buffer's front |
| AudioEngines.SendBuffer | Echopad.Audio/AudioEngine.cs:169 | one datagram of the samples read, numbered with the current counter, which then advances |
| AudioEngines.LoopStep | Echopad.Audio/AudioEngine.cs:163-170 | the buffer just sent moves from what remains to what is done, keeping the numbering |
| Locks.ProfileSwitchLock.constructor | Echopad.App/Services/ProfileSwitchLock.cs:10-14 | a new lock has count 0 and has raised no LockChanged |
| Locks.ProfileSwitchLock.Acquire | Echopad.App/Services/ProfileSwitchLock.cs:16-23 | one more holder, LockChanged(true) exactly on the step from 0 to 1, and a fresh releaser bound to this lock |
| Locks.ProfileSwitchLock.Release | Echopad.App/Services/ProfileSwitchLock.cs:25-32 | at zero nothing changes; otherwise one holder fewer, and LockChanged(false) exactly on the step from 1 to 0 |
| Locks.LockReleaser.constructor | Echopad.App/Services/ProfileSwitchLock.cs:37 | the releaser remembers its lock |
| Locks.LockReleaser.Dispose | Echopad.App/Services/ProfileSwitchLock.cs:39-43 | the owner is released once and then forgotten |
| Locks.HandlesInvariant | Echopad.App/Services/ProfileSwitchLock.cs:34-44 | over any history each releaser handed out is either still holding or disposed, never both |
| Locks.LockTrace | Echopad.App/Services/ProfileSwitchLock.cs:16-32 | over any history of Acquire and Dispose calls the count equals the releasers still holding, the notifications alternate starting with true, and an odd number of them has been raised exactly when the lock is held |
| Locks.EffectiveDisposeFindsLockHeld | Echopad.App/Services/ProfileSwitchLock.cs:27 | a first dispose of a handed-out releaser always finds the lock held, so the guard against zero never fires |
| Locks.LockBalanced | Echopad.App/Services/ProfileSwitchLock.cs:25-32 | once every releaser has been disposed the lock is free and the last notification, if any, was false |
| Locks.DisposeTwice | Echopad.App/Services/ProfileSwitchLock.cs:39-43 | a second Dispose of the same releaser changes neither the lock nor the blocker |
| Locks.BlockerTrace | Echopad.App/Services/UiInputBlocker.cs:19-35 | the block count is the number of Acquire calls minus the number of distinct releasers disposed, and never negative |
| Locks.UiInputBlocker.constructor | Echopad.App/Services/UiInputBlocker.cs:8 | the static count starts at 0 |
| Locks.UiInputBlocker.Acquire | Echopad.App/Services/UiInputBlocker.cs:19-23 | one more block and a fresh, undisposed releaser |
| Locks.UiInputBlocker.Block | Echopad.App/Services/UiInputBlocker.cs:17 | the older name has the same effect as Acquire |
| Locks.BlockReleaser.constructor | Echopad.App/Services/UiInputBlocker.cs:25-27 | a fresh releaser is not disposed |
| Locks.BlockReleaser.Dispose | Echopad.App/Services/UiInputBlocker.cs:29-35 | the first Dispose gives back one block, later ones nothing |
| MainWindowRules.HydratedPadRules | Echopad.App/MainWindow.xaml.cs:1320-1388 | one pad's hydration gives an input source in [1, 2] (a stored 1 or 2 kept), never echo together with drop-folder mode, Playing never overridden, a present clip Loaded, an absent one Armed or Empty by echo mode, and the playhead at the start of a pad not playing |
| MainWindowRules.HydratedTrimWindow | Echopad.App/MainWindow.xaml.cs:1348-1364 | for a present clip of positive length the window ends up 0 <= start <= end <= total, a stored end <= 0 or past the clip becomes the clip's end, and a window that already fits is kept |
| MainWindowRules.HydrateAllElsewhere | Echopad.App/MainWindow.xaml.cs:1318-1322 | hydration leaves the stored entry of an index no pad has as it was |
| MainWindowRules.HydrateAllSettings | Echopad.App/MainWindow.xaml.cs:1318-1342 | over pads with distinct indices the dictionary gains exactly the missing indices, each pad's entry has echo cleared under drop-folder mode, and every other entry is untouched |
| MainWindowRules.HydrateAllPads | Echopad.App/MainWindow.xaml.cs:1318-1388 | over pads with distinct indices every pad is hydrated from its own stored entry, or from its index's default |
| MainWindowRules.HydratePads | Echopad.App/MainWindow.xaml.cs:1311-1390 | the loop over the pads yields the pads and the dictionary HydrateAll describes |
| MainWindowRules.MidiPadTrigger.constructor | Echopad.App/MainWindow.xaml.cs:135 | no pad has been triggered and no pad was last activated |
| MainWindowRules.MidiPadTrigger.TriggerPadFromMidi | Echopad.App/MainWindow.xaml.cs:1288-1302 | nothing outside pads 1..16 or within 180 ms of the pad's last trigger; otherwise the trigger is stamped, and unless UI input is blocked the pad is remembered and activated through the controller |
| MainWindowRules.MidiPadTrigger.RememberLastActivatedPad | Echopad.App/MainWindow.xaml.cs:2340-2344 | only pads 1..16 are remembered |
| MainWindowRules.TriggerSpacing | Echopad.App/MainWindow.xaml.cs:1288-1302 | whatever the arrival pattern, the triggers that pass are for pads 1..16 and two that pass for one pad are at least 180 ms apart |
| MainWindowRules.StepProfileCycle | Echopad.App/MainWindow.xaml.cs:1403-1406 | k Ctrl-clicks from profile i land on ((i - 1 + k) mod 16) + 1, inside 1..16, so sixteen clicks come back |
| MainWindowRules.SwitchTarget | Echopad.App/MainWindow.xaml.cs:1425-1438 | no switch while blocked or when the clamped target is already active; otherwise the target is in 1..16, differs from the active profile, and is the request itself when that is in range |
| MidiBinds.StoredChannel | Echopad.App/MainWindow.xaml.cs:946-954 | channels 1..16 are kept, a legacy 0 becomes 1, and anything outside 0..16 is rejected |
| MidiBinds.MinValueOf | Echopad.App/MainWindow.xaml.cs:942-944 | the minimum value is at least 1, and a positive parsed fourth field is used as it is |
| MidiBinds.TryParseMidiBind | Echopad.App/MainWindow.xaml.cs:926-967 | blank text is rejected, and every accepted bind has a channel in 1..16, a minimum value of at least 1 and a known kind |
| MidiBinds.ParseConditions | Echopad.App/MainWindow.xaml.cs:926-967 | a bind is accepted exactly when the text is not blank, has at least three fields, integer channel and number, a channel in 0..16 and a known head, and it then has exactly those fields |
| MidiBinds.EventOf | Echopad.App/MainWindow.xaml.cs:821-825 | the event NAudio hands the MIDI input handler for a short message: channel = low nibble + 1, a NoteOnEvent exactly for a Note On with velocity above 0, and a plain NoteEvent exactly for a Note Off, key aftertouch or a velocity-0 Note On |
| MidiBinds.NoteReleaseMissed | Echopad.App/MainWindow.xaml.cs:1109-1119 | on live input IsRelease never holds for a note bind, while a Note Off or velocity-0 Note On of the bound note is the same control and not a press |
| MidiBinds.IntendedReleaseOnLiveInput | Echopad.App/MainWindow.xaml.cs:1109-1126 | the intended release of a note bind is exactly a Note Off or velocity-0 Note On of the bound channel and note, is always the same control and never also a press of a parsed bind; for other binds it is IsRelease |
| MidiBinds.PressAndRelease | Echopad.App/MainWindow.xaml.cs:969-1002 | IsPress is DoesEventMatchBind; presses and releases are on the bound control, no message is both for a parsed bind, a velocity-0 note-on never triggers, and a program change is never a release |
| MidiBinds.BuildMidiLearnBindText | Echopad.App/MainWindow.xaml.cs:882-923 | learning yields text exactly for a sounding note-on, a non-zero CC or a program change |
| MidiBinds.BindTextParts | Echopad.App/MainWindow.xaml.cs:896-918 | the learnt text is not blank, trims to itself and splits into its four fields |
| MidiBinds.ParseBindText | Echopad.App/MainWindow.xaml.cs:926-967 | the learnt text's fields come back out of the parser unchanged |
| MidiBinds.LearnRoundTrip | Echopad.App/MainWindow.xaml.cs:882-967 | for a message on channel 1..16 with 32-bit numbers, the learnt text parses back into a bind the same message matches |
| MidiBinds.LearnParsesBack | Echopad.App/MainWindow.xaml.cs:882-967 | the learnt text parses into a note bind with minimum 1, a CC bind with the value clamped to 1..127, or a program-change bind with minimum 1 |
| MidiBinds.NormalizeHot | Echopad.App/MainWindow.xaml.cs:1898-1902 | the normalised hotkey text holds no space and neither starts nor ends with white space |
| MidiBinds.NormalizeHotIdempotent | Echopad.App/MainWindow.xaml.cs:1898-1902 | normalising twice gives the same text as once, so normalised bindings compare the same again |
| MidiBinds.ParseFields | Echopad.App/MainWindow.xaml.cs:926-967 | a non-blank text of four fields with a known kind, a channel in 1..16 and an integer number parses into the bind of those fields |
| MidiBinds.LearnedNoteParses | Echopad.App/MainWindow.xaml.cs:892-896 | a sounding note-on learns text that parses back into a note bind on its channel and note with minimum 1 |
| MidiBinds.LearnedCcParses | Echopad.App/MainWindow.xaml.cs:898-913 | a non-zero CC learns text that parses back into a CC bind on its channel and controller with the value clamped to 1..127 as minimum |
| MidiBinds.LearnedPcParses | Echopad.App/MainWindow.xaml.cs:917-918 | a program change learns text that parses back into a PC bind on its channel and patch with minimum 1 |
| MidiLed.Mask7 | Echopad.App/MainWindow.MidiLedFeedback.cs:124-125 | & 0x7F on a two's-complement int yields 0..127 and keeps values already in range |
| MidiLed.StatusFor | Echopad.App/MainWindow.MidiLedFeedback.cs:120-123 | the status byte has the message's high nibble and the clamped channel's number 0..15 |
| MidiLed.PackBytes | Echopad.App/MainWindow.MidiLedFeedback.cs:122-125 | the bytes of a packed message are its status and data bytes, and it fits in 24 bits |
| MidiLed.ShortBytesPack | Echopad.App/MainWindow.MidiLedFeedback.cs:192-194 | packing the three low bytes of any message gives its low 24 bits back |
| MidiLed.SendOldMessage | Echopad.App/MainWindow.MidiLedFeedback.cs:111-144 | the normal path sends exactly for CC and Note binds, a channel voice message with status 0xB or 0x9 on the clamped channel and 7-bit number and value |
| MidiLed.HexPrefixIgnoresCase | Echopad.App/MainWindow.MidiLedFeedback.cs:225 | the character test is StartsWith("0x") ignoring case |
| MidiLed.HexBytesOf | Echopad.App/MainWindow.MidiLedFeedback.cs:204-237 | parsing succeeds only with at least one byte |
| MidiLed.TokensBytes | Echopad.App/MainWindow.MidiLedFeedback.cs:219-233 | one byte per token when every token is a hex byte |
| MidiLed.TryParseHexBytes | Echopad.App/MainWindow.MidiLedFeedback.cs:204-237 | the blank check, split and token loop succeed exactly when HexBytesOf does, with its bytes, and leave the bytes empty otherwise |
| MidiLed.ParseTokens | Echopad.App/MainWindow.MidiLedFeedback.cs:219-236 | the token loop fails at the first token that is not a hex byte and otherwise yields every token's byte |
| MidiLed.HexTripleParses | Echopad.App/MainWindow.MidiLedFeedback.cs:204-237 | three two-digit hex bytes separated by spaces parse back to those bytes |
| MidiLed.RawHexRoundTrip | Echopad.App/MainWindow.MidiLedFeedback.cs:186-202 | the text built from a message parses back to its three low bytes, and sent as raw hex it is the same short message |
| MidiLed.LedState | Echopad.App/MainWindow.MidiLedFeedback.cs:34-41 | Playing exactly for a present clip that plays, Loaded for a present clip otherwise, Armed or Empty for an absent clip by echo mode |
| MidiLed.LedValueRules | Echopad.App/MainWindow.MidiLedFeedback.cs:51-67 | Loaded and Playing use their enabled value, Armed always the armed value of the pad's input, other cases the clear value when enabled; a negative value sends nothing, and without a raw override the clamped value is sent |
| MidiLed.ExpandPlaceholders | Echopad.App/MainWindow.MidiLedFeedback.cs:97-104 | in a raw text whose other parts hold no brace, the three placeholders become the status, the 7-bit number and the 7-bit value as two hex digits, and nothing else changes |
| MidiLed.TemplateMatchesNormal | Echopad.App/MainWindow.MidiLedFeedback.cs:97-106 | the raw override "{STATUS} {DATA1} {VAL}" sends the same message as the normal path |
| MidiLed.NumericOverride | Echopad.App/MainWindow.MidiLedFeedback.cs:88-95 | a purely numeric raw override replaces the value, clamped to 0..127, and takes the normal path |
| MidiLed.UpdatePadLedForCurrentState | Echopad.App/MainWindow.MidiLedFeedback.cs:21-44 | without a MIDI output nothing happens; otherwise the pad's entry is created if missing and the message comes from that entry, the trigger bind and the derived LED state |
| MidiLed.SyncMessages | Echopad.App/MainWindow.MidiLedFeedback.cs:17-18 | one message per pad |
| MidiLed.SyncMessagesAt | Echopad.App/MainWindow.MidiLedFeedback.cs:17-18 | each pad's message is the one computed from the entry it had before the sync |
| MidiLed.SyncAllPadLeds | Echopad.App/MainWindow.MidiLedFeedback.cs:11-19 | the loop sends SyncMessages; afterwards every pad has an entry and no other entry was added or changed |
| MidiLed.SyncOne | Echopad.App/MainWindow.MidiLedFeedback.cs:18 | one turn of the loop, stated against the entries before the sync |
| MidiLed.LedForValue | Echopad.App/MainWindow.MidiLedFeedback.cs:21-67 | a blank trigger sends nothing; a normal-path message carries the clamped selected value and the bind's channel |
| PadControl.PadAt | Echopad.Core/Controllers/PadActionController.cs:256-262 | a pad is found exactly for positions 1..pad count, at list position padIndex - 1 |
| PadControl.WithEchoBlock | Echopad.Core/Controllers/PadActionController.cs:38-42 | an Index above 0 gets a block until now + ms, an Index of 0 or less changes nothing, and nothing else changes |
| PadControl.CopyPad | Echopad.Core/Controllers/PadActionController.cs:224-234 | the target takes the source's clip, duration and trim |
| PadControl.ActivateOutOfRange | Echopad.Core/Controllers/PadActionController.cs:72-76 | an activation outside positions 1..pad count changes nothing |
| PadControl.CopyModeOnlyCopies | Echopad.Core/Controllers/PadActionController.cs:78-83 | with edit mode on and copy held an activation raises no Play, Stop or commit request, at most PadCopied, and changes no other pad's play state |
| PadControl.BlankPadOnlyCommits | Echopad.Core/Controllers/PadActionController.cs:85-95 | a pad with a blank clip raises a commit request exactly when it is not blocked and the echo gate (echo on, no drop folder, not busy, not playing) is open, and nothing else changes |
| PadControl.Toggle | Echopad.Core/Controllers/PadActionController.cs:97-154 | a Playing pad with a clip raises StopRequested and is left Loaded and not busy; any other pad with a clip becomes Playing and busy and raises PlayRequested; other pads and the guard are as before |
| PadControl.NestedSameIgnored | Echopad.Core/Controllers/PadActionController.cs:116-118 | a handler that activates the same pad again during Play or Stop is ignored by the transition guard |
| PadControl.GuardRestored | Echopad.Core/Controllers/PadActionController.cs:120-153 | without a re-entrant handler an activation leaves the transition guard as it found it |
| PadControl.LeavingCopyClearsMarks | Echopad.Core/Controllers/PadActionController.cs:55-67 | leaving edit mode or releasing copy removes every copy mark and forgets the source, and nothing else about the pads changes |
| PadControl.CopyPastes | Echopad.Core/Controllers/PadActionController.cs:201-222 | with a source selected, a click on another pad copies clip, duration and trim onto it, marks both pads, raises PadCopied, keeps the source, and leaves every other pad alone |
| PadControl.ClearBlocksCommit | Echopad.Core/Controllers/PadActionController.cs:159-183 | ClearPad resets the pad and raises StopRequested, and an activation of it within the next 650 ms changes nothing |
| PadControl.PadActionController.constructor | Echopad.Core/Controllers/PadActionController.cs:19-22 | the controller holds the pads with both flags off, no guard, no blocks, no copy source and no events |
| PadControl.PadActionController.SetEditMode | Echopad.Core/Controllers/PadActionController.cs:55-60 | the controller's state becomes EditModeSet of the old state |
| PadControl.PadActionController.SetCopyHeld | Echopad.Core/Controllers/PadActionController.cs:62-67 | the controller's state becomes CopyHeldSet of the old state |
| PadControl.PadActionController.BlockEchoCommit | Echopad.Core/Controllers/PadActionController.cs:38-42 | the controller's state becomes WithEchoBlock of the old state |
| PadControl.PadActionController.ActivatePad | Echopad.Core/Controllers/PadActionController.cs:72-102 | the controller's state becomes Activate of the old state |
| PadControl.PadActionController.Play | Echopad.Core/Controllers/PadActionController.cs:107-128 | the controller's state becomes PlayPad of the old state |
| PadControl.PadActionController.BeginPlay | Echopad.Core/Controllers/PadActionController.cs:120-125 | the guard is taken, the pad is Playing and busy, and PlayRequested is raised |
| PadControl.PadActionController.Stop | Echopad.Core/Controllers/PadActionController.cs:130-154 | the controller's state becomes StopPad of the old state |
| PadControl.PadActionController.FinishStop | Echopad.Core/Controllers/PadActionController.cs:147-153 | the pad, as the handler left it, is not busy and is Loaded or Empty by its clip, and the guard is released |
| PadControl.PadActionController.RunHandler | Echopad.Core/Controllers/PadActionController.cs:125 | the handler's effect is Handled: at most one nested activation |
| PadControl.PadActionController.ClearPad | Echopad.Core/Controllers/PadActionController.cs:159-183 | the controller's state becomes PadCleared of the old state |
| PadControl.PadActionController.ClearCopyState | Echopad.Core/Controllers/PadActionController.cs:190-199 | the controller's state becomes CopyStateCleared of the old state |
| PadControl.PadActionController.HandleCopy | Echopad.Core/Controllers/PadActionController.cs:201-222 | the controller's state becomes CopyHandled of the old state |
| PadControl.Activate | Echopad.Core/Controllers/PadActionController.cs:72-102 | an activation keeps the number of pads and leaves any copy source on a real pad |
| PadControl.PlayPad | Echopad.Core/Controllers/PadActionController.cs:107-128 | a play keeps the number of pads and leaves any copy source on a real pad |
| PadControl.StopPad | Echopad.Core/Controllers/PadActionController.cs:130-154 | a stop keeps the number of pads and leaves any copy source on a real pad |
| PadControl.Handled | Echopad.Core/Controllers/PadActionController.cs:125 | the request handler's nested activation keeps the number of pads and the copy source on a real pad |
| PadControl.CopyHandled | Echopad.Core/Controllers/PadActionController.cs:201-222 | a copy step keeps the number of pads and leaves the copy source on a real pad |
| PadControl.CopyStateCleared | Echopad.Core/Controllers/PadActionController.cs:190-199 | clearing the copy state keeps the number of pads and forgets the source |
| PadControl.PadCleared | Echopad.Core/Controllers/PadActionController.cs:159-183 | a clear keeps the number of pads and leaves any copy source on a real pad |
| PadModels.InitialValues | Echopad.Core/PadModel.cs:9-200 | a new pad is Empty with input source 1, no clip or name, zero duration, and every flag off |
| PadModels.InputSourceOf | Echopad.Core/PadModel.cs:99 | the stored input source lies in [1, 2] and a value already there is kept |
| PadModels.CeilSecondsBounds | Echopad.Core/PadModel.cs:212 | the rounded-up seconds are the least whole number of seconds covering the duration |
| PadModels.TotalSecText | Echopad.Core/PadModel.cs:207-215 | empty exactly for a zero duration; otherwise the rounded-up seconds followed by "s", which parse back |
| PadModels.PadModel.constructor | Echopad.Core/PadModel.cs:11 | a new pad has the initial values for its index and has raised no change |
| PadModels.PadModel.SetState | Echopad.Core/PadModel.cs:16-25 | the state is replaced and a change is raised only when it differs |
| PadModels.PadModel.SetPadName | Echopad.Core/PadModel.cs:27-37 | the name is replaced and a change is raised only when it differs |
| PadModels.PadModel.SetClipPath | Echopad.Core/PadModel.cs:39-49 | the clip path is replaced and a change is raised only when it differs |
| PadModels.PadModel.SetClipDuration | Echopad.Core/PadModel.cs:51-62 | the duration is replaced, and a differing duration raises changes for it and for TotalSecText |
| PadModels.PadModel.SetStartMs | Echopad.Core/PadModel.cs:65-75 | the start is replaced and a change is raised only when it differs |
| PadModels.PadModel.SetEndMs | Echopad.Core/PadModel.cs:78-88 | the end is replaced and a change is raised only when it differs |
| PadModels.PadModel.SetInputSource | Echopad.Core/PadModel.cs:93-104 | the value is clamped into [1, 2] first, then stored, and a change is raised only when the clamped value differs |
| PadModels.PadModel.SetPreviewToMonitor | Echopad.Core/PadModel.cs:106-116 | the flag is replaced and a change is raised only when it differs |
| PadModels.PadModel.SetIsDropFolderMode | Echopad.Core/PadModel.cs:121-131 | the flag is replaced and a change is raised only when it differs |
| PadModels.PadModel.SetClipMod | Echopad.Core/PadModel.cs:136-146 | the copy mark is replaced and a change is raised only when it differs |
| PadModels.PadModel.SetIsBusy | Echopad.Core/PadModel.cs:148-158 | the flag is replaced and a change is raised only when it differs |
| PadModels.PadModel.SetIsHoldArmed | Echopad.Core/PadModel.cs:160-170 | the flag is replaced and a change is raised only when it differs |
| PadModels.PadModel.SetIsEchoMode | Echopad.Core/PadModel.cs:175-185 | the flag is replaced and a change is raised only when it differs |
| PadModels.PadModel.SetPlayheadMs | Echopad.Core/PadModel.cs:191-202 | the playhead is replaced, and a differing playhead raises changes for it and for PlayheadSecText |
| PadSettingsVm.ClampedTrim | Echopad.App/Settings/PadSettingsViewModel.cs:544-574 | with an unknown length nothing moves; otherwise 0 <= start <= end <= total with a positive end, an end of 0 or less or past the clip becomes the clip's end, and a start in range is kept |
| PadSettingsVm.ClampedTrimStable | Echopad.App/Settings/PadSettingsViewModel.cs:544-574 | the clamp always lands inside the bound, leaves exactly the windows already inside it unchanged, and so clamping twice is clamping once |
| PadSettingsVm.TrimSetTo | Echopad.App/Settings/PadSettingsViewModel.cs:94-116 | setting StartMs then EndMs: an unknown length takes the pair as is; a known one lands inside the bound, keeps an in-bounds pair exactly when the new start does not pass the old window's clamped end, and otherwise pulls the start down to that end |
| PadSettingsVm.IntendedOpenedTrim | Echopad.App/Settings/PadSettingsViewModel.cs:31-54 | without a clip the stored trim through the setters; with one the runtime trim clamped once, inside the bound, and an in-bounds runtime trim shown exactly |
| PadSettingsVm.RuntimeStartLost | Echopad.App/Settings/PadSettingsViewModel.cs:31-54 | stored 0..1000 ms, runtime 5000..8000 ms on a 10 s clip: the code opens on 1000..8000, the intended window is 5000..8000 |
| PadSettingsVm.OpenedTrimAgrees | Echopad.App/Settings/PadSettingsViewModel.cs:31-54 | the code's window equals the intended one while the length is unknown, and when both trims are in bounds and no start passes the end it is set against |
| PadSettingsVm.AppliedEntry | Echopad.App/Settings/PadSettingsViewModel.cs:577-623 | blank text clears the override, an integer becomes the value clamped to [0, 127] and clears the override, other text is kept trimmed as the override |
| PadSettingsVm.AppliedEntryCanonical | Echopad.App/Settings/PadSettingsViewModel.cs:577-623 | whatever is typed, the entry is left with a value in [0, 127] and either no override or a trimmed, non-numeric one |
| PadSettingsVm.EntryRoundTrip | Echopad.App/Settings/PadSettingsViewModel.cs:239-283 | typing back what an entry box shows leaves the entry as it was |
| PadSettingsVm.NormalizeHex | Echopad.App/Settings/PadSettingsViewModel.cs:653-666 | blank text gives null; a result is '#' and six upper-case hex digits, exists exactly when the trimmed text with a '#' in front is a six-digit hex colour, and equals that text ignoring case |
| PadSettingsVm.NormalizeHexFixedPoints | Echopad.App/Settings/PadSettingsViewModel.cs:653-666 | exactly the canonical colours come back unchanged |
| PadSettingsVm.NormalizeHexIdempotent | Echopad.App/Settings/PadSettingsViewModel.cs:653-666 | normalising twice is normalising once |
| PadSettingsVm.NormalizeHexAddsHash | Echopad.App/Settings/PadSettingsViewModel.cs:660-664 | six hex digits without a '#' get one and come back upper-cased |
| PadSettingsVm.TriggerDisplayAsWritten | Echopad.App/Settings/PadSettingsViewModel.cs:181-196 | the display as written: blank text shows "", and indexing a split with no parts left throws |
| PadSettingsVm.MarkerAloneThrows | Echopad.App/Settings/PadSettingsViewModel.cs:186-195 | the non-blank text "\|RAW:" splits into no parts, so the getter reads parts[0] of an empty array |
| PadSettingsVm.TriggerDisplay | Echopad.App/Settings/PadSettingsViewModel.cs:181-196 | the display agrees with the getter wherever the getter returns, and shows "" where it throws |
| PadSettingsVm.LearnedTriggerDisplay | Echopad.App/Settings/PadSettingsViewModel.cs:186-190 | a trigger "bind\|RAW:hex" with non-empty pieces free of '\|' shows as "bind  [hex]" |
| PadSettingsVm.PadSettingsViewModel.constructor | Echopad.App/Settings/PadSettingsViewModel.cs:24-62 | the editor holds the pad's entry (created if missing), shows every stored field through its setter, and for a pad with a clip shows that clip with a window inside the clip's bound; the window is exactly OpenedTrim from 0..0 with the entry's trim, the pad's runtime trim and the lengths before and after the duration read |
| PadSettingsVm.PadSettingsViewModel.Load | Echopad.App/Settings/PadSettingsViewModel.cs:31-55 | ApplyFromSettings, then the pad's own clip when it has one, with the window inside the bound and equal to OpenedTrim of the old window |
| PadSettingsVm.PadSettingsViewModel.ApplyFromSettings | Echopad.App/Settings/PadSettingsViewModel.cs:497-522 | every property takes the entry's value through its setter (input source and LED values clamped, colours normalised), the window is TrimSetTo of the entry's trim, and the echo and drop-folder modes follow the setters' mutual exclusion |
| PadSettingsVm.PadSettingsViewModel.ApplyLooks | Echopad.App/Settings/PadSettingsViewModel.cs:509-521 | the LED, mode and colour properties are taken from the entry |
| PadSettingsVm.PadSettingsViewModel.ApplyClipAndBindings | Echopad.App/Settings/PadSettingsViewModel.cs:499-507 | the clip, routing, hotkey and trigger are taken from the entry, and the window is TrimSetTo of the entry's start and end |
| PadSettingsVm.PadSettingsViewModel.ApplyLeds | Echopad.App/Settings/PadSettingsViewModel.cs:509-514 | the LED flags and clamped values are taken from the entry |
| PadSettingsVm.PadSettingsViewModel.ApplyModes | Echopad.App/Settings/PadSettingsViewModel.cs:516-517 | echo then drop-folder mode through their setters, so drop-folder mode wins when both are stored |
| PadSettingsVm.PadSettingsViewModel.ApplyColors | Echopad.App/Settings/PadSettingsViewModel.cs:520-521 | the colour overrides are taken from the entry, normalised |
| PadSettingsVm.PadSettingsViewModel.PreferRuntimeClip | Echopad.App/Settings/PadSettingsViewModel.cs:34-54 | the pad's clip is shown, its runtime trim set through TrimSetTo when it differs from the entry's, its duration read only when unknown and the file exists, and the window is the final clamp of that, inside the bound |
| PadSettingsVm.PadSettingsViewModel.SetClipPath | Echopad.App/Settings/PadSettingsViewModel.cs:66-75 | the clip path is replaced and a change is raised only when it differs |
| PadSettingsVm.PadSettingsViewModel.Clamp | Echopad.App/Settings/PadSettingsViewModel.cs:544-574 | the window becomes ClampedTrim of the old one and a change is raised for each point that moved, start first |
| PadSettingsVm.PadSettingsViewModel.SetStartMs | Echopad.App/Settings/PadSettingsViewModel.cs:94-104 | an equal value changes nothing; a new one is written, the window clamped, and the result lies inside the bound |
| PadSettingsVm.PadSettingsViewModel.OpenClip | Echopad.App/Settings/PadSettingsViewModel.cs:34-54 | a pad without a clip leaves the clip and window; one with a clip gets PreferRuntimeClip's window, inside the bound |
| PadSettingsVm.PadSettingsViewModel.SetEndMs | Echopad.App/Settings/PadSettingsViewModel.cs:106-116 | an equal value changes nothing; a new one is written, the window clamped, and the result lies inside the bound |
| PadSettingsVm.PadSettingsViewModel.SetInputSource | Echopad.App/Settings/PadSettingsViewModel.cs:126-136 | the value is clamped into [1, 2] before the comparison |
| PadSettingsVm.PadSettingsViewModel.SetPreviewToMonitor | Echopad.App/Settings/PadSettingsViewModel.cs:139-148 | the flag is replaced and a change is raised only when it differs |
| PadSettingsVm.PadSettingsViewModel.SetPadHotkey | Echopad.App/Settings/PadSettingsViewModel.cs:154-163 | the hotkey is replaced and a change is raised only when it differs |
| PadSettingsVm.PadSettingsViewModel.SetMidiTriggerRaw | Echopad.App/Settings/PadSettingsViewModel.cs:165-178 | the trigger text is written into the held entry, and a change raises both the raw and the display notification |
| PadSettingsVm.PadSettingsViewModel.SetLedEnabled | Echopad.App/Settings/PadSettingsViewModel.cs:216-225 | only the chosen LED's flag changes |
| PadSettingsVm.PadSettingsViewModel.SetLedValue | Echopad.App/Settings/PadSettingsViewModel.cs:228-238 | only the chosen LED's value changes, to the value clamped into [0, 127] |
| PadSettingsVm.PadSettingsViewModel.ApplyLedEntry | Echopad.App/Settings/PadSettingsViewModel.cs:577-623 | the chosen LED's value and override become AppliedEntry of the old ones, the other LEDs are untouched, and the override is written into the held entry |
| PadSettingsVm.PadSettingsViewModel.SetRaw | Echopad.App/Settings/PadSettingsViewModel.cs:625-633 | only the chosen LED's override in the held entry changes |
| PadSettingsVm.PadSettingsViewModel.SetIsEchoMode | Echopad.App/Settings/PadSettingsViewModel.cs:314-331 | turning echo on turns drop-folder mode off, and the two are never both on afterwards unless they already were and nothing changed |
| PadSettingsVm.PadSettingsViewModel.SetIsDropFolderMode | Echopad.App/Settings/PadSettingsViewModel.cs:335-352 | turning drop-folder mode on turns echo off, and the two are never both on afterwards unless they already were and nothing changed |
| PadSettingsVm.PadSettingsViewModel.SetUiActiveHex | Echopad.App/Settings/PadSettingsViewModel.cs:359-369 | the stored colour is the normalised text |
| PadSettingsVm.PadSettingsViewModel.SetUiRunningHex | Echopad.App/Settings/PadSettingsViewModel.cs:372-382 | the stored colour is the normalised text |
| PadSettingsVm.PadSettingsViewModel.ApplyToPadModel | Echopad.App/Settings/PadSettingsViewModel.cs:524-539 | the pad takes the editor's clip, trim, routing and modes, and becomes Loaded with a clip, otherwise Armed or Empty by echo mode |
| PadSettingsVm.PadSettingsViewModel.SetClipFromFile | Echopad.App/Settings/PadSettingsViewModel.cs:391-407 | the new clip with its duration, the window reset to the whole clip, and the pad updated |
| PadSettingsVm.PadSettingsViewModel.ResetTrim | Echopad.App/Settings/PadSettingsViewModel.cs:435-441 | the window becomes the whole clip and the pad follows |
| PadSettingsVm.PadSettingsViewModel.NudgeStart | Echopad.App/Settings/PadSettingsViewModel.cs:443-448 | the start moves by delta with 32-bit wrap, the window is clamped and inside the bound, and the pad follows |
| PadSettingsVm.PadSettingsViewModel.NudgeEnd | Echopad.App/Settings/PadSettingsViewModel.cs:450-455 | the end moves by delta with 32-bit wrap, the window is clamped and inside the bound, and the pad follows |
| PadSettingsVm.PadSettingsViewModel.Save | Echopad.App/Settings/PadSettingsViewModel.cs:457-492 | the pad is updated first, then the pad's dictionary entry (the one the editor holds) takes every editor field; the armed raw override is kept |
| Profiles.ClampProfile | Echopad.App/Services/ProfileService.cs:328-333 | the profile index always lands in [1, 16], unchanged when already there, 1 below and 16 above |
| Profiles.CreateFreshStore | Echopad.App/Services/ProfileService.cs:295-301 | the loop builds the fresh store: active profile 1 and profiles 1..16 in order, each with its default name |
| Profiles.FirstPos | Echopad.App/Services/ProfileService.cs:310 | a position is found exactly when some profile has the index, it holds that index, and no earlier profile does |
| Profiles.MissingUpTo | Echopad.App/Services/ProfileService.cs:308-313 | every profile added for a gap is a fresh profile with an index in 1..n that the list lacked |
| Profiles.MissingUpToHas | Echopad.App/Services/ProfileService.cs:308-313 | the gap fillers cover exactly the indices of 1..n the list lacks |
| Profiles.DedupeProperties | Echopad.App/Services/ProfileService.cs:316-318 | grouping by index and keeping each group's first leaves distinct indices, the same index set, and for each index its first profile |
| Profiles.DedupeDistinct | Echopad.App/Services/ProfileService.cs:316-318 | a list whose indices are already distinct is left as it is |
| Profiles.Insert | Echopad.App/Services/ProfileService.cs:319 | one step of the ordering: one more element, the same elements plus the new one, the same indices plus its index |
| Profiles.SortByIndex | Echopad.App/Services/ProfileService.cs:319 | ordering by index keeps the length, the elements and the index set |
| Profiles.InsertAscending | Echopad.App/Services/ProfileService.cs:319 | inserting an index the ascending list lacks keeps it strictly ascending |
| Profiles.SortAscending | Echopad.App/Services/ProfileService.cs:316-320 | after the dedupe, ordering by index gives strictly ascending indices |
| Profiles.SortSorted | Echopad.App/Services/ProfileService.cs:319 | ordering a strictly ascending list changes nothing |
| Profiles.FillPads | Echopad.App/Services/ProfileService.cs:322-323 | filling in the pad maps keeps the number of profiles |
| Profiles.NormalizeStore | Echopad.App/Services/ProfileService.cs:303-326 | the four steps, gap filling, dedupe with ordering, pad maps and the clamp, compute the normal form of the store |
| Profiles.AddMissing | Echopad.App/Services/ProfileService.cs:308-313 | the loop appends one fresh profile for each index of 1..16 the stored list lacks, in ascending order |
| Profiles.FillPadsInPlace | Echopad.App/Services/ProfileService.cs:322-323 | the loop gives every profile a pad map and changes nothing else |
| Profiles.FillPadsIndices | Echopad.App/Services/ProfileService.cs:322-323 | filling in pad maps keeps every index in place, and every map is then present |
| Profiles.NormalizedShape | Echopad.App/Services/ProfileService.cs:303-326 | the normalised store lists ascending indices, exactly the stored ones plus 1..16, each the first stored profile with that index or a fresh one, all with pad maps, and the active index clamped |
| Profiles.NormalIdentity | Echopad.App/Services/ProfileService.cs:303-326 | a store already in normal form comes through NormalizeStore unchanged |
| Profiles.NormalizedIsNormal | Echopad.App/Services/ProfileService.cs:303-326 | whatever the file held, NormalizeStore ends in normal form |
| Profiles.NormalizedIdempotent | Echopad.App/Services/ProfileService.cs:303-326 | normalising twice is normalising once |
| Profiles.FreshStoreShape | Echopad.App/Services/ProfileService.cs:295-301 | the fresh store has 16 profiles, profile k+1 at position k with its default name and an empty pad map, and an active index in range |
| Profiles.IndexedInOrderNormal | Echopad.App/Services/ProfileService.cs:303-326 | profiles 1..16 in order with pad maps and active profile 1 are already normal, so the fresh store is |
| Profiles.ProfileNames | Echopad.App/Services/ProfileService.cs:299 | the default names are "Profile " and two digits, from "Profile 01" to "Profile 16" |
| ProfileRules.LoadedIsNormal | Echopad.App/Services/ProfileService.cs:34-58 | whatever profiles.json holds, LoadStore hands back a store in normal form |
| ProfileRules.SaveLoadRoundTrip | Echopad.App/Services/ProfileService.cs:34-65 | loading what SaveStore wrote gives back the normalised store and leaves the file alone |
| ProfileRules.LoadStable | Echopad.App/Services/ProfileService.cs:34-58 | a second load sees the same store as the first and rewrites nothing |
| ProfileRules.LookupNormal | Echopad.App/Services/ProfileService.cs:80-96 | in a normal store every index 1..16 finds its profile, with a pad map, so GetProfile never has to add one |
| ProfileRules.FirstPosSameIndices | Echopad.App/Services/ProfileService.cs:104 | the first-match search depends only on the profiles' indices |
| ProfileRules.UpdateThenLookup | Echopad.App/Services/ProfileService.cs:98-114 | after UpdateProfile, saved and loaded again, the clamped index returns the new name and pads (absent pads as empty) and every other index returns what it did before |
| ProfileRules.UpdatedInPlace | Echopad.App/Services/ProfileService.cs:98-114 | on a normal store the update rewrites only the matching profile's name and pads in place, so the store stays normal |
| ProfileRules.SeedEffect | Echopad.App/Services/ProfileService.cs:214-234 | profile 1 takes the current pads exactly when it had none and the settings have some; otherwise its pads stay; other profiles are never touched |
| ProfileRules.SeededLookup | Echopad.App/Services/ProfileService.cs:226-233 | the seeded store, saved and loaded again, gives profile 1 the pads and leaves the other profiles as they were |
| ProfileRules.OverlayEffect | Echopad.App/Services/ProfileService.cs:146-162 | the overlay adds a pad for each profile-1 pad the target lacks, changes only the trigger display (and the hotkey with includeHotkeys) of those pads, and leaves other pads alone |
| ProfileRules.FillSlotNeverOverwrites | Echopad.App/Services/ProfileService.cs:189-208 | a slot field that is set stays; a blank one takes a non-blank pad value (the hotkey only with includeHotkeys); filling again from the same pad changes nothing |
| ProfileRules.SyncedSlots | Echopad.App/Services/ProfileService.cs:180-209 | the slot list keeps its length, and slot i of 1..16 is filled from profile 1's pad i when there is one |
| ProfileRules.PreservedEffect | Echopad.App/Services/ProfileService.cs:250-264 | preserving keeps exactly the current pads; a pad the profile already stored keeps the stored trigger display and hotkey and takes every other field from the current pad |
| ProfileServices.ProfileService.constructor | Echopad.App/Services/ProfileService.cs:20-23 | the service starts on the given profiles.json contents |
| ProfileServices.ProfileService.SaveStore | Echopad.App/Services/ProfileService.cs:60-65 | the caller's store is normalised and the file holds exactly that store |
| ProfileServices.ProfileService.LoadStore | Echopad.App/Services/ProfileService.cs:34-58 | a missing, unreadable or null-entry file gives the fresh store and is rewritten; a JSON null gives the fresh store; otherwise the stored store normalised; the result is always normal |
| ProfileServices.ProfileService.GetActiveProfileIndex | Echopad.App/Services/ProfileService.cs:67-71 | the loaded store's active profile, always in [1, 16] |
| ProfileServices.ProfileService.SetActiveProfileIndex | Echopad.App/Services/ProfileService.cs:73-78 | the file holds the loaded store with the clamped index as its active profile |
| ProfileServices.ProfileService.GetProfile | Echopad.App/Services/ProfileService.cs:80-96 | the loaded store's profile with the clamped index, with a pad map; the file changes only as the load does |
| ProfileServices.ProfileService.UpdateProfile | Echopad.App/Services/ProfileService.cs:98-114 | the file holds the loaded store with the clamped profile's name and pads replaced (see UpdateThenLookup) |
| ProfileServices.ProfileService.GetPadsForProfile | Echopad.App/Services/ProfileService.cs:120-128 | a copy of the clamped profile's pads, empty when it has none |
| ProfileServices.ProfileService.EnsureSeedFromCurrentSettings | Echopad.App/Services/ProfileService.cs:214-234 | the file becomes SeedFile of the old one and the settings' pads (see SeedEffect) |
| ProfileServices.ProfileService.OverlayPadMapFromProfile1 | Echopad.App/Services/ProfileService.cs:134-163 | no settings change nothing; otherwise profile 1 is seeded and its pads are overlaid on the target's pads (see OverlayEffect) |
| ProfileServices.ProfileService.SyncProfileSwitchSlotsFromProfile1Pads | Echopad.App/Services/ProfileService.cs:164-210 | the switch settings exist with exactly 16 slots, profile 1 is seeded, the slots are filled as SyncedSlots says, and the pads are untouched |
| ProfileServices.ProfileService.SavePadsToProfile | Echopad.App/Services/ProfileService.cs:239-272 | the clamped profile's pads become the current pads (a pad already stored keeping its trigger and hotkey when preserving) and the store is updated with them |
| ProfileServices.ProfileService.ApplyProfileToSettings | Echopad.App/Services/ProfileService.cs:278-290 | the settings' pads become the clamped profile's pads, empty when it has none; nothing else in the settings changes |
| ProfileServices.EnsureSwitch | Echopad.App/Services/ProfileService.cs:169-170 | the switch settings are kept or created, their slots brought to exactly 16, and the pads untouched |
| ProfileServices.OverlayStep | Echopad.App/Services/ProfileService.cs:148-162 | one turn of the overlay loop extends the overlay by one key |
| ProfileServices.OverlayPads | Echopad.App/Services/ProfileService.cs:146-162 | the loop computes the overlay of every profile-1 pad |
| ProfileServices.FillSlotsFromPads | Echopad.App/Services/ProfileService.cs:180-209 | the loop over slots 1..16, bounded by the list's length, computes SyncedSlots |
| ProfileServices.PreserveStored | Echopad.App/Services/ProfileService.cs:250-264 | the loop computes the preserved pads |
| ProfileServices.PreserveStep | Echopad.App/Services/ProfileService.cs:252-263 | one turn of the preserve loop extends the preserved keys by one |
| ProfileSwitching.StoppedAll | Echopad.App/MainWindow.xaml.cs:1445-1462 | every pad gets the hard stop: not busy, Loaded with its file present, else Armed or Empty by echo mode, and its playhead at its start |
| ProfileSwitching.OverlayChoice | Echopad.App/MainWindow.xaml.cs:1487-1499 | an overlay happens exactly when either link flag is set, and it carries hotkeys exactly when the MIDI-and-hotkeys flag is set |
| ProfileSwitching.SwitchStore | Echopad.App/MainWindow.xaml.cs:1466-1499 | saving the current pads, setting the active profile, applying it and overlaying leave the settings' pads and profiles.json as SwitchedSettings says |
| ProfileSwitching.ApplyAndOverlay | Echopad.App/MainWindow.xaml.cs:1480-1499 | applying the target profile and the chosen overlay give AppliedAndOverlaid |
| ProfileSwitching.SwitchToProfile | Echopad.App/MainWindow.xaml.cs:1425-1512 | a blocked switch or one to the active profile changes nothing; otherwise the target becomes active, the files hold the switched settings and the pad values are reset to their idle state and hydrated from them |
| ProfileSwitching.SwitchStopsEverything | Echopad.App/MainWindow.xaml.cs:1445-1508 | after a switch no pad is playing, each playhead sits at its start, and a pad is Loaded exactly when its stored clip exists |
| ProfileSwitching.SavedPadsLookup | Echopad.App/MainWindow.xaml.cs:1469-1470 | saving into the profile being left gives it the current pads and leaves every other profile as it was |
| ProfileSwitching.ActiveSetLookup | Echopad.App/MainWindow.xaml.cs:1475 | setting the active profile changes only the active index |
| ProfileSwitching.SwitchProfileContents | Echopad.App/MainWindow.xaml.cs:1466-1476 | before any overlay the target is active, the profile left holds the pads that were current, and every other profile keeps what it stored |
| ProfileSwitching.SwitchBackRestores | Echopad.App/MainWindow.xaml.cs:1466-1482 | switching away and straight back without an overlay brings back the pads that were current before |
| Settings.CreateDefault | Echopad.Core/PadSettings.cs:5-54 | a default pad has the given index, all three LEDs on at 25, 127 and 0, input 1, preview to the monitor on, and nothing else set |
| Settings.WithPadEffect | Echopad.Core/GlobalSettings.cs:48-56 | GetOrCreatePad adds only the requested key, with a default pad, and leaves every existing pad as it was |
| Settings.EnsuredSlots | Echopad.Core/ProfileSwitchSettings.cs:21-30 | the slot list ends with exactly 16 slots: the first 16 stored ones, then empty slots |
| Settings.EnsuredSlotsIdempotent | Echopad.Core/ProfileSwitchSettings.cs:21-30 | EnsureSlots on a list of 16 changes nothing |
| Settings.ProfileSwitchSettings.constructor | Echopad.Core/ProfileSwitchSettings.cs:8-19 | the initial switch settings: active profile 1, per-profile MIDI, no modifier bind, both link flags off, "Ctrl+Shift" and no slots |
| Settings.ProfileSwitchSettings.EnsureSlots | Echopad.Core/ProfileSwitchSettings.cs:21-30 | the slots become EnsuredSlots of the old list and every other setting is unchanged |
| Settings.GlobalSettings.constructor | Echopad.Core/GlobalSettings.cs:7-46 | the initial settings: the five theme colours, dropping enabled, armed LED values 38 and 48, no pads and no folders |
| Settings.GlobalSettings.GetOrCreatePad | Echopad.Core/GlobalSettings.cs:48-56 | the stored pad when the index has one, with nothing changed; otherwise a default pad that is also stored |
| SettingsVm.Without | Echopad.App/Settings/SettingsViewModel.cs:253-257 | removing by case-insensitive match never makes the list longer |
| SettingsVm.WithoutAppend | Echopad.App/Settings/SettingsViewModel.cs:253-257 | removal works on each part of a list on its own, so the folders that stay keep their order |
| SettingsVm.WithoutMembers | Echopad.App/Settings/SettingsViewModel.cs:253-257 | the folders that stay are exactly those that differ from the path ignoring case |
| SettingsVm.WithoutUnlisted | Echopad.App/Settings/SettingsViewModel.cs:253-257 | a list with no folder matching the path comes back unchanged |
| SettingsVm.WithoutSubsequence | Echopad.App/Settings/SettingsViewModel.cs:253-257 | removal keeps a list free of case-insensitive duplicates |
| SettingsVm.AddedFolderFacts | Echopad.App/Settings/SettingsViewModel.cs:234-246 | a non-blank path is listed afterwards, the old folders stay first and in order, at most one is added, no case-insensitive duplicate appears, and adding twice is adding once |
| SettingsVm.RemovedFolderFacts | Echopad.App/Settings/SettingsViewModel.cs:248-258 | after removing a non-blank path no folder matches it, every other folder stays, nothing new appears, no duplicate appears, and removing twice is removing once |
| SettingsVm.RemoveUndoesAdd | Echopad.App/Settings/SettingsViewModel.cs:234-258 | removing a path just added to a list where it was not listed gives the list back |
| SettingsVm.SettingsViewModel.constructor | Echopad.App/Settings/SettingsViewModel.cs:28-47 | the editor holds the loaded settings and shows a copy of their folder list |
| SettingsVm.SettingsViewModel.SetMidiArmedInput1Value | Echopad.App/Settings/SettingsViewModel.cs:91-101 | the stored value is the input clamped into [0, 127], with one notification only when it changed |
| SettingsVm.SettingsViewModel.SetMidiArmedInput2Value | Echopad.App/Settings/SettingsViewModel.cs:103-113 | the stored value is the input clamped into [0, 127], with one notification only when it changed |
| SettingsVm.SettingsViewModel.SetDropFolderEnabled | Echopad.App/Settings/SettingsViewModel.cs:119-123 | the flag is written and always notified |
| SettingsVm.SettingsViewModel.SetDropWatchFolder | Echopad.App/Settings/SettingsViewModel.cs:125-129 | the folder is written and always notified |
| SettingsVm.SettingsViewModel.AddFolder | Echopad.App/Settings/SettingsViewModel.cs:234-246 | the shown list becomes AddedFolder of the old one (see AddedFolderFacts) |
| SettingsVm.SettingsViewModel.RemoveFolder | Echopad.App/Settings/SettingsViewModel.cs:248-258 | the backward walk leaves RemovedFolder of the old list (see RemovedFolderFacts) |
| SettingsVm.SettingsViewModel.RemoveStep | Echopad.App/Settings/SettingsViewModel.cs:253-257 | one step of the backward walk keeps or drops position i on its own |
| SettingsVm.SettingsViewModel.SetDropFolder | Echopad.App/Settings/SettingsViewModel.cs:132-142 | a blank path changes nothing; otherwise the path is watched, dropping is enabled, and the path is listed |
| SettingsVm.SettingsViewModel.ClearDropFolder | Echopad.App/Settings/SettingsViewModel.cs:144-148 | no watched folder, dropping disabled, two notifications, and the folder list unchanged |
| SettingsVm.SettingsViewModel.Save | Echopad.App/Settings/SettingsViewModel.cs:260-264 | the settings' folder list becomes the shown list |
| ProfileManagerVm.LoadedFlags | Echopad.App/Settings/ProfileManagerViewModel.cs:202-210 | the stored flags come back aligned: with both links stored the MIDI-only one is dropped, and full manual holds exactly when no link is on |
| ProfileManagerVm.FlagSettersExclusive | Echopad.App/Settings/ProfileManagerViewModel.cs:36-115 | each of the three radio setters keeps at most one link on and full manual free of links; turning one on leaves exactly that one on |
| ProfileManagerVm.SavedLinks | Echopad.App/Settings/ProfileManagerViewModel.cs:356-365 | full manual writes both links off, otherwise the shown links are written |
| ProfileManagerVm.SaveRealigns | Echopad.App/Settings/ProfileManagerViewModel.cs:356-394 | after a save the flags are aligned; aligned flags come back unchanged, and with no link on full manual is turned back on |
| ProfileManagerVm.SyncedRows | Echopad.App/Settings/ProfileManagerViewModel.cs:311-332 | the sync keeps the number of rows |
| ProfileManagerVm.SyncedRowsFacts | Echopad.App/Settings/ProfileManagerViewModel.cs:311-332 | a set bind stays, a blank one takes profile 1's non-blank value (the hotkey only in the hotkey link), names and numbers never change, and rows past 16 or without a pad stay |
| ProfileManagerVm.SyncedRowsIdempotent | Echopad.App/Settings/ProfileManagerViewModel.cs:311-332 | a second sync from the same pads changes nothing |
| ProfileManagerVm.LoadedSwitch | Echopad.App/Settings/ProfileManagerViewModel.cs:190-192 | the loaded section always has exactly 16 slots |
| ProfileManagerVm.CopiedBinds | Echopad.App/Settings/ProfileManagerViewModel.cs:371-382 | copying the rows' binds keeps the number of slots |
| ProfileManagerVm.SavedRecord | Echopad.App/Settings/ProfileManagerViewModel.cs:348-382 | the written section always has exactly 16 slots |
| ProfileManagerVm.OpenedFacts | Echopad.App/Settings/ProfileManagerViewModel.cs:169-267 | after opening, the flags are aligned, the active profile is in [1, 16], the hotkey modifier is never blank, the 16 rows are numbered 1..16 with non-blank names, and nothing was saved |
| ProfileManagerVm.SyncedFrame | Echopad.App/Settings/ProfileManagerViewModel.cs:288-340 | the sync changes only the rows and the profiles.json load; in full manual, while initialising or with no link it changes nothing |
| ProfileManagerVm.SeededOpened | Echopad.App/Settings/ProfileManagerViewModel.cs:262-264 | opening with the auto-seed run: only the rows and the profiles.json load differ from Opened, set binds stay, and with a link on and profile 1 holding pads the rows are the synced ones |
| ProfileManagerVm.OpenSkipsSeed | Echopad.App/Settings/ProfileManagerViewModel.cs:262-292 | the auto-seed called while initialising changes nothing, so a blank slot bind that profile 1's pad fills under SeededOpened stays blank under Opened |
| ProfileManagerVm.SavedFacts | Echopad.App/Settings/ProfileManagerViewModel.cs:342-401 | a save writes the clamped active profile, links off in full manual, the synced rows' binds into the first slots and the loaded names, adopts the section, and leaves the flags aligned |
| ProfileManagerVm.SavedIdempotent | Echopad.App/Settings/ProfileManagerViewModel.cs:342-401 | a second save straight after a save writes nothing new |
| ProfileManagerVm.SyncedAgain | Echopad.App/Settings/ProfileManagerViewModel.cs:288-401 | a sync straight after a save changes nothing |
| ProfileManagerVm.AutoSavedGate | Echopad.App/Settings/ProfileManagerViewModel.cs:269-280 | an auto-save is skipped while initialising or within 200 ms of the last one, and otherwise saves and records the time |
| ProfileManagerVm.SettersKeepExclusive | Echopad.App/Settings/ProfileManagerViewModel.cs:36-115 | whatever saves they trigger, the setters keep the links exclusive, and turning a link on leaves exactly that link on |
| ProfileManagerVm.AutoSavedExclusive | Echopad.App/Settings/ProfileManagerViewModel.cs:269-280 | an auto-save keeps the links exclusive and leaves aligned flags as they were |
| ProfileManagerVm.LinkChangedExclusive | Echopad.App/Settings/ProfileManagerViewModel.cs:83-84 | the sync and save after a link change keep the links exclusive and leave aligned flags as they were |
| ProfileManagerVm.BlankBindsUpdate | Echopad.App/Settings/ProfileManagerViewModel.cs:311-332 | replacing one row changes the count of blank binds by that row's change, so each write of the sync lowers it |
| ProfileManagerVm.NestedSave | Echopad.App/Settings/ProfileManagerViewModel.cs:342-401 | SaveInternal with the sync's row writes re-entering it; it never adds a blank bind and keeps the row count |
| ProfileManagerVm.NestedSync | Echopad.App/Settings/ProfileManagerViewModel.cs:288-340 | the sync with every row write saving at once; it never adds a blank bind and keeps the row count |
| ProfileManagerVm.NestedFill | Echopad.App/Settings/ProfileManagerViewModel.cs:311-332 | the sync loop from one row on, each filled bind going through the row setter; it never adds a blank bind and keeps the row count |
| ProfileManagerVm.NestedRowSet | Echopad.App/Settings/ProfileManagerViewModel.cs:445-466 | a row setter filling a blank bind, then saving; it strictly lowers the count of blank binds |
| ProfileManagerVm.SyncedRowsTargetStays | Echopad.App/Settings/ProfileManagerViewModel.cs:311-332 | a row moved part of the way towards its filled form leaves the sync's target rows unchanged |
| ProfileManagerVm.SyncedRowAt | Echopad.App/Settings/ProfileManagerViewModel.cs:311-332 | row j after the sync is row j filled from profile 1's pad j + 1 when j < 16 and that pad exists, and row j otherwise |
| ProfileManagerVm.SaveAtTarget | Echopad.App/Settings/ProfileManagerViewModel.cs:342-401 | saving with one row moved towards the sync's target is saving with all rows at the target, and that save keeps the flags and the loaded profiles.json |
| ProfileManagerVm.NestedRowSetCollapses | Echopad.App/Settings/ProfileManagerViewModel.cs:445-466 | a row setter filling a bind during the sync ends in the state of one save with all rows at the sync's target |
| ProfileManagerVm.NestedFillSkips | Echopad.App/Settings/ProfileManagerViewModel.cs:313-316 | a row with nothing to fill leaves the state as it is and the loop goes on to the next row |
| ProfileManagerVm.NestedFillWrites | Echopad.App/Settings/ProfileManagerViewModel.cs:318-331 | a row with a bind to fill saves into the target state, and the loop goes on from there |
| ProfileManagerVm.NestedFillCollapses | Echopad.App/Settings/ProfileManagerViewModel.cs:311-332 | from any row on, with the earlier rows already filled, the re-entrant loop either writes nothing or ends in the state of one save with all rows filled |
| ProfileManagerVm.NestedSaveCollapses | Echopad.App/Settings/ProfileManagerViewModel.cs:342-401 | SaveInternal with its re-entrant saves ends exactly in the state of Saved, the model's single save |
| ProfileManagerVm.LinkChangedCollapses | Echopad.App/Settings/ProfileManagerViewModel.cs:83-84 | a link setter's sync, with the saves nested in it, followed by the auto-save request ends exactly where LinkChanged does |
| ProfileManagerVm.RowSetterSaves | Echopad.App/Settings/ProfileManagerViewModel.cs:445-455 | a new row bind outside initialisation saves at once, and the saved slot carries it unless it is blank and the sync fills it |
| ProfileManagerVm.ProfileManagerViewModel.constructor | Echopad.App/Settings/ProfileManagerViewModel.cs:169-267 | the window opens in the state Opened describes (see OpenedFacts) |
| ProfileManagerVm.ProfileManagerViewModel.SyncSlots | Echopad.App/Settings/ProfileManagerViewModel.cs:288-340 | the sync leaves the state Synced describes, and reports a write exactly when a row changed |
| ProfileManagerVm.ProfileManagerViewModel.FillRows | Echopad.App/Settings/ProfileManagerViewModel.cs:311-332 | the loop computes SyncedRows |
| ProfileManagerVm.ProfileManagerViewModel.SaveInternal | Echopad.App/Settings/ProfileManagerViewModel.cs:342-401 | the save leaves the state Saved describes (see SavedFacts) |
| ProfileManagerVm.ProfileManagerViewModel.CopyBinds | Echopad.App/Settings/ProfileManagerViewModel.cs:371-382 | the loop computes CopiedBinds |
| ProfileManagerVm.ProfileManagerViewModel.RequestAutoSave | Echopad.App/Settings/ProfileManagerViewModel.cs:269-280 | the state AutoSaved describes (see AutoSavedGate) |
| ProfileManagerVm.ProfileManagerViewModel.SetPadsFullManual | Echopad.App/Settings/ProfileManagerViewModel.cs:36-58 | an equal value changes nothing; otherwise the flag changes, turning on clears both links, and an auto-save is requested |
| ProfileManagerVm.ProfileManagerViewModel.AfterLinkChange | Echopad.App/Settings/ProfileManagerViewModel.cs:83-84 | the sync, a save when a row was written, and an auto-save request |
| ProfileManagerVm.ProfileManagerViewModel.SetPadsMidiSameAsProfile1 | Echopad.App/Settings/ProfileManagerViewModel.cs:60-86 | an equal value changes nothing; otherwise the link changes, turning on clears the other link and full manual, then the rows sync and save |
| ProfileManagerVm.ProfileManagerViewModel.SetPadsMidiAndHotkeysSameAsProfile1 | Echopad.App/Settings/ProfileManagerViewModel.cs:89-115 | an equal value changes nothing; otherwise the link changes, turning on clears the other link and full manual, then the rows sync and save |
| ProfileManagerVm.ProfileManagerViewModel.SetActiveProfileIndex | Echopad.App/Settings/ProfileManagerViewModel.cs:118-129 | the value is clamped into [1, 16], and only a new value is stored and auto-saved |
| ProfileManagerVm.ProfileManagerViewModel.SetMidiModifierBind | Echopad.App/Settings/ProfileManagerViewModel.cs:132-142 | an equal value changes nothing; a new one is stored and auto-saved |
| ProfileManagerVm.ProfileManagerViewModel.SetHotkeyModifier | Echopad.App/Settings/ProfileManagerViewModel.cs:145-155 | an equal value changes nothing; a new one is stored and auto-saved |
| ProfileManagerVm.ProfileManagerViewModel.OnModifierLearned | Echopad.App/Settings/ProfileManagerViewModel.cs:253-258 | the learned bind becomes the MIDI modifier, and the state is the bind setter's followed by one more auto-save request (ModifierLearned) |
| ProfileManagerVm.ModifierLearned | Echopad.App/Settings/ProfileManagerViewModel.cs:253-258 | the bind is the learned one; a new bind ends in the setter's single auto-save (the extra request is throttled away), an unchanged bind in one auto-save request on the old state |
| ProfileManagerVm.AutoSaveIdempotent | Echopad.App/Settings/ProfileManagerViewModel.cs:269-280 | a second auto-save request at the same time leaves the state of the first |
| ProfileManagerVm.ProfileManagerViewModel.SetRowMidiBind | Echopad.App/Settings/ProfileManagerViewModel.cs:445-455 | an equal value changes nothing; a new one is written to the row and saved at once unless initialising |
| ProfileManagerVm.ProfileManagerViewModel.SetRowHotkeyBind | Echopad.App/Settings/ProfileManagerViewModel.cs:457-468 | an equal value changes nothing; a new one is written to the row and saved at once unless initialising |
| ProfileManagerVm.ProfileManagerViewModel.SetRowName | Echopad.App/Settings/ProfileManagerViewModel.cs:432-442 | only the row's name changes, and nothing is saved |
| TrimWheel.WheelDeltaFacts | Echopad.App/UI/Behaviors/PadTrimWheelBehavior.cs:132-140 | less than a notch either way does nothing; otherwise the move is a non-zero whole number of steps (50 ms, 100 ms with Shift) with the wheel's sign, the notch count truncated toward zero |
| TrimWheel.MaxMs | Echopad.App/UI/Behaviors/PadTrimWheelBehavior.cs:152 | the clip length in whole ms, never negative |
| TrimWheel.NextStart | Echopad.App/UI/Behaviors/PadTrimWheelBehavior.cs:156-166 | the new start is at least 0, within a known clip length, and not past a set end |
| TrimWheel.NextEnd | Echopad.App/UI/Behaviors/PadTrimWheelBehavior.cs:170-180 | the new end is at least 0 and the start, and within a known clip length when the start is |
| TrimWheel.AppliedKeepsBounds | Echopad.App/UI/Behaviors/PadTrimWheelBehavior.cs:150-182 | every wheel move, on either point, keeps both points non-negative, the start not past a set end, and both inside a known clip |
| TrimWheel.AppliedKeepsTrimBounds | Echopad.App/UI/Behaviors/PadTrimWheelBehavior.cs:150-182 | on a clip of known length a well-formed window stays well-formed under a start move, and under an end move exactly when the end stays positive |
| TrimWheel.EndCanReachZero | Echopad.App/UI/Behaviors/PadTrimWheelBehavior.cs:170-180 | one notch down from a 50 ms end with start 0 leaves the end at 0, which the pad editor's clamp reads as the whole clip |
| TrimWheel.EndMoveStopsAtStart | Echopad.App/UI/Behaviors/PadTrimWheelBehavior.cs:170-180 | an end moved down to or past the start stops exactly at the start; with the start at 0 on a known clip, the pad editor's clamp then reads that window as the whole clip |
| TrimWheel.AppliedExact | Echopad.App/UI/Behaviors/PadTrimWheelBehavior.cs:150-182 | inside the bounds and without 32-bit wrap, the point lands exactly where the wheel moved it and the other point stays |
| TrimWheel.ApplyTrimDelta | Echopad.App/UI/Behaviors/PadTrimWheelBehavior.cs:150-182 | only the targeted trim point of the pad changes, to the bounded move |
| TrimWheel.OnPreviewMouseWheel | Echopad.App/UI/Behaviors/PadTrimWheelBehavior.cs:121-148 | the event is handled exactly when the behaviour is active, the element shows a pad and the wheel moved a whole notch; then the trim moves and, when wired, the pad's settings entry takes it; otherwise nothing changes |
| TrimWheel.PersistTrim | Echopad.App/UI/Behaviors/PadTrimWheelBehavior.cs:184-202 | the pad's settings entry, created when missing, takes the pad's trim and no other pad changes |
| BrushConverter.Decoded | Echopad.App/UI/Converters/PadVisualBrushConverter.cs:32-51 | the inputs decode exactly when there are six or more values with a state, a flag, an index and settings in their places; a non-string clip is null and a non-int input is 1 |
| BrushConverter.ModeOf | Echopad.App/UI/Converters/PadVisualBrushConverter.cs:53-98 | "Background" and "Glow" pick their modes ignoring case and surrounding space, and a missing parameter means the border |
| BrushConverter.VisualStateMatchesLed | Echopad.App/UI/Converters/PadVisualBrushConverter.cs:58-71 | the colour normalises the state as the pad's LED does: Playing only with a clip, Armed exactly without a clip in echo mode |
| BrushConverter.HexRules | Echopad.App/UI/Converters/PadVisualBrushConverter.cs:75-90 | a pad override wins for Playing and Loaded, the armed colour follows the input whose LED value is used, Empty is always grey, and the fallbacks are the theme defaults |
| BrushConverter.ParseColor | Echopad.App/UI/Converters/PadVisualBrushConverter.cs:111 | a colour parses only from '#' and 3, 4, 6 or 8 hex digits after trimming |
| BrushConverter.RgbHexRoundTrip | Echopad.App/UI/Converters/PadVisualBrushConverter.cs:111 | every six-digit colour text parses back to the opaque colour it spells |
| BrushConverter.CanonicalColorParses | Echopad.App/UI/Converters/PadVisualBrushConverter.cs:111 | every colour the pad editor stores parses, to an opaque colour |
| BrushConverter.SpelledCanonical | Echopad.App/UI/Converters/PadVisualBrushConverter.cs:78-89 | '#' and six upper-case hex digits is the pad editor's normal form |
| BrushConverter.FallbacksCanonical | Echopad.App/UI/Converters/PadVisualBrushConverter.cs:78-89 | all five built-in fallback colours are in the pad editor's normal form |
| BrushConverter.GlowFacts | Echopad.App/UI/Converters/PadVisualBrushConverter.cs:123-141 | the glow is opaque, never darker, 30 brighter where there is room and capped at 255, and a second lift changes nothing only when every component is already capped |
| BrushConverter.BrushOf | Echopad.App/UI/Converters/PadVisualBrushConverter.cs:104-145 | a colour that fails to parse gives a transparent brush in every mode, and only such a colour does |
| BrushConverter.EditorColorsPaint | Echopad.App/UI/Converters/PadVisualBrushConverter.cs:30-99 | with colours absent or as the pad editor stores them, every pad is painted in every state and mode |
| BrushConverter.HexForCanonical | Echopad.App/UI/Converters/PadVisualBrushConverter.cs:75-90 | with overrides absent or canonical, the chosen colour is canonical |
| BrushConverter.Convert | Echopad.App/UI/Converters/PadVisualBrushConverter.cs:30-99 | a failed type test gives a transparent brush; otherwise the pad's entry is created when missing and the brush is that of the chosen colour in the chosen mode |
| PadKeymap.LayoutDistinct | Echopad.App/UI/Input/PadKeymap.cs:38-48 | the sixteen layout keys are distinct |
| PadKeymap.EveryPadHasItsKey | Echopad.App/UI/Input/PadKeymap.cs:34-50 | every pad number 1..16 has its layout key in the table, mapping back to it |
| PadKeymap.EveryKeyIsLayoutKey | Echopad.App/UI/Input/PadKeymap.cs:34-50 | every mapped key is the layout key of its pad number, which lies in 1..16 |
| PadKeymap.LayoutKeys | Echopad.App/UI/Input/PadKeymap.cs:38-48 | the layout keys in pad order, sixteen of them |
| PadKeymap.DistinctCount | Echopad.App/UI/Input/PadKeymap.cs:34-50 | a key list without repeats has as many distinct keys as entries |
| PadKeymap.TableIsLayout | Echopad.App/UI/Input/PadKeymap.cs:34-50 | the table is a one-to-one map of exactly sixteen layout keys onto exactly the pad numbers 1..16 |
| PadKeymap.Keymap.constructor | Echopad.App/UI/Input/PadKeymap.cs:20-23 | the keymap holds the default table |
| PadKeymap.Keymap.TryGetPadNumber | Echopad.App/UI/Input/PadKeymap.cs:28-29 | found exactly for a mapped key, with its pad number, and 0 otherwise |
| PadKeymap.LookupFacts | Echopad.App/UI/Input/PadKeymap.cs:26-29 | on the default table a lookup succeeds exactly for the sixteen layout keys, never for any other key |
| PadKeymap.RowsAndColumns | Echopad.App/UI/Input/PadKeymap.cs:10-14 | the key in row r and column c of the layout triggers pad 4r + c + 1 |
| Base.Clamp7 | Echopad.App/Settings/PadSettingsViewModel.cs:576 | a MIDI data value is clamped into [0, 127]: unchanged inside, 0 below, 127 above |
| Base.DivTrunc | Echopad.App/UI/Behaviors/PadTrimWheelBehavior.cs:132 | C# integer division truncates toward zero, for negative wheel deltas too |
| Base.ToInt32 | Echopad.App/Settings/PadSettingsViewModel.cs:443-455 | an int sum keeps its low 32 bits: always a 32-bit value, and unchanged when it fits |
| Base.WrapIncU32 | Echopad.Audio/Vban/VbanTxEngine.cs:55 | the uint frame counter goes up by one and wraps to 0 after 2^32 - 1 |
| Base.LeRoundTrip | Echopad.Audio/Vban/VbanTxEngine.cs:104-107 | the four little-endian bytes of a 32-bit value read back as that value |
| Base.LeBytesOf | Echopad.Audio/Vban/VbanTxEngine.cs:104-107 | any four bytes read as a little-endian value and written again give the same bytes |
| Text.Trim | Echopad.App/Settings/PadSettingsViewModel.cs:580 | trimming never lengthens the text and leaves no white space at either end |
| Text.TrimIdempotent | Echopad.App/Settings/PadSettingsViewModel.cs:580 | trimming twice is trimming once |
| Text.TrimEmptyIffBlank | Echopad.App/Settings/PadSettingsViewModel.cs:579-586 | the trimmed text is empty exactly when the text is all white space, so IsNullOrWhiteSpace and an empty trim agree |
| Text.TryParseInt32 | Echopad.App/Settings/PadSettingsViewModel.cs:591 | a successful int parse always yields a 32-bit value |
| Text.IntToStringRoundTrip | Echopad.App/Settings/PadSettingsViewModel.cs:241-243 | an int's text parses back to the same int |
| Text.HexByte | Echopad.App/MainWindow.MidiLedFeedback.cs:102-103 | X2 formatting gives two upper-case hex digits spelling the byte |
| Text.HexByteRoundTrip | Echopad.App/MainWindow.MidiLedFeedback.cs:102-103 | two X2 digits parse back to the byte they spell |

## Left out

- UDP sockets, `Task.Run` loops, cancellation tokens, `Task.Delay` pacing and the 25 ms retry are I/O and concurrency. The receive loop is a sequence of datagrams, the send loop a sequence of reads, and cancellation a read budget.
- NAudio and WASAPI objects are foreign library calls. They become values that say what was opened: devices, players, readers and captures. The file reader is modelled as a sample source with a known duration.
- Floating point is left out: the RMS square root, the dB conversions and their clamps, the `10^(dB/20)` gain, and the scaling of integer samples to floats. Decoded samples keep their integer value or float bit pattern. Meters take a sample's magnitude as a function parameter, and the WAV commit takes the samples as reals.
- The timing of the WASAPI `PlaybackStopped` callback relative to a following play on the same pad is threading. Play and stop are sequential here.
- Writing settings.json (`SettingsService`) and the JSON clone of pad dictionaries are left out. The clone is a value copy, and `File.Exists` is an oracle parameter.
- ProfileService's load and save are modelled on the contents of profiles.json (`ProfileServices.ProfileService.file`), not on the file system.
- The main window's PadModel objects are shared with the UI. The controller here holds pad values, so aliasing of PadModel objects is not modelled.
- The pad editor works on the settings entry it was given. Aliasing of that entry with the global dictionary becomes explicit map updates.
- Reloading settings.json during a profile switch, `SuppressMidiInput`, and routing MIDI input to windows are left out. They are event wiring.
- The MIDI output device is left out: messages sent are recorded as values.
- MidiBinds.EventOf: NAudio's conversion of a received short message into an event object is foreign library code. It is written out for Note On, Note Off, key aftertouch, Control Change and Program Change; every other message is `OtherEvent`, which no MIDI test matches.
- The reflection-based `SendBuffer` path, for raw messages of other than three bytes, is recorded as the bytes it would send. The event given to `BuildRawHexFromMidiEvent` is its short message, so the caught `GetAsShortMessage` exception is not modelled.
- Culture-specific number parsing is left out. `int.TryParse` is modelled with `NumberStyles.Integer`: surrounding white space, an optional ASCII sign, ASCII digits, and the 32-bit range.
- Case-insensitive comparison and `ToUpperInvariant` fold ASCII letters only. Non-ASCII case mappings are not modelled.
- `UiInputBlocker`'s dispose action and the UI notifications beyond PropertyChanged names are left out.
- `FormatDuration`, `DurationText`, the preview player, `PadColorChoices`, `IsMidiLearning` and `TrimStepMs` are display glue.
- The int cast of `TotalMilliseconds` is modelled as truncating division of the tick count. Its overflow beyond 32 bits is not modelled.
- PadSettingsViewModel's `_isClamping` re-entry guard is left out. Clamp is one function, so it has no re-entry.
- PropertyChanged notifications are recorded as property names, not as events.
- The link-mode flags consulted by the profile switch are read once, before the switch steps.
- The profile manager's lock acquisition in its constructor and its `Dispose` are left out. They are the lock's own `Acquire` and `Release`, which `Locks` models.
- `LoadDeviceLists`, `StatusText`, and the plain pass-through setters for device ids and hotkeys are left out. They only copy a value.
- WPF named colours and the "sc#" colour forms are left out. Only the '#' forms with 3, 4, 6 or 8 hex digits are parsed.
- `ConvertBack`, and the float stops of `MakeTintedSurface`'s gradient, are left out. The glow rule is modelled on integer colour components.
- Keyboard keys are letters or other key codes. WPF's `Key` enumeration is not modelled.
- WPF views are left out: PadSettingsWindow, SpectrogramTrimControl, SettingsWindow, ProfileManagerWindow, HotkeyCaptureWindow and MainViewModel.
- The remaining converters, MidiOutTest, the MIDI and audio device providers, and DropFolderWatcher are left out. They are views, device I/O or file-system polling.
- Hold-to-clear timers, dialogs and dispatcher wiring in the main window are left out.
- ApplyProfileToSettings: the `gs.EnsureCompatibility()` call (Echopad.App/Services/ProfileService.cs:287) is taken to leave the settings unchanged, because `GlobalSettings.EnsureCompatibility` is not declared in the repository's files.
- SwitchToProfile: the per-pad `_audio.StopPad` and `StopPlayhead` calls (Echopad.App/MainWindow.xaml.cs:1449-1450), the closing `SyncAllPadLeds` (1516) and the catch-all that logs a failed switch (1517-1520) are not modelled. The switch works on pad values; stopping audio is the audio engine's `StopPad`, LED syncing is MIDI output, and an exception mid-switch would leave the steps done so far, which the model does not represent.
- Null pad entries and null slot entries, which only hand-edited JSON produces, are not modelled, except where the code replaces a null collection (`??=`).

## Findings

| source | as written | input that shows it | evidently intended | confidence | as-written member | corrected member |
|---|---|---|---|---|---|---|
| Echopad.App/Settings/PadSettingsViewModel.cs:181-196 | the trigger text is split on "\|RAW:" with empty entries removed, then `parts[0]` is read, and that throws when no part is left | a MIDI trigger text of exactly "\|RAW:" | show an empty trigger (or the text) instead of throwing | not executed | PadSettingsVm.MarkerAloneThrows | PadSettingsVm.TriggerDisplay |
| Echopad.App/Settings/PadSettingsViewModel.cs:31-54 | the editor applies the stored trim, then sets the pad's runtime StartMs and EndMs one at a time, and each setter clamps against the other point's current value | a 10 s clip with stored trim 0..1000 ms and runtime trim 5000..8000 ms: the start is clamped to 1000 before the end moves, so the editor opens on 1000..8000 | open on the runtime trim, clamped once to the clip (5000..8000 here) | not executed | PadSettingsVm.RuntimeStartLost | PadSettingsVm.IntendedOpenedTrim |
| Echopad.Audio/AudioEngine.cs:78-89 | an end before the start is raised to the start, and the empty window's length 0 becomes the OffsetSampleProvider's Take; NAudio treats a Take of 0 as no limit | a pad trimmed 5000..3000 ms (or 5000..5000 ms) on a 10 s clip plays 5000..10000 ms | an empty trim plays nothing | not executed | AudioEngines.EmptyTrimPlaysRest | AudioEngines.IntendedPlaysWindow |
| Echopad.App/MainWindow.xaml.cs:1109-1119 | IsRelease recognises a note release only as a NoteOnEvent of velocity 0, but NAudio delivers Note Off and velocity-0 Note On as plain NoteEvents, and makes a NoteOnEvent only for a velocity above 0 | a MIDI modifier bind "NOTE:1:60:1" released with 80 3C 40 or 90 3C 00: IsSameControl consumes the message, IsRelease is false, so the modifier stays held until its 3-second timeout (1243-1250, 1256-1257) | a Note Off or a velocity-0 Note On of the bound note releases the modifier | not executed | MidiBinds.NoteReleaseMissed | MidiBinds.IntendedReleaseOnLiveInput |
| Echopad.App/Settings/ProfileManagerViewModel.cs:262-292 | the constructor's closing auto-seed from profile 1's pads is called before `_isInitializing` is cleared, and the seed returns at once while initialising | a settings section with a link flag on and a blank slot bind, and profile 1 holding that slot's pad with a MIDI trigger: the slot bind stays blank after opening | seed the blank slot binds once the rows exist | not executed | ProfileManagerVm.OpenSkipsSeed | ProfileManagerVm.SeededOpened |

The pad editor, profile manager and audio engine classes follow the code
as written (`PadSettingsViewModel.constructor` opens on `OpenedTrim`,
`ProfileManagerViewModel.constructor` on `Opened`, and
`AudioEngine.PlayPad` registers `ReaderFor`); the corrected
definitions state the intended result beside them, and
`PadSettingsVm.OpenedTrimAgrees` says when the two trims coincide.
