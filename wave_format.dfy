// The parts of an audio stream format (NAudio's WaveFormat) the program
// reads: rate, channel count, encoding and bits per sample.
module WaveFormats {

  /** WaveFormatEncoding: integer PCM, IEEE float, or the WASAPI extensible wrapper. */
  datatype WaveEncoding = IntegerPcm | IeeeFloat | Extensible

  datatype WaveFormat = WaveFormat(sampleRate: int, channels: int, encoding: WaveEncoding, bitsPerSample: int)

  /** WaveFormat.CreateIeeeFloatWaveFormat(rate, channels): 32-bit float. */
  function IeeeFloatFormat(sampleRate: int, channels: int): (f: WaveFormat)
    ensures f.encoding == IeeeFloat && f.bitsPerSample == 32
    ensures f.sampleRate == sampleRate && f.channels == channels
  {
    WaveFormat(sampleRate, channels, IeeeFloat, 32)
  }

  /** new WaveFormat(rate, bits, channels): integer PCM. */
  function PcmFormat(sampleRate: int, bits: int, channels: int): (f: WaveFormat)
    ensures f.encoding == IntegerPcm && f.bitsPerSample == bits
    ensures f.sampleRate == sampleRate && f.channels == channels
  {
    WaveFormat(sampleRate, channels, IntegerPcm, bits)
  }
}
