// RollingBufferCommitService: write what a rolling buffer holds to a 16-bit
// PCM WAV file. The samples are the buffer's floats, taken here as reals;
// the file is returned as a value (its path, format and data bytes).
module CommitService {
  import opened Base
  import opened PcmSamples
  import opened WaveFormats
  import opened RollingBuffer

  /** `if (f > 1f) f = 1f; else if (f < -1f) f = -1f;` */
  function ClampUnit(f: real): (r: real)
    ensures -1.0 <= r <= 1.0
    ensures -1.0 <= f <= 1.0 ==> r == f
  {
    if f > 1.0 then 1.0 else if f < -1.0 then -1.0 else f
  }

  /** Math.Round: to the nearest integer, ties to the even neighbour. */
  function RoundHalfEven(x: real): (n: int)
    ensures x - 0.5 <= n as real <= x + 0.5
  {
    var fl := x.Floor;
    var frac := x - fl as real;
    if frac < 0.5 then fl
    else if frac > 0.5 then fl + 1
    else if fl % 2 == 0 then fl else fl + 1
  }

  /** The 16-bit value written for one sample: the clamped sample scaled by short.MaxValue and rounded. */
  function Pcm16Of(f: real): (v: int)
    ensures -32767 <= v <= 32767
  {
    var x := ClampUnit(f) * 32767.0;
    RoundBounded(x, 32767);
    RoundHalfEven(x)
  }

  /** Rounding a value within [-m, m] gives an integer within [-m, m]. */
  lemma RoundBounded(x: real, m: int)
    requires -(m as real) <= x <= m as real
    ensures -m <= RoundHalfEven(x) <= m
  {
    var fl := x.Floor;
    assert -m <= fl <= m;
    if fl == m {
      assert x == m as real;
    }
  }

  /** The values written for a buffer's samples, in order. */
  function Pcm16Values(samples: seq<real>): (vs: seq<int>)
    ensures |vs| == |samples|
    ensures forall i :: 0 <= i < |vs| ==> vs[i] == Pcm16Of(samples[i]) && -32767 <= vs[i] <= 32767
  {
    seq(|samples|, i requires 0 <= i < |samples| => Pcm16Of(samples[i]))
  }

  /** The WAV data bytes: each value as two little-endian bytes. */
  function Pcm16Data(samples: seq<real>): (r: seq<Byte>)
    ensures |r| == 2 * |samples|
  {
    EncodeInt16s(Pcm16Values(samples))
  }

  /** Decoding the written data as signed 16-bit little-endian gives back the written values. */
  lemma Pcm16DataDecodes(samples: seq<real>)
    ensures |Decode(Pcm16Data(samples), Int16)| == |samples|
    ensures forall i :: 0 <= i < |samples| ==> Decode(Pcm16Data(samples), Int16)[i] == Pcm(Pcm16Of(samples[i]), 16)
  {
    Int16RoundTrip(Pcm16Values(samples));
  }

  /** A sample already in [-1, 1] is written within half a step of sample * 32767. */
  lemma Pcm16Accurate(f: real)
    requires -1.0 <= f <= 1.0
    ensures f * 32767.0 - 0.5 <= Pcm16Of(f) as real <= f * 32767.0 + 0.5
  {
  }

  /** `(byte)(s & 0xFF)` and `(byte)((s >> 8) & 0xFF)` of a short are its two little-endian bytes. */
  lemma ShortBytes(s: int)
    requires -0x8000 <= s < 0x8000
    ensures EncodeSigned(s, 2) == [s % 256, (s / 256) % 256]
  {
    var u := if s < 0 then s + 65536 else s;
    var e := EncodeSigned(s, 2);
    assert e[0] == u % 256 && e[1] == (u / 256) % 256 by {
      assert Pow256(0) == 1 && Pow256(1) == 256 && Pow256(2) == 65536;
    }
    assert u % 256 == s % 256 && (u / 256) % 256 == (s / 256) % 256 by {
      if s < 0 {
        var q := s / 256;
        var r := s % 256;
        assert s == 256 * q + r && 0 <= r < 256;
        DivMod256(u, q + 256, r);
        DivMod256(q, q / 256, q % 256);
        DivMod256(q + 256, q / 256 + 1, q % 256);
      }
    }
    assert e == [e[0], e[1]];
  }

  lemma DivMod256(u: int, q: int, r: int)
    requires 0 <= r < 256 && u == 256 * q + r
    ensures u / 256 == q && u % 256 == r
  {
  }

  predicate IsSeparator(c: char) { c == '\\' || c == '/' }

  predicate IsAsciiLetter(c: char) { 'A' <= c <= 'Z' || 'a' <= c <= 'z' }

  /** Path.IsPathRooted on Windows: a leading separator or an ASCII drive letter and a colon. */
  predicate IsRooted(p: string)
  {
    (|p| >= 1 && IsSeparator(p[0])) || (|p| >= 2 && IsAsciiLetter(p[0]) && p[1] == ':')
  }

  /** Path.Combine of two paths on Windows. */
  function PathCombine(dir: string, file: string): (r: string)
    ensures IsRooted(file) || dir == "" ==> r == file
    ensures !IsRooted(file) && dir != "" ==> |r| >= |dir| + |file| && r[..|dir|] == dir && r[|r| - |file|..] == file
  {
    if IsRooted(file) || dir == "" then file
    else if IsSeparator(dir[|dir| - 1]) || dir[|dir| - 1] == ':' then dir + file
    else dir + "\\" + file
  }

  /** The output file: its path, its 16-bit PCM format and its data. */
  datatype WavFile = WavFile(path: string, format: WaveFormat, data: seq<Byte>)

  datatype CommitOutcome =
    | NullBuffer                      // ArgumentNullException
    | EmptyBuffer                     // InvalidOperationException: "Rolling buffer is empty."
    | DurationOverflow(file: WavFile) // the file is written, then TimeSpan.FromSeconds overflows
    | Committed(file: WavFile, durationSeconds: real)

  /**
   * The duration `samples / (SampleRate * Channels)` seconds, the product
   * taken in 32 bits and a negative quotient raised to 0; a zero product
   * makes the double quotient infinite, which TimeSpan cannot hold.
   */
  function Duration(sampleCount: nat, sampleRate: int, channels: int): (d: Option<real>)
    ensures d.Some? ==> d.value >= 0.0
    ensures d.None? <==> ToInt32(sampleRate * channels) == 0
  {
    var p := ToInt32(sampleRate * channels);
    if p == 0 then None
    else
      var seconds := (sampleCount as real) / (p as real);
      Some(if seconds < 0.0 then 0.0 else seconds)
  }

  /** For a positive rate * channels that fits in 32 bits, the duration is the sample count over the samples per second. */
  lemma DurationExact(sampleCount: nat, sampleRate: int, channels: int)
    requires 1 <= sampleRate && 1 <= channels && sampleRate * channels <= INT32_MAX
    ensures Duration(sampleCount, sampleRate, channels) == Some((sampleCount as real) / ((sampleRate * channels) as real))
  {
    assert 1 <= sampleRate * channels;
  }

  /** CommitToWav: the path, the 16-bit conversion of ReadAll, and the duration. */
  method CommitToWav(buffer: RollingAudioBuffer?<real>, outputDirectory: string, fileNameNoExt: string) returns (r: CommitOutcome)
    requires buffer != null ==> buffer.Valid()
    ensures buffer == null <==> r.NullBuffer?
    ensures buffer != null ==> (r.EmptyBuffer? <==> buffer.Contents() == [])
    ensures r.DurationOverflow? || r.Committed? ==>
      buffer != null
      && r.file.path == PathCombine(outputDirectory, fileNameNoExt + ".wav")
      && r.file.format == PcmFormat(buffer.format.sampleRate, 16, buffer.format.channels)
      && r.file.data == Pcm16Data(buffer.Contents())
    ensures r.DurationOverflow? ==> buffer != null && Duration(|buffer.Contents()|, buffer.format.sampleRate, buffer.format.channels).None?
    ensures r.Committed? ==> buffer != null && Duration(|buffer.Contents()|, buffer.format.sampleRate, buffer.format.channels) == Some(r.durationSeconds)
  {
    if buffer == null {
      return NullBuffer;
    }
    var fullPath := PathCombine(outputDirectory, fileNameNoExt + ".wav");
    var samples := buffer.ReadAll();
    if |samples| == 0 {
      return EmptyBuffer;
    }
    var wf := PcmFormat(buffer.format.sampleRate, 16, buffer.format.channels);
    var pcm := ToPcm16(samples);
    var file := WavFile(fullPath, wf, pcm);
    var seconds := Duration(|samples|, buffer.format.sampleRate, buffer.format.channels);
    if seconds.None? {
      return DurationOverflow(file);
    }
    return Committed(file, seconds.value);
  }

  /** Encoding one more value appends its two bytes. */
  lemma {:induction false} EncodeInt16sSnoc(vs: seq<int>, v: int)
    ensures EncodeInt16s(vs + [v]) == EncodeInt16s(vs) + EncodeSigned(v, 2)
    decreases |vs|
  {
    if |vs| == 0 {
      assert vs + [v] == [v];
      assert EncodeInt16s([v]) == EncodeSigned(v, 2) + EncodeInt16s([]);
    } else {
      assert (vs + [v])[1..] == vs[1..] + [v];
      EncodeInt16sSnoc(vs[1..], v);
    }
  }

  /** One pass of the conversion loop: clamp, scale, round, then the low byte and the high byte. */
  method SampleBytes(sample: real) returns (lo: Byte, hi: Byte)
    ensures [lo, hi] == EncodeSigned(Pcm16Of(sample), 2)
  {
    var f := sample;
    if f > 1.0 {
      f := 1.0;
    } else if f < -1.0 {
      f := -1.0;
    }
    var s := RoundHalfEven(f * 32767.0);
    assert s == Pcm16Of(sample);
    ShortBytes(s);
    lo := s % 256;
    hi := (s / 256) % 256;
  }

  /** The conversion loop: clamp, scale, round, then the low byte and the high byte. */
  method ToPcm16(samples: seq<real>) returns (pcm: seq<Byte>)
    ensures pcm == Pcm16Data(samples)
  {
    ghost var values := Pcm16Values(samples);
    var out := new Byte[|samples| * 2];
    var o := 0;
    var i := 0;
    while i < |samples|
      invariant 0 <= i <= |samples| && o == 2 * i
      invariant out[..o] == EncodeInt16s(values[..i])
    {
      var lo, hi := SampleBytes(samples[i]);
      ghost var before := out[..o];
      out[o] := lo;
      out[o + 1] := hi;
      assert out[..o + 2] == before + [lo, hi];
      EncodeInt16sSnoc(values[..i], values[i]);
      assert values[..i + 1] == values[..i] + [values[i]];
      o := o + 2;
      i := i + 1;
    }
    assert values[..i] == values;
    assert out[..] == out[..o];
    pcm := out[..];
  }
}
