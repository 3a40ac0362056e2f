// RollingAudioBuffer: a ring of the most recent interleaved samples.
//
// The ring is an array with a write cursor and a fill count. The ghost
// `history` holds every sample added since the last Reset; the buffer's
// invariant ties each ring slot to the sample of `history` written that many
// samples ago, which is what lets ReadAll promise the last
// min(|history|, capacity) samples in order.
module RollingBuffer {
  import opened Base
  import opened WaveFormats

  /** How many writes ago slot p was written, in a ring of `cap` slots whose next write goes to slot w. */
  function Age(p: int, w: int, cap: int): int
  {
    if p < w then w - 1 - p else w - 1 - p + cap
  }

  /** `idx++; if (idx >= length) idx = 0;` */
  function Next(p: int, cap: int): int
  {
    if p + 1 >= cap then 0 else p + 1
  }

  /** The last n elements of s. */
  function Last<T>(s: seq<T>, n: nat): (r: seq<T>)
    requires n <= |s|
    ensures |r| == n
  {
    s[|s| - n..]
  }

  /** `start = writeIndex - n; if (start < 0) start += length;` */
  function StartOf(w: int, n: int, cap: int): int
  {
    if w - n < 0 then w - n + cap else w - n
  }

  /** The ring `r` with next write at w holds, for each of the last f samples of h, that sample in the slot of its age. */
  ghost predicate Holds<T>(r: seq<T>, w: int, h: seq<T>, f: int)
  {
    0 <= f <= |h| &&
    forall p :: 0 <= p < |r| && 0 <= Age(p, w, |r|) < f ==> r[p] == h[|h| - 1 - Age(p, w, |r|)]
  }

  lemma AgeRange(p: int, w: int, cap: int)
    requires 0 <= p < cap && 0 <= w < cap
    ensures 0 <= Age(p, w, cap) < cap
  {
  }

  /** Walking forward from a slot of positive age reaches the slot one write younger. */
  lemma AgeNext(p: int, w: int, cap: int)
    requires 0 <= p < cap && 0 <= w < cap && Age(p, w, cap) > 0
    ensures 0 <= Next(p, cap) < cap && Age(Next(p, cap), w, cap) == Age(p, w, cap) - 1
  {
  }

  /** The start slot of a read of the n newest samples holds the oldest of them. */
  lemma StartAge(w: int, n: int, cap: int)
    requires 0 <= w < cap && 0 < n <= cap
    ensures 0 <= StartOf(w, n, cap) < cap && Age(StartOf(w, n, cap), w, cap) == n - 1
  {
  }

  /**
   * Writing k new samples at the cursor (without passing the end of the
   * ring) keeps the ring in step with the history extended by them.
   */
  lemma WriteChunk<T>(r0: seq<T>, r1: seq<T>, w: int, k: int, h: seq<T>, chunk: seq<T>, f: int, w1: int, h1: seq<T>, f1: int)
    requires 1 <= |r0| == |r1| && 0 <= w < |r0| && 0 < k <= |r0| - w && |chunk| == k
    requires f <= |r0| && Holds(r0, w, h, f)
    requires forall j :: 0 <= j < k ==> r1[w + j] == chunk[j]
    requires forall p :: 0 <= p < |r0| && !(w <= p < w + k) ==> r1[p] == r0[p]
    requires w1 == (if w + k >= |r0| then 0 else w + k) && h1 == h + chunk && f1 == Min(f + k, |r0|)
    ensures Holds(r1, w1, h1, f1)
  {
    var cap := |r0|;
    forall p | 0 <= p < cap && 0 <= Age(p, w1, cap) < f1
      ensures r1[p] == h1[|h1| - 1 - Age(p, w1, cap)]
    {
      if w <= p < w + k {
        assert Age(p, w1, cap) == w + k - 1 - p;
        assert r1[p] == chunk[p - w];
        assert h1[|h1| - 1 - Age(p, w1, cap)] == h1[|h| + (p - w)];
      } else {
        assert Age(p, w1, cap) == Age(p, w, cap) + k;
        assert r1[p] == r0[p];
        assert h1[|h1| - 1 - Age(p, w1, cap)] == h[|h| - 1 - Age(p, w, cap)];
      }
    }
  }

  /** Overwriting the whole ring with the last cap samples of a chunk leaves the cursor at 0 and the ring full. */
  lemma OverwriteAll<T>(r1: seq<T>, h: seq<T>, chunk: seq<T>)
    requires 1 <= |r1| <= |chunk|
    requires forall k :: 0 <= k < |r1| ==> r1[k] == chunk[|chunk| - |r1| + k]
    ensures Holds(r1, 0, h + chunk, |r1|)
  {
    var h1 := h + chunk;
    forall p | 0 <= p < |r1| && 0 <= Age(p, 0, |r1|) < |r1|
      ensures r1[p] == h1[|h1| - 1 - Age(p, 0, |r1|)]
    {
      assert h1[|h1| - 1 - Age(p, 0, |r1|)] == chunk[|chunk| - |r1| + p];
    }
  }

  /** The suffix of a suffix is a suffix: a snapshot is the tail of ReadAll. */
  lemma LastOfLast<T>(s: seq<T>, m: nat, n: nat)
    requires m <= n <= |s|
    ensures Last(Last(s, n), m) == Last(s, m)
  {
  }

  /** What `Math.Max(SampleRate * Channels * seconds, 1)` stores, products taken in 32-bit ints. */
  function CapacityFor(sampleRate: int, channels: int, seconds: int): (c: int)
    ensures c >= 1
  {
    Max(ToInt32(ToInt32(sampleRate * channels) * seconds), 1)
  }

  /** Without overflow the capacity is rate * channels * seconds samples. */
  lemma CapacityNoOverflow(sampleRate: int, channels: int, seconds: int)
    requires 1 <= sampleRate && 1 <= channels && 1 <= seconds && sampleRate * channels * seconds <= INT32_MAX
    ensures CapacityFor(sampleRate, channels, seconds) == sampleRate * channels * seconds
  {
    assert sampleRate * channels <= sampleRate * channels * seconds;
  }

  /**
   * The meter window: `windowMs <= 0` means 120 ms; the window is
   * max(1, rate * ms / 1000) frames (computed in 64 bits, stored in 32) of
   * `channels` samples, capped at what is buffered.
   */
  function MeterSamples(sampleRate: int, channels: int, windowMs: int, filled: int): (n: int)
    ensures n <= filled
  {
    var ms := if windowMs <= 0 then 120 else windowMs;
    var frames := Max(ToInt32(DivTrunc(sampleRate * ms, 1000)), 1);
    Min(ToInt32(frames * channels), filled)
  }

  /** With no 32-bit overflow the meter reads min(max(1, rate*ms/1000) * channels, filled) samples. */
  lemma MeterSamplesNoOverflow(sampleRate: int, channels: int, windowMs: int, filled: int)
    requires 0 <= sampleRate && 1 <= channels && 1 <= windowMs
    requires Max(sampleRate * windowMs / 1000, 1) * channels <= INT32_MAX
    ensures MeterSamples(sampleRate, channels, windowMs, filled) == Min(Max(sampleRate * windowMs / 1000, 1) * channels, filled)
  {
    var frames := Max(sampleRate * windowMs / 1000, 1);
    assert frames <= frames * channels;
  }

  /** What SnapshotLastSeconds copies: rate * channels * max(seconds, 1) samples (32-bit products), capped at what is buffered. */
  function SnapshotCount(sampleRate: int, channels: int, seconds: int, filled: int): (n: int)
    requires 0 <= filled
    ensures 0 <= n <= filled
  {
    var target := Min(ToInt32(ToInt32(sampleRate * channels) * Max(seconds, 1)), filled);
    if filled == 0 || target <= 0 then 0 else target
  }

  /** The largest magnitude in s, starting from 0 as the meter does. */
  function MaxMagnitude<T>(s: seq<T>, magnitude: T -> real): (m: real)
    ensures m >= 0.0
  {
    if |s| == 0 then 0.0
    else
      var a := magnitude(s[|s| - 1]);
      var m0 := MaxMagnitude(s[..|s| - 1], magnitude);
      if a > m0 then a else m0
  }

  /** MaxMagnitude bounds every magnitude in s and is 0 or one of them. */
  lemma {:induction false} MaxMagnitudeIsMax<T>(s: seq<T>, magnitude: T -> real)
    ensures forall i :: 0 <= i < |s| ==> magnitude(s[i]) <= MaxMagnitude(s, magnitude)
    ensures MaxMagnitude(s, magnitude) == 0.0 || exists i :: 0 <= i < |s| && MaxMagnitude(s, magnitude) == magnitude(s[i])
  {
    if |s| > 0 {
      var s0 := s[..|s| - 1];
      MaxMagnitudeIsMax(s0, magnitude);
      assert forall i :: 0 <= i < |s0| ==> s0[i] == s[i];
      if MaxMagnitude(s, magnitude) != 0.0 && MaxMagnitude(s, magnitude) == MaxMagnitude(s0, magnitude) {
        var i :| 0 <= i < |s0| && MaxMagnitude(s0, magnitude) == magnitude(s0[i]);
        assert MaxMagnitude(s, magnitude) == magnitude(s[i]);
      }
    }
  }

  /** The sum of the values of s. */
  function Sum<T>(s: seq<T>, value: T -> real): real
  {
    if |s| == 0 then 0.0 else Sum(s[..|s| - 1], value) + value(s[|s| - 1])
  }

  function Square(x: real): real { x * x }

  /** The sum over the first `frames` frames of s of the square of the frame's channel average. */
  function SumOfSquares<T>(s: seq<T>, channels: nat, frames: nat, value: T -> real): real
    requires channels >= 1 && frames * channels <= |s|
  {
    if frames == 0 then 0.0
    else
      FramesShrink(frames, channels);
      var mono := Sum(s[(frames - 1) * channels..frames * channels], value) / (channels as real);
      SumOfSquares(s, channels, frames - 1, value) + Square(mono)
  }

  lemma FramesShrink(frames: nat, channels: nat)
    requires frames >= 1 && channels >= 1
    ensures 0 <= (frames - 1) * channels && (frames - 1) * channels + channels == frames * channels
  {
  }

  /** One more frame adds the square of its channel average. */
  lemma SumOfSquaresStep<T>(s: seq<T>, channels: nat, f: nat, k0: int, value: T -> real)
    requires channels >= 1 && k0 == f * channels && k0 + channels <= |s|
    ensures (f + 1) * channels <= |s| && f * channels <= |s|
    ensures SumOfSquares(s, channels, f + 1, value) == SumOfSquares(s, channels, f, value) + Square(Sum(s[k0..k0 + channels], value) / (channels as real))
  {
    FramesShrink(f + 1, channels);
  }

  /** The mean, over the whole frames of s, of the squared channel average. */
  function MeanSquare<T>(s: seq<T>, channels: nat, value: T -> real): real
    requires channels >= 1 && |s| / channels > 0
  {
    FramesFit(|s|, channels);
    SumOfSquares(s, channels, |s| / channels, value) / ((|s| / channels) as real)
  }

  lemma FramesFit(n: int, channels: int)
    requires n >= 0 && channels >= 1
    ensures (n / channels) * channels <= n
  {
  }

  /**
   * The rolling buffer of samples of type T. `ring` is `_ring`, the write
   * cursor and fill count are `writeIndex` and `filled`.
   */
  class RollingAudioBuffer<T(0)> {
    var ring: array<T>
    var writeIndex: int
    var filled: int
    var format: WaveFormat
    ghost var history: seq<T>

    ghost predicate Valid()
      reads this, ring
    {
      1 <= ring.Length && 0 <= writeIndex < ring.Length && 0 <= filled <= ring.Length
      && filled == Min(|history|, ring.Length)
      && Holds(ring[..], writeIndex, history, filled)
      && format.channels >= 1
    }

    /** CapacitySamples. */
    function Capacity(): int
      reads this
    {
      ring.Length
    }

    /** The samples ReadAll returns: the last min(|history|, capacity) samples added since Reset. */
    ghost function Contents(): seq<T>
      reads this, ring
      requires Valid()
    {
      Last(history, filled)
    }

    constructor (seconds: int, format: WaveFormat)
      requires format.channels >= 1
      ensures Valid() && fresh(ring)
      ensures ring.Length == CapacityFor(format.sampleRate, format.channels, Max(seconds, 1))
      ensures this.format == format && writeIndex == 0 && filled == 0 && history == []
    {
      var s := if seconds < 1 then 1 else seconds;
      this.format := format;
      var capacitySamples := CapacityFor(format.sampleRate, format.channels, s);
      ring := new T[capacitySamples];
      writeIndex := 0;
      filled := 0;
      history := [];
    }

    /** Reset: a fresh empty ring of `max(rate * channels * max(seconds, 1), 1)` samples. */
    method Reset(seconds: int, format: WaveFormat)
      requires format.channels >= 1
      modifies this
      ensures Valid() && fresh(ring)
      ensures ring.Length == CapacityFor(format.sampleRate, format.channels, Max(seconds, 1))
      ensures this.format == format && writeIndex == 0 && filled == 0 && history == []
    {
      var s := if seconds < 1 then 1 else seconds;
      this.format := format;
      var capacitySamples := CapacityFor(format.sampleRate, format.channels, s);
      ring := new T[capacitySamples];
      writeIndex := 0;
      filled := 0;
      history := [];
    }

    /**
     * AddSamples: appends the first min(sampleCount, |interleaved|)
     * samples; `None` is a null array. A chunk at least as long as the ring
     * replaces it outright.
     */
    method AddSamples(interleaved: Option<seq<T>>, sampleCount: int)
      requires Valid()
      modifies this, ring
      ensures Valid() && ring == old(ring) && format == old(format)
      ensures history == old(history) + Added(interleaved, sampleCount)
      ensures |Added(interleaved, sampleCount)| == 0 ==> writeIndex == old(writeIndex) && filled == old(filled) && ring[..] == old(ring[..])
      ensures |Added(interleaved, sampleCount)| >= ring.Length ==> writeIndex == 0 && filled == ring.Length
      ensures |Added(interleaved, sampleCount)| < ring.Length ==>
        writeIndex == WrapOnce(old(writeIndex) + |Added(interleaved, sampleCount)|, ring.Length)
        && filled == Min(old(filled) + |Added(interleaved, sampleCount)|, ring.Length)
    {
      if interleaved.None? {
        return;
      }
      if sampleCount <= 0 {
        return;
      }
      var src := interleaved.value;
      var count := sampleCount;
      if count > |src| {
        count := |src|;
      }
      if count >= ring.Length {
        Overwrite(src[..count]);
        return;
      }
      CopyWrapped(src, count, history, filled);
      history := history + src[..count];
      filled := Min(filled + count, ring.Length);
    }

    /** The branch of AddSamples for a chunk that fills the whole ring: keep its last capacity samples. */
    method Overwrite(chunk: seq<T>)
      requires Valid() && |chunk| >= ring.Length
      modifies this, ring
      ensures Valid() && ring == old(ring) && format == old(format)
      ensures history == old(history) + chunk && writeIndex == 0 && filled == ring.Length
    {
      var start := |chunk| - ring.Length;
      forall k | 0 <= k < ring.Length {
        ring[k] := chunk[start + k];
      }
      writeIndex := 0;
      filled := ring.Length;
      OverwriteAll(ring[..], history, chunk);
      history := history + chunk;
    }

    /**
     * The copy loop of AddSamples for a chunk shorter than the ring: write
     * the first `count` samples of src at the cursor in passes that stop at
     * the end of the ring.
     */
    method CopyWrapped(src: seq<T>, count: int, ghost h: seq<T>, ghost f: int)
      requires 1 <= ring.Length && 0 <= writeIndex < ring.Length
      requires 0 <= count <= |src| && count < ring.Length
      requires 0 <= f <= ring.Length && Holds(ring[..], writeIndex, h, f)
      modifies this`writeIndex, ring
      ensures 0 <= writeIndex < ring.Length
      ensures writeIndex == WrapOnce(old(writeIndex) + count, ring.Length)
      ensures Holds(ring[..], writeIndex, h + src[..count], Min(f + count, ring.Length))
      ensures count == 0 ==> ring[..] == old(ring[..])
    {
      ghost var w0 := writeIndex;
      ghost var hist := h;
      var remaining := count;
      var srcOffset := 0;
      while remaining > 0
        invariant 0 <= srcOffset <= count && remaining == count - srcOffset
        invariant 0 <= writeIndex < ring.Length
        invariant writeIndex == WrapOnce(w0 + srcOffset, ring.Length)
        invariant hist == h + src[..srcOffset]
        invariant Holds(ring[..], writeIndex, hist, Min(f + srcOffset, ring.Length))
        invariant srcOffset == 0 ==> ring[..] == old(ring[..])
        decreases remaining
      {
        var spaceToEnd := ring.Length - writeIndex;
        var toCopy := Min(spaceToEnd, remaining);
        ghost var fBefore := Min(f + srcOffset, ring.Length);
        WriteStep(src, srcOffset, toCopy, hist, fBefore);
        assert src[..srcOffset + toCopy] == src[..srcOffset] + src[srcOffset..srcOffset + toCopy];
        assert Min(fBefore + toCopy, ring.Length) == Min(f + srcOffset + toCopy, ring.Length);
        hist := hist + src[srcOffset..srcOffset + toCopy];
        srcOffset := srcOffset + toCopy;
        remaining := remaining - toCopy;
      }
      assert srcOffset == count && hist == h + src[..count];
    }

    /** One pass of the copy loop: `Array.Copy` of toCopy samples to the cursor, which then advances and wraps. */
    method WriteStep(chunk: seq<T>, srcOffset: int, toCopy: int, ghost h: seq<T>, ghost f: int)
      requires 1 <= ring.Length && 0 <= writeIndex < ring.Length
      requires 0 <= srcOffset && 0 < toCopy <= ring.Length - writeIndex && srcOffset + toCopy <= |chunk|
      requires f <= ring.Length && Holds(ring[..], writeIndex, h, f)
      modifies this`writeIndex, ring
      ensures writeIndex == (if old(writeIndex) + toCopy >= ring.Length then 0 else old(writeIndex) + toCopy)
      ensures Holds(ring[..], writeIndex, h + chunk[srcOffset..srcOffset + toCopy], Min(f + toCopy, ring.Length))
    {
      ghost var r0 := ring[..];
      ghost var piece := chunk[srcOffset..srcOffset + toCopy];
      forall k | 0 <= k < toCopy {
        ring[writeIndex + k] := chunk[srcOffset + k];
      }
      ghost var w := writeIndex;
      writeIndex := writeIndex + toCopy;
      if writeIndex >= ring.Length {
        writeIndex := 0;
      }
      WriteChunk(r0, ring[..], w, toCopy, h, piece, f, writeIndex, h + piece, Min(f + toCopy, ring.Length));
    }

    /** Walks the ring from the oldest of the n newest samples, copying them out oldest first. */
    method CopyRecent(n: int) returns (dst: seq<T>)
      requires Valid() && 0 < n <= filled
      ensures dst == Last(history, n)
    {
      var out := new T[n];
      var start := writeIndex - n;
      if start < 0 {
        start := start + ring.Length;
      }
      StartAge(writeIndex, n, ring.Length);
      var idx := start;
      var i := 0;
      while i < n
        invariant 0 <= i <= n && 0 <= idx < ring.Length
        invariant i < n ==> Age(idx, writeIndex, ring.Length) == n - 1 - i
        invariant forall j :: 0 <= j < i ==> out[j] == history[|history| - n + j]
      {
        out[i] := ring[idx];
        if i + 1 < n {
          AgeNext(idx, writeIndex, ring.Length);
        }
        idx := idx + 1;
        if idx >= ring.Length {
          idx := 0;
        }
        i := i + 1;
      }
      dst := out[..];
    }

    /** ReadAll: the buffered samples, oldest first. */
    method ReadAll() returns (r: seq<T>)
      requires Valid()
      ensures r == Last(history, Min(|history|, ring.Length))
      ensures filled == 0 ==> r == []
    {
      if filled == 0 {
        return [];
      }
      r := CopyRecent(filled);
    }

    /** SnapshotLastSeconds: the newest rate * channels * max(seconds, 1) samples (or all of them), oldest first. */
    method SnapshotLastSeconds(seconds: int) returns (r: seq<T>)
      requires Valid()
      ensures r == Last(history, SnapshotCount(format.sampleRate, format.channels, seconds, filled))
      ensures r == Last(Contents(), |r|)
    {
      var s := if seconds < 1 then 1 else seconds;
      if filled == 0 {
        return [];
      }
      var targetSamples := ToInt32(ToInt32(format.sampleRate * format.channels) * s);
      targetSamples := Min(targetSamples, filled);
      if targetSamples <= 0 {
        return [];
      }
      r := CopyRecent(targetSamples);
      LastOfLast(history, targetSamples, filled);
    }

    /**
     * GetPeakLastMs with the sample magnitude (Math.Abs of the float) given
     * as a function: the largest magnitude in the meter window, clamped to
     * [0, 1]; 0 on an empty buffer.
     */
    method GetPeakLastMs(windowMs: int, magnitude: T -> real) returns (peak: real)
      requires Valid()
      ensures 0.0 <= peak <= 1.0
      ensures filled == 0 || MeterSamples(format.sampleRate, format.channels, windowMs, filled) <= 0 ==> peak == 0.0
      ensures filled > 0 && MeterSamples(format.sampleRate, format.channels, windowMs, filled) > 0 ==>
        peak == ClampReal(MaxMagnitude(Last(history, MeterSamples(format.sampleRate, format.channels, windowMs, filled)), magnitude), 0.0, 1.0)
    {
      var ms := if windowMs <= 0 then 120 else windowMs;
      if filled == 0 {
        return 0.0;
      }
      var framesToRead := ToInt32(DivTrunc(format.sampleRate * ms, 1000));
      if framesToRead < 1 {
        framesToRead := 1;
      }
      var samplesToRead := ToInt32(framesToRead * format.channels);
      samplesToRead := Min(samplesToRead, filled);
      if samplesToRead <= 0 {
        return 0.0;
      }
      ghost var window := Last(history, samplesToRead);
      var start := writeIndex - samplesToRead;
      if start < 0 {
        start := start + ring.Length;
      }
      peak := PeakFrom(start, samplesToRead, window, magnitude);
      if peak < 0.0 {
        peak := 0.0;
      }
      if peak > 1.0 {
        peak := 1.0;
      }
    }

    /** The scan loop of GetPeakLastMs: the largest magnitude among the n newest samples. */
    method PeakFrom(start: int, n: int, ghost window: seq<T>, magnitude: T -> real) returns (peak: real)
      requires Valid() && 0 < n <= filled && window == Last(history, n)
      requires start == StartOf(writeIndex, n, ring.Length)
      ensures peak == MaxMagnitude(window, magnitude)
    {
      StartAge(writeIndex, n, ring.Length);
      peak := 0.0;
      var idx := start;
      var i := 0;
      while i < n
        invariant 0 <= i <= n && 0 <= idx < ring.Length
        invariant i < n ==> Age(idx, writeIndex, ring.Length) == n - 1 - i
        invariant peak == MaxMagnitude(window[..i], magnitude)
      {
        assert ring[idx] == window[i];
        assert window[..i + 1][..i] == window[..i];
        var a := magnitude(ring[idx]);
        if a > peak {
          peak := a;
        }
        if i + 1 < n {
          AgeNext(idx, writeIndex, ring.Length);
        }
        idx := idx + 1;
        if idx >= ring.Length {
          idx := 0;
        }
        i := i + 1;
      }
      assert window[..i] == window;
    }

    /**
     * GetRmsLastMs with the sample value and Math.Sqrt given as functions:
     * the square root of the mean, over the whole frames of the meter
     * window, of the squared channel average, clamped to [0, 1].
     */
    method GetRmsLastMs(windowMs: int, value: T -> real, sqrt: real -> real) returns (rms: real)
      requires Valid()
      ensures 0.0 <= rms <= 1.0
      ensures var n := MeterSamples(format.sampleRate, format.channels, windowMs, filled);
        (filled == 0 || n <= 0 || n / format.channels == 0 ==> rms == 0.0)
        && (filled > 0 && n > 0 && n / format.channels > 0 ==>
            rms == ClampReal(sqrt(MeanSquare(Last(history, n), format.channels, value)), 0.0, 1.0))
    {
      var ms := if windowMs <= 0 then 120 else windowMs;
      if filled == 0 {
        return 0.0;
      }
      var framesToRead := ToInt32(DivTrunc(format.sampleRate * ms, 1000));
      if framesToRead < 1 {
        framesToRead := 1;
      }
      var channels := format.channels;
      var samplesToRead := ToInt32(framesToRead * channels);
      samplesToRead := Min(samplesToRead, filled);
      if samplesToRead <= 0 {
        return 0.0;
      }
      var start := writeIndex - samplesToRead;
      if start < 0 {
        start := start + ring.Length;
      }
      var frameCount := samplesToRead / channels;
      if frameCount <= 0 {
        return 0.0;
      }
      ghost var window := Last(history, samplesToRead);
      var sumSq := FrameSquares(start, samplesToRead, window, value);
      var meanSq := sumSq / (frameCount as real);
      rms := sqrt(meanSq);
      if rms < 0.0 {
        rms := 0.0;
      }
      if rms > 1.0 {
        rms := 1.0;
      }
    }

    /** The frame loop of GetRmsLastMs: the sum of the squared channel averages of the whole frames of the window. */
    method FrameSquares(start: int, n: int, ghost window: seq<T>, value: T -> real) returns (sumSq: real)
      requires Valid() && 0 < n <= filled && window == Last(history, n) && n / format.channels > 0
      requires start == StartOf(writeIndex, n, ring.Length)
      ensures sumSq == SumOfSquares(window, format.channels, n / format.channels, value)
    {
      var channels := format.channels;
      var frameCount := n / channels;
      StartAge(writeIndex, n, ring.Length);
      sumSq := 0.0;
      var idx := start;
      var k0 := 0;
      var f := 0;
      while f < frameCount
        invariant 0 <= f <= frameCount && 0 <= idx < ring.Length
        invariant k0 == f * channels && k0 <= n
        invariant k0 < n ==> Age(idx, writeIndex, ring.Length) == n - 1 - k0
        invariant sumSq == SumOfSquares(window, channels, f, value)
      {
        FrameInWindow(f, frameCount, channels, n);
        SumOfSquaresStep(window, channels, f, k0, value);
        var mono;
        mono, idx := SumFrame(idx, k0, n, window, value);
        mono := mono / (channels as real);
        sumSq := sumSq + Square(mono);
        k0 := k0 + channels;
        f := f + 1;
      }
    }

    /** The channel loop of GetRmsLastMs: the sum of one frame's samples, starting at slot idx0. */
    method SumFrame(idx0: int, k0: int, n: int, ghost window: seq<T>, value: T -> real) returns (mono: real, idx: int)
      requires Valid() && 0 < n <= filled && window == Last(history, n)
      requires 0 <= idx0 < ring.Length && 0 <= k0 && k0 + format.channels <= n
      requires Age(idx0, writeIndex, ring.Length) == n - 1 - k0
      ensures 0 <= idx < ring.Length
      ensures k0 + format.channels < n ==> Age(idx, writeIndex, ring.Length) == n - 1 - (k0 + format.channels)
      ensures mono == Sum(window[k0..k0 + format.channels], value)
    {
      mono := 0.0;
      idx := idx0;
      var c := 0;
      while c < format.channels
        invariant 0 <= c <= format.channels && 0 <= idx < ring.Length
        invariant k0 + c < n ==> Age(idx, writeIndex, ring.Length) == n - 1 - (k0 + c)
        invariant mono == Sum(window[k0..k0 + c], value)
      {
        assert ring[idx] == window[k0 + c];
        assert window[k0..k0 + c + 1][..c] == window[k0..k0 + c];
        mono := mono + value(ring[idx]);
        if k0 + c + 1 < n {
          AgeNext(idx, writeIndex, ring.Length);
        }
        idx := idx + 1;
        if idx >= ring.Length {
          idx := 0;
        }
        c := c + 1;
      }
    }
  }

  /** The samples AddSamples appends: none for a null array or a non-positive count, else the first min(count, length). */
  function Added<T>(interleaved: Option<seq<T>>, sampleCount: int): (r: seq<T>)
    ensures interleaved.None? || sampleCount <= 0 ==> r == []
    ensures interleaved.Some? && sampleCount > 0 ==> r == interleaved.value[..Min(sampleCount, |interleaved.value|)]
  {
    if interleaved.None? || sampleCount <= 0 then []
    else interleaved.value[..Min(sampleCount, |interleaved.value|)]
  }

  /** The write cursor after advancing by less than two laps' worth: `if (idx >= length) idx -= length` once. */
  function WrapOnce(x: int, cap: int): int
  {
    if x >= cap then x - cap else x
  }

  lemma {:induction false} MulMonotone(a: int, b: int, c: int)
    requires 0 <= a <= b && 0 <= c
    ensures a * c <= b * c
    decreases b - a
  {
    if a < b {
      MulMonotone(a, b - 1, c);
      assert (b - 1) * c + c == b * c;
    }
  }

  /** Frame f of a window of n samples, when f is below n / channels, lies inside the window. */
  lemma FrameInWindow(f: int, frames: int, channels: int, n: int)
    requires 0 <= f < frames && channels >= 1 && frames == n / channels && n > 0
    ensures f * channels + channels <= n && (f + 1) * channels == f * channels + channels
  {
    MulMonotone(f + 1, frames, channels);
    assert frames * channels <= n;
  }
}
