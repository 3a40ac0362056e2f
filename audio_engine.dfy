// AudioEngine: per-pad playback. Each pad Index owns at most one entry in
// each of four tables (local players, file readers, VBAN cancellation
// tokens, VBAN senders); a play always stops the pad first. Files, devices
// and the sample provider chain are opaque: which files exist, the clip's
// length, which device ids open, and the samples the trimmed source
// delivers are parameters.
module AudioEngines {
  import opened Base
  import opened Text
  import opened PadModels
  import opened Endpoints
  import opened VbanTx

  /** The render device a WasapiOut is opened on. */
  datatype OutputDevice = DefaultOutput | DeviceOutput(id: string)

  /** A local player for a pad, initialised on the pad's trimmed source. */
  datatype Player = Player(device: OutputDevice, padIndex: int)

  /**
   * A clip reader positioned at `startMs`, wrapped in an OffsetSampleProvider
   * whose Take is `takeMs`, played at `gainDb`. A Take of 0 is NAudio's "no
   * limit": such a reader reads on to the end of the clip (PlayedWindow).
   */
  datatype Reader = Reader(path: string, startMs: int, takeMs: int, gainDb: real)

  /** The effective trim: the start clamped into the clip, the end (0 or less meaning the whole clip) likewise, and never before the start. */
  function TrimWindow(startMs: int, endMs: int, totalMs: int): (w: (int, int))
    ensures 0 <= w.0 <= w.1
    ensures w.0 <= Max(0, totalMs)
    ensures endMs > 0 || totalMs > w.0 ==> w.1 <= Max(0, totalMs)
  {
    var hi := Max(0, totalMs);
    var s := Clamp(startMs, 0, hi);
    var e := if endMs <= 0 then totalMs else Clamp(endMs, 0, hi);
    (s, if e < s then s else e)
  }

  /** A trim that already lies inside the clip is played as stored. */
  lemma TrimWindowKeepsValidTrim(startMs: int, endMs: int, totalMs: int)
    requires 0 <= startMs <= endMs <= totalMs && endMs > 0
    ensures TrimWindow(startMs, endMs, totalMs) == (startMs, endMs)
  {
  }

  /** An end of 0 or less plays to the end of the clip; a start past the clip plays nothing. */
  lemma TrimWindowEnds(startMs: int, endMs: int, totalMs: int)
    requires totalMs >= 0
    ensures endMs <= 0 && startMs <= totalMs ==> TrimWindow(startMs, endMs, totalMs) == (Max(0, startMs), totalMs)
    ensures startMs >= totalMs ==> TrimWindow(startMs, endMs, totalMs) == (totalMs, totalMs)
  {
  }

  /** The gain actually applied, in dB. */
  function EffectiveGainDb(gainDb: real): (g: real)
    ensures -60.0 <= g <= 20.0
    ensures -60.0 <= gainDb <= 20.0 ==> g == gainDb
  {
    ClampReal(gainDb, -60.0, 20.0)
  }

  /** The reader PlayPadAsync registers for a pad with a clip of `totalMs`. */
  function ReaderFor(pad: PadValues, totalMs: int): (r: Reader)
    requires pad.clipPath.Some?
    ensures r.path == pad.clipPath.value && 0 <= r.startMs && 0 <= r.takeMs
    ensures r.startMs + r.takeMs <= Max(0, totalMs) || (pad.endMs <= 0 && totalMs <= r.startMs)
    ensures -60.0 <= r.gainDb <= 20.0
  {
    var w := TrimWindow(pad.startMs, pad.endMs, totalMs);
    Reader(pad.clipPath.value, w.0, Max(0, w.1 - w.0), EffectiveGainDb(pad.gainDb))
  }

  /** The span of the clip a reader plays on a clip of `totalMs`: `takeMs` from its start, or to the clip's end when the take is 0. */
  function PlayedWindow(r: Reader, totalMs: int): (int, int)
  {
    (r.startMs, if r.takeMs == 0 then Max(r.startMs, totalMs) else r.startMs + r.takeMs)
  }

  /**
   * The registered reader plays the trim window when that is not empty; an
   * empty window (the start at or past the end) turns into a take of 0, and
   * the reader plays from the start to the end of the clip.
   */
  lemma ReaderPlaysWindow(pad: PadValues, totalMs: int)
    requires pad.clipPath.Some? && totalMs >= 0
    ensures var w := TrimWindow(pad.startMs, pad.endMs, totalMs);
      && (w.0 < w.1 ==> PlayedWindow(ReaderFor(pad, totalMs), totalMs) == w)
      && (w.0 == w.1 ==> PlayedWindow(ReaderFor(pad, totalMs), totalMs) == (w.0, totalMs))
  {
  }

  /** A trim of 5000..3000 ms on a 10 s clip is the empty window at 5000 ms, yet the reader plays 5000..10000 ms. */
  lemma EmptyTrimPlaysRest(pad: PadValues)
    requires pad.clipPath.Some? && pad.startMs == 5000 && pad.endMs == 3000
    ensures TrimWindow(pad.startMs, pad.endMs, 10000) == (5000, 5000)
    ensures PlayedWindow(ReaderFor(pad, 10000), 10000) == (5000, 10000)
  {
  }

  /** The reader as evidently intended: none for an empty trim window, so that an empty trim plays nothing. */
  function IntendedReaderFor(pad: PadValues, totalMs: int): Option<Reader>
    requires pad.clipPath.Some?
  {
    var w := TrimWindow(pad.startMs, pad.endMs, totalMs);
    if w.0 < w.1 then Some(ReaderFor(pad, totalMs)) else None
  }

  /** The intended reader plays exactly the trim window, and is missing exactly when that window is empty. */
  lemma IntendedPlaysWindow(pad: PadValues, totalMs: int)
    requires pad.clipPath.Some? && totalMs >= 0
    ensures var w := TrimWindow(pad.startMs, pad.endMs, totalMs);
      && (IntendedReaderFor(pad, totalMs).None? <==> w.0 == w.1)
      && (IntendedReaderFor(pad, totalMs).Some? ==> PlayedWindow(IntendedReaderFor(pad, totalMs).value, totalMs) == w)
  {
    ReaderPlaysWindow(pad, totalMs);
  }

  /** The endpoint a play uses: the monitor output when previewing, the main output otherwise. */
  function EndpointFor(out1: OutputEndpointSettings, out2: OutputEndpointSettings, previewToMonitor: bool): OutputEndpointSettings
  {
    if previewToMonitor then out2 else out1
  }

  /** CreateWasapiOutById: the named device when the id is set and opens, otherwise the default output. */
  function CreateWasapiOutById(deviceId: Option<string>, openable: set<string>): (d: OutputDevice)
    ensures d.DeviceOutput? <==> !IsBlank(deviceId) && deviceId.value in openable
    ensures d.DeviceOutput? ==> d.id == deviceId.value
  {
    if IsBlank(deviceId) then DefaultOutput
    else if deviceId.value in openable then DeviceOutput(deviceId.value)
    else DefaultOutput
  }

  /** The samples per channel in each VBAN packet: the configured frame size clamped into [64, 1024]. */
  function FrameSamplesPerChannel(frameSamples: int): (n: int)
    ensures 64 <= n <= 1024
    ensures 64 <= frameSamples <= 1024 ==> n == frameSamples
  {
    Clamp(frameSamples, 64, 1024)
  }

  /** The send buffer's length: one frame of interleaved samples for every channel of the source. */
  function FloatsPerFrame(frameSamples: int, channels: nat): (n: nat)
    ensures 64 * channels <= n <= 1024 * channels
  {
    var f := FrameSamplesPerChannel(frameSamples);
    MulMonotone(64, f, channels);
    MulMonotone(f, 1024, channels);
    f * channels
  }

  lemma MulMonotone(a: nat, b: nat, c: nat)
    requires a <= b
    ensures a * c <= b * c
  {
  }

  // ---------------------------------------------------------------------
  // The VBAN send loop
  // ---------------------------------------------------------------------

  /** What remains of a cancellation budget after `i` iterations (None: never cancelled). */
  function Remaining(budget: Option<nat>, i: nat): Option<nat>
    requires budget.Some? ==> i <= budget.value
  {
    if budget.None? then None else Some(budget.value - i)
  }

  /**
   * The buffers the send loop sends, in order: each read takes the next
   * min(n, remaining) samples, an empty read (or an empty buffer) ends the
   * loop, and a cancellation observed before iteration `budget` ends it too.
   */
  function Frames(s: seq<U32>, n: nat, budget: Option<nat>): seq<seq<U32>>
    decreases |s|
  {
    if n == 0 || |s| == 0 || budget == Some(0) then []
    else
      var k := Min(n, |s|);
      [s[..k]] + Frames(s[k..], n, Remaining(budget, 1))
  }

  function Concat(fs: seq<seq<U32>>): seq<U32>
  {
    if fs == [] then [] else fs[0] + Concat(fs[1..])
  }

  /** Datagrams made by `mk` from a list of buffers, numbered consecutively from `counter` with 32-bit wrap-around. */
  function Numbered(fs: seq<seq<U32>>, mk: (seq<U32>, U32) -> seq<Byte>, counter: U32): seq<seq<Byte>>
  {
    if fs == [] then [] else [mk(fs[0], counter)] + Numbered(fs[1..], mk, WrapIncU32(counter))
  }

  function PacketMaker(sampleRate: int, channels: int, name: Option<string>): (seq<U32>, U32) -> seq<Byte>
  {
    (f: seq<U32>, counter: U32) => Float32Packet(f, sampleRate, channels, name, counter)
  }

  /** The float32 datagrams for a list of buffers, numbered consecutively from `counter`. */
  function Packets(fs: seq<seq<U32>>, sampleRate: int, channels: int, name: Option<string>, counter: U32): seq<seq<Byte>>
  {
    Numbered(fs, PacketMaker(sampleRate, channels, name), counter)
  }

  /** A frame counter advanced `m` times. */
  function AddWrap(c: U32, m: nat): U32
  {
    (c + m) % 0x1_0000_0000
  }

  lemma AddWrapStep(c: U32, m: nat)
    ensures AddWrap(WrapIncU32(c), m) == AddWrap(c, m + 1)
    ensures WrapIncU32(AddWrap(c, m)) == AddWrap(c, m + 1)
  {
    var q := (c + 1) / 0x1_0000_0000;
    assert c + 1 == q * 0x1_0000_0000 + WrapIncU32(c);
  }

  /** Uncancelled, the loop sends every sample exactly once, in order. */
  lemma {:induction false} FramesCoverAll(s: seq<U32>, n: nat)
    requires n >= 1
    ensures Concat(Frames(s, n, None)) == s
    decreases |s|
  {
    if |s| > 0 {
      var k := Min(n, |s|);
      FramesCoverAll(s[k..], n);
      assert s == s[..k] + s[k..];
    }
  }

  /** Every buffer is non-empty and at most `n` long, and all but the last are exactly `n` long. */
  ghost predicate FullFrames(fs: seq<seq<U32>>, n: nat)
  {
    (forall i :: 0 <= i < |fs| ==> 1 <= |fs[i]| <= n) && (forall i :: 0 <= i < |fs| - 1 ==> |fs[i]| == n)
  }

  /**
   * Every buffer sent is non-empty and at most `n` samples long, and every
   * one but the last is exactly `n` long.
   */
  lemma {:induction false} FramesSizes(s: seq<U32>, n: nat, budget: Option<nat>)
    ensures FullFrames(Frames(s, n, budget), n)
    decreases |s|
  {
    if !(n == 0 || |s| == 0 || budget == Some(0)) {
      var k := Min(n, |s|);
      FramesSizes(s[k..], n, Remaining(budget, 1));
      var fs := Frames(s, n, budget);
      var rest := Frames(s[k..], n, Remaining(budget, 1));
      assert fs == [s[..k]] + rest;
      forall i | 0 <= i < |fs|
        ensures 1 <= |fs[i]| <= n && (i < |fs| - 1 ==> |fs[i]| == n)
      {
        if i == 0 {
          assert fs[0] == s[..k] && |s[..k]| == k;
          if |rest| > 0 {
            assert |s[k..]| != 0;
          }
        } else {
          assert fs[i] == rest[i - 1];
        }
      }
    }
  }

  /** A cancelled loop sends at most `budget` buffers, and what it sends is a prefix of the samples. */
  lemma {:induction false} FramesCancelled(s: seq<U32>, n: nat, budget: nat)
    ensures |Frames(s, n, Some(budget))| <= budget
    ensures var c := Concat(Frames(s, n, Some(budget))); |c| <= |s| && c == s[..|c|]
    decreases |s|
  {
    if !(n == 0 || |s| == 0 || budget == 0) {
      var k := Min(n, |s|);
      var f := Frames(s, n, Some(budget));
      var rest := Frames(s[k..], n, Some(budget - 1));
      FramesCancelled(s[k..], n, budget - 1);
      var c := Concat(rest);
      assert f == [s[..k]] + rest by {
        assert Remaining(Some(budget), 1) == Some(budget - 1);
      }
      assert f[0] == s[..k] && f[1..] == rest;
      assert Concat(f) == s[..k] + c;
      assert s[..k] + c == s[..k + |c|] by {
        assert c == s[k..][..|c|];
        assert s[k..][..|c|] == s[k..k + |c|];
      }
    }
  }

  /** Uncancelled, the loop sends ceil(|s| / n) datagrams: the fewest buffers of `n` that hold every sample. */
  lemma {:induction false} FramesCount(s: seq<U32>, n: nat)
    requires n >= 1
    ensures var c := |Frames(s, n, None)|; (c - 1) * n < |s| <= c * n
    decreases |s|
  {
    if |s| > 0 {
      var k := Min(n, |s|);
      FramesCount(s[k..], n);
      var c := |Frames(s[k..], n, None)|;
      assert |Frames(s, n, None)| == c + 1;
      if |s| <= n {
        assert c == 0;
      } else {
        assert (c - 1) * n < |s| - n <= c * n;
        assert (c + 1) * n == c * n + n;
      }
    }
  }

  /** The VBAN run a play starts: the background send loop's parameters. */
  datatype TxJob = TxJob(padIndex: int, token: nat, tx: VbanTxEngine, bufferLength: nat, sampleRate: int, channels: int)

  class AudioEngine {
    var players: map<int, Player>
    var readers: map<int, Reader>
    var vbanCts: map<int, nat>          // each run's CancellationTokenSource, by a token number
    var vbanTx: map<int, VbanTxEngine>
    var cancelled: set<nat>             // the tokens on which Cancel has been called
    var nextToken: nat
    var playerStops: seq<int>           // player.Stop() calls, by pad Index
    var ended: seq<int>                 // PadPlaybackEnded notifications

    constructor ()
      ensures players == map[] && readers == map[] && vbanCts == map[] && vbanTx == map[]
      ensures cancelled == {} && playerStops == [] && ended == []
    {
      players := map[];
      readers := map[];
      vbanCts := map[];
      vbanTx := map[];
      cancelled := {};
      nextToken := 0;
      playerStops := [];
      ended := [];
    }

    /** IsPadPlaying: a local player or a VBAN run is registered for the pad. */
    predicate IsPadPlaying(padIndex: int)
      reads this
    {
      padIndex in players || padIndex in vbanCts
    }

    /** Every token registered or cancelled so far is below the next one to be handed out. */
    ghost predicate Valid()
      reads this
    {
      (forall i :: i in vbanCts ==> vbanCts[i] < nextToken) && (forall t :: t in cancelled ==> t < nextToken)
    }

    /** StopPad: stop and drop the pad's player, cancel its VBAN run, drop its reader; other pads are untouched. */
    method StopPad(pad: Option<PadValues>)
      requires Valid()
      modifies this
      ensures Valid()
      ensures pad.None? ==> players == old(players) && readers == old(readers) && vbanCts == old(vbanCts)
                            && vbanTx == old(vbanTx) && cancelled == old(cancelled) && playerStops == old(playerStops)
      ensures pad.Some? ==>
        var idx := pad.value.index;
        players == old(players) - {idx} && readers == old(readers) - {idx}
        && vbanCts == old(vbanCts) - {idx} && vbanTx == old(vbanTx) - {idx}
        && cancelled == old(cancelled) + (if idx in old(vbanCts) then {old(vbanCts)[idx]} else {})
        && playerStops == old(playerStops) + (if idx in old(players) then [idx] else [])
        && !IsPadPlaying(idx)
      ensures ended == old(ended) && nextToken == old(nextToken)
    {
      if pad.None? {
        return;
      }
      var idx := pad.value.index;
      if idx in players {
        players := players - {idx};
        playerStops := playerStops + [idx];
      }
      CleanupVbanOnly(idx);
      CleanupReaderOnly(idx);
    }

    /** CleanupLocalOnly: drop the pad's player (without stopping it) and its reader. */
    method CleanupLocalOnly(padIndex: int)
      requires Valid()
      modifies this
      ensures Valid()
      ensures players == old(players) - {padIndex} && readers == old(readers) - {padIndex}
      ensures vbanCts == old(vbanCts) && vbanTx == old(vbanTx) && cancelled == old(cancelled)
      ensures playerStops == old(playerStops) && ended == old(ended) && nextToken == old(nextToken)
    {
      players := players - {padIndex};
      CleanupReaderOnly(padIndex);
    }

    /** CleanupVbanOnly: cancel and drop the pad's token, drop its sender. */
    method CleanupVbanOnly(padIndex: int)
      requires Valid()
      modifies this
      ensures Valid()
      ensures vbanCts == old(vbanCts) - {padIndex} && vbanTx == old(vbanTx) - {padIndex}
      ensures cancelled == old(cancelled) + (if padIndex in old(vbanCts) then {old(vbanCts)[padIndex]} else {})
      ensures players == old(players) && readers == old(readers)
      ensures playerStops == old(playerStops) && ended == old(ended) && nextToken == old(nextToken)
    {
      if padIndex in vbanCts {
        cancelled := cancelled + {vbanCts[padIndex]};
        vbanCts := vbanCts - {padIndex};
      }
      vbanTx := vbanTx - {padIndex};
    }

    /** CleanupReaderOnly: drop the pad's reader. */
    method CleanupReaderOnly(padIndex: int)
      modifies this
      ensures readers == old(readers) - {padIndex}
      ensures players == old(players) && vbanCts == old(vbanCts) && vbanTx == old(vbanTx) && cancelled == old(cancelled)
      ensures playerStops == old(playerStops) && ended == old(ended) && nextToken == old(nextToken)
    {
      readers := readers - {padIndex};
    }

    /**
     * PlayPadAsync on two endpoints. Nothing happens for no pad, a blank
     * clip or a clip file that does not exist; otherwise the pad is stopped,
     * its reader registered, and then either a local player or a VBAN run
     * (returned as the job the background loop executes).
     */
    method PlayPad(pad: Option<PadValues>, out1: OutputEndpointSettings, out2: OutputEndpointSettings, previewToMonitor: bool,
                   existingFiles: set<string>, totalMs: int, openable: set<string>, clipRate: int, clipChannels: nat,
                   parsable: set<string>)
      returns (job: Option<TxJob>)
      requires Valid()
      modifies this
      ensures Valid()
      ensures pad.None? || IsBlank(pad.value.clipPath) || pad.value.clipPath.value !in existingFiles ==>
        job.None? && players == old(players) && readers == old(readers) && vbanCts == old(vbanCts)
        && vbanTx == old(vbanTx) && cancelled == old(cancelled) && playerStops == old(playerStops)
      ensures pad.Some? && !IsBlank(pad.value.clipPath) && pad.value.clipPath.value in existingFiles ==>
        var idx := pad.value.index;
        var endpoint := EndpointFor(out1, out2, previewToMonitor);
        readers == old(readers)[idx := ReaderFor(pad.value, totalMs)]
        && cancelled == old(cancelled) + (if idx in old(vbanCts) then {old(vbanCts)[idx]} else {})
        && playerStops == old(playerStops) + (if idx in old(players) then [idx] else [])
        && (endpoint.mode == Local ==>
              job.None?
              && players == old(players)[idx := Player(CreateWasapiOutById(endpoint.localDeviceId, openable), idx)]
              && vbanCts == old(vbanCts) - {idx} && vbanTx == old(vbanTx) - {idx})
        && (endpoint.mode == Vban ==>
              (job.None? <==> endpoint.vban.remoteIp !in parsable)
              && players == old(players) - {idx}
              && (job.None? ==> vbanCts == (old(vbanCts) - {idx})[idx := old(nextToken)] && vbanTx == old(vbanTx) - {idx}))
        && (endpoint.mode == Vban && job.Some? ==>
              job.value.padIndex == idx && fresh(job.value.tx)
              && job.value.tx.streamName == Some(endpoint.vban.streamName)
              && job.value.tx.remote == RemoteEndPoint(endpoint.vban.remoteIp, endpoint.vban.port)
              && job.value.tx.frameCounter == 0 && job.value.tx.sent == []
              && job.value.bufferLength == FloatsPerFrame(endpoint.vban.frameSamples, clipChannels)
              && job.value.sampleRate == clipRate && job.value.channels == clipChannels
              && job.value.token == old(nextToken) && job.value.token !in cancelled
              && players == old(players) - {idx}
              && vbanCts == (old(vbanCts) - {idx})[idx := job.value.token]
              && vbanTx == (old(vbanTx) - {idx})[idx := job.value.tx])
      ensures ended == old(ended)
    {
      job := None;
      if pad.None? {
        return;
      }
      var p := pad.value;
      if IsBlank(p.clipPath) {
        return;
      }
      if p.clipPath.value !in existingFiles {
        return;
      }
      StopPad(pad);
      readers := readers[p.index := ReaderFor(p, totalMs)];
      job := OpenOutput(p.index, if previewToMonitor then out2 else out1, openable, clipRate, clipChannels, parsable);
    }

    /**
     * The output half of PlayPadAsync: a VBAN run for a VBAN endpoint (or,
     * when the remote address does not parse, a registered token and no
     * run), otherwise a local player.
     */
    method OpenOutput(padIndex: int, endpoint: OutputEndpointSettings, openable: set<string>, clipRate: int, clipChannels: nat,
                      parsable: set<string>)
      returns (job: Option<TxJob>)
      requires Valid()
      modifies this
      ensures Valid()
      ensures readers == old(readers) && cancelled == old(cancelled) && playerStops == old(playerStops) && ended == old(ended)
      ensures endpoint.mode == Local ==>
        job.None? && players == old(players)[padIndex := Player(CreateWasapiOutById(endpoint.localDeviceId, openable), padIndex)]
        && vbanCts == old(vbanCts) && vbanTx == old(vbanTx)
      ensures endpoint.mode == Vban ==>
        (job.None? <==> endpoint.vban.remoteIp !in parsable)
        && players == old(players)
        && vbanCts == old(vbanCts)[padIndex := old(nextToken)]
        && (job.None? ==> vbanTx == old(vbanTx))
      ensures endpoint.mode == Vban && job.Some? ==>
        job.value.padIndex == padIndex && fresh(job.value.tx)
        && job.value.tx.streamName == Some(endpoint.vban.streamName)
        && job.value.tx.remote == RemoteEndPoint(endpoint.vban.remoteIp, endpoint.vban.port)
        && job.value.tx.frameCounter == 0 && job.value.tx.sent == []
        && job.value.bufferLength == FloatsPerFrame(endpoint.vban.frameSamples, clipChannels)
        && job.value.sampleRate == clipRate && job.value.channels == clipChannels
        && job.value.token == old(nextToken) && job.value.token !in cancelled
        && vbanTx == old(vbanTx)[padIndex := job.value.tx]
    {
      if endpoint.mode == Vban {
        job := StartVbanTx(padIndex, endpoint.vban, clipRate, clipChannels, parsable);
        return;
      }
      job := None;
      var player := Player(CreateWasapiOutById(endpoint.localDeviceId, openable), padIndex);
      players := players[padIndex := player];
    }

    /**
     * The setup half of StartVbanTxPadAsync: a fresh token registered for
     * the pad, then the sender and the loop's buffer size. When the sender's
     * constructor throws on the remote address the token stays registered,
     * no sender is, and no job is returned (the exception leaves PlayPadAsync).
     */
    method StartVbanTx(padIndex: int, settings: VbanTxSettings, clipRate: int, clipChannels: nat, parsable: set<string>)
      returns (job: Option<TxJob>)
      requires Valid()
      modifies this
      ensures Valid()
      ensures job.None? <==> settings.remoteIp !in parsable
      ensures job.Some? ==>
        job.value.padIndex == padIndex && fresh(job.value.tx) && job.value.tx.streamName == Some(settings.streamName)
        && job.value.tx.remote == RemoteEndPoint(settings.remoteIp, settings.port)
        && job.value.tx.frameCounter == 0 && job.value.tx.sent == []
        && job.value.bufferLength == FloatsPerFrame(settings.frameSamples, clipChannels)
        && job.value.sampleRate == clipRate && job.value.channels == clipChannels && job.value.token == old(nextToken)
        && job.value.token !in cancelled
        && vbanTx == old(vbanTx)[padIndex := job.value.tx]
      ensures job.None? ==> vbanTx == old(vbanTx)
      ensures vbanCts == old(vbanCts)[padIndex := old(nextToken)]
      ensures players == old(players) && readers == old(readers) && cancelled == old(cancelled)
      ensures playerStops == old(playerStops) && ended == old(ended) && nextToken == old(nextToken) + 1
    {
      var token := nextToken;
      nextToken := nextToken + 1;
      vbanCts := vbanCts[padIndex := token];
      var tx := NewVbanTxEngine(settings, parsable);
      if tx == null {
        return None;
      }
      vbanTx := vbanTx[padIndex := tx];
      var frameSamplesPerChannel := Clamp(settings.frameSamples, 64, 1024);
      var floatsPerFrame := frameSamplesPerChannel * clipChannels;
      job := Some(TxJob(padIndex, token, tx, floatsPerFrame, clipRate, clipChannels));
    }

    /**
     * The background half of StartVbanTxPadAsync: the send loop, then the
     * pad's VBAN entries and reader are dropped and PadPlaybackEnded is
     * raised. `samples` is what the trimmed, gain-adjusted source delivers;
     * a cancellation is observed after `cancelAfter` iterations, if at all.
     */
    method RunVbanTx(job: TxJob, samples: seq<U32>, cancelAfter: Option<nat>)
      requires Valid()
      modifies this, job.tx
      ensures Valid()
      ensures var fs := Frames(samples, job.bufferLength, cancelAfter);
        job.tx.sent == old(job.tx.sent) + Packets(fs, job.sampleRate, job.channels, job.tx.streamName, old(job.tx.frameCounter))
        && job.tx.frameCounter == AddWrap(old(job.tx.frameCounter), |fs|)
      ensures vbanCts == old(vbanCts) - {job.padIndex} && vbanTx == old(vbanTx) - {job.padIndex}
      ensures readers == old(readers) - {job.padIndex} && players == old(players)
      ensures cancelled == old(cancelled) + (if job.padIndex in old(vbanCts) then {old(vbanCts)[job.padIndex]} else {})
      ensures playerStops == old(playerStops) && ended == old(ended) + [job.padIndex]
    {
      SendLoop(job.tx, samples, job.bufferLength, job.sampleRate, job.channels, cancelAfter);
      CleanupVbanOnly(job.padIndex);
      CleanupReaderOnly(job.padIndex);
      ended := ended + [job.padIndex];
    }

    /** The local player's PlaybackStopped handler: clean up without stopping, then raise PadPlaybackEnded. */
    method OnPlaybackStopped(padIndex: int)
      requires Valid()
      modifies this
      ensures Valid()
      ensures players == old(players) - {padIndex} && readers == old(readers) - {padIndex}
      ensures vbanCts == old(vbanCts) && vbanTx == old(vbanTx) && cancelled == old(cancelled)
      ensures playerStops == old(playerStops) && ended == old(ended) + [padIndex]
    {
      CleanupLocalOnly(padIndex);
      ended := ended + [padIndex];
    }

    /** The two-device PlayPadAsync: both devices become local endpoints. */
    method PlayPadOnDevices(pad: Option<PadValues>, mainOutDeviceId: Option<string>, monitorOutDeviceId: Option<string>,
                            previewToMonitor: bool, existingFiles: set<string>, totalMs: int, openable: set<string>,
                            clipRate: int, clipChannels: nat)
      requires Valid()
      modifies this
      ensures Valid()
      ensures pad.None? || IsBlank(pad.value.clipPath) || pad.value.clipPath.value !in existingFiles ==>
        players == old(players) && readers == old(readers) && vbanCts == old(vbanCts) && vbanTx == old(vbanTx)
      ensures pad.Some? && !IsBlank(pad.value.clipPath) && pad.value.clipPath.value in existingFiles ==>
        var idx := pad.value.index;
        var device := if previewToMonitor then monitorOutDeviceId else mainOutDeviceId;
        players == old(players)[idx := Player(CreateWasapiOutById(device, openable), idx)]
        && readers == old(readers)[idx := ReaderFor(pad.value, totalMs)]
        && vbanCts == old(vbanCts) - {idx} && vbanTx == old(vbanTx) - {idx}
      ensures ended == old(ended)
    {
      var job := PlayPad(pad, LocalOutput(mainOutDeviceId), LocalOutput(monitorOutDeviceId), previewToMonitor,
                         existingFiles, totalMs, openable, clipRate, clipChannels, {});
    }
  }

  /** The send loop: read up to a buffer of samples, stop on an empty read, otherwise send what was read. */
  method SendLoop(tx: VbanTxEngine, samples: seq<U32>, n: nat, sampleRate: int, channels: int, cancelAfter: Option<nat>)
    modifies tx
    ensures var fs := Frames(samples, n, cancelAfter);
      tx.sent == old(tx.sent) + Packets(fs, sampleRate, channels, tx.streamName, old(tx.frameCounter))
      && tx.frameCounter == AddWrap(old(tx.frameCounter), |fs|)
  {
    SendFrames(tx, samples, n, sampleRate, channels, cancelAfter, PacketMaker(sampleRate, channels, tx.streamName));
  }

  /** SendLoop with the datagram builder named, so that the loop reasons about it only through `mk`. */
  method SendFrames(tx: VbanTxEngine, samples: seq<U32>, n: nat, sampleRate: int, channels: int, cancelAfter: Option<nat>,
                    ghost mk: (seq<U32>, U32) -> seq<Byte>)
    requires mk == PacketMaker(sampleRate, channels, tx.streamName)
    modifies tx
    ensures tx.sent == old(tx.sent) + Numbered(Frames(samples, n, cancelAfter), mk, old(tx.frameCounter))
    ensures tx.frameCounter == AddWrap(old(tx.frameCounter), |Frames(samples, n, cancelAfter)|)
  {
    var buffer := new U32[n];
    ghost var c0 := tx.frameCounter;
    ghost var all := Frames(samples, n, cancelAfter);
    ghost var done: seq<seq<U32>> := [];
    var pos := 0;
    var i := 0;
    while cancelAfter.None? || i < cancelAfter.value
      invariant 0 <= pos <= |samples| && buffer.Length == n
      invariant cancelAfter.Some? ==> i <= cancelAfter.value
      invariant FramesLeft(samples, pos, n, cancelAfter, i, done, all)
      invariant tx.sent == old(tx.sent) + Numbered(done, mk, c0)
      invariant tx.frameCounter == AddWrap(c0, |done|)
      decreases |samples| - pos
    {
      var read, chunk := SendStep(tx, buffer, samples, pos, n, sampleRate, channels, cancelAfter, i, done, all, mk, c0, old(tx.sent));
      if read <= 0 {
        break;
      }
      done := done + [chunk];
      pos := pos + read;
      i := i + 1;
    }
    assert done == all by {
      if cancelAfter.Some? && i >= cancelAfter.value {
        assert Frames(samples[pos..], n, Remaining(cancelAfter, i)) == [];
        assert done + [] == done;
      }
    }
  }

  /** The loop's progress: the buffers already sent followed by those still to come are all the loop will send. */
  ghost predicate FramesLeft(samples: seq<U32>, pos: nat, n: nat, budget: Option<nat>, i: nat, done: seq<seq<U32>>, all: seq<seq<U32>>)
  {
    pos <= |samples| && (budget.Some? ==> i <= budget.value)
    && done + Frames(samples[pos..], n, Remaining(budget, i)) == all
  }

  /**
   * One pass of the transmit loop: a buffer read from what remains is sent,
   * or, when nothing could be read, everything has already been sent.
   */
  method SendStep(tx: VbanTxEngine, buffer: array<U32>, samples: seq<U32>, pos: nat, n: nat, sampleRate: int, channels: int,
                  budget: Option<nat>, i: nat,
                  ghost done: seq<seq<U32>>, ghost all: seq<seq<U32>>, ghost mk: (seq<U32>, U32) -> seq<Byte>, ghost c0: U32,
                  ghost s0: seq<seq<Byte>>)
    returns (read: int, ghost chunk: seq<U32>)
    requires pos <= |samples| && buffer.Length == n && (budget.Some? ==> i < budget.value)
    requires FramesLeft(samples, pos, n, budget, i, done, all)
    requires mk == PacketMaker(sampleRate, channels, tx.streamName)
    requires tx.sent == s0 + Numbered(done, mk, c0) && tx.frameCounter == AddWrap(c0, |done|)
    modifies tx, buffer
    ensures read <= 0 ==> done == all && tx.sent == old(tx.sent) && tx.frameCounter == old(tx.frameCounter)
    ensures read > 0 ==> pos + read <= |samples|
    ensures read > 0 ==> FramesLeft(samples, pos + read, n, budget, i + 1, done + [chunk], all)
    ensures read > 0 ==> tx.sent == s0 + Numbered(done + [chunk], mk, c0)
    ensures read > 0 ==> tx.frameCounter == AddWrap(c0, |done + [chunk]|)
  {
    read := ReadInto(buffer, samples, pos);
    chunk := samples[pos..pos + read];
    if read <= 0 {
      assert Frames(samples[pos..], n, Remaining(budget, i)) == [];
      assert done + [] == done;
      return;
    }
    SendBuffer(tx, buffer, samples, pos, read, sampleRate, channels, mk);
    LoopStep(samples, pos, n, budget, i, done, all, mk, c0, read, chunk);
    AppendAssoc(s0, Numbered(done, mk, c0), [mk(chunk, AddWrap(c0, |done|))]);
  }

  /** sampleProvider.Read: as many of the remaining samples as fit in the buffer, copied to its front. */
  method ReadInto(buffer: array<U32>, samples: seq<U32>, pos: nat) returns (read: int)
    requires pos <= |samples|
    modifies buffer
    ensures read == Min(buffer.Length, |samples| - pos)
    ensures buffer[..read] == samples[pos..pos + read]
  {
    read := Min(buffer.Length, |samples| - pos);
    forall k | 0 <= k < read {
      buffer[k] := samples[pos + k];
    }
  }

  /** One datagram from the samples at the front of the buffer. */
  method SendBuffer(tx: VbanTxEngine, buffer: array<U32>, samples: seq<U32>, pos: nat, read: int, sampleRate: int, channels: int,
                    ghost mk: (seq<U32>, U32) -> seq<Byte>)
    requires 0 < read <= buffer.Length && pos + read <= |samples|
    requires buffer[..read] == samples[pos..pos + read]
    requires mk == PacketMaker(sampleRate, channels, tx.streamName)
    modifies tx
    ensures tx.sent == old(tx.sent) + [mk(samples[pos..pos + read], old(tx.frameCounter))]
    ensures tx.frameCounter == WrapIncU32(old(tx.frameCounter))
  {
    assert buffer[..][..read] == buffer[..read];
    var _ := tx.SendInterleavedFloat32Frame(buffer[..], read, sampleRate, channels);
  }

  lemma AppendAssoc<T>(a: seq<T>, b: seq<T>, c: seq<T>)
    ensures (a + b) + c == a + (b + c)
  {
  }

  /** The bookkeeping of one loop iteration: the buffer just sent moves from what remains to what is done. */
  lemma LoopStep(samples: seq<U32>, pos: nat, n: nat, budget: Option<nat>, i: nat, done: seq<seq<U32>>,
                 all: seq<seq<U32>>, mk: (seq<U32>, U32) -> seq<Byte>, c0: U32, read: nat, chunk: seq<U32>)
    requires pos < |samples| && n > 0
    requires budget.Some? ==> i < budget.value
    requires done + Frames(samples[pos..], n, Remaining(budget, i)) == all
    requires read == Min(n, |samples| - pos) && chunk == samples[pos..pos + read]
    ensures (done + [chunk]) + Frames(samples[pos + read..], n, Remaining(budget, i + 1)) == all
    ensures Numbered(done + [chunk], mk, c0) == Numbered(done, mk, c0) + [mk(chunk, AddWrap(c0, |done|))]
    ensures WrapIncU32(AddWrap(c0, |done|)) == AddWrap(c0, |done + [chunk]|)
  {
    FramesStep(samples, pos, n, budget, i);
    var tail := Frames(samples[pos + read..], n, Remaining(budget, i + 1));
    assert (done + [chunk]) + tail == done + ([chunk] + tail);
    NumberedAppend(done, chunk, mk, c0);
    AddWrapStep(c0, |done|);
  }

  /** One iteration of the loop takes the next buffer off the front of what remains. */
  lemma FramesStep(samples: seq<U32>, pos: nat, n: nat, budget: Option<nat>, i: nat)
    requires pos < |samples| && n > 0
    requires budget.Some? ==> i < budget.value
    ensures var read := Min(n, |samples| - pos);
      Frames(samples[pos..], n, Remaining(budget, i))
      == [samples[pos..pos + read]] + Frames(samples[pos + read..], n, Remaining(budget, i + 1))
  {
    var read := Min(n, |samples| - pos);
    assert samples[pos..][..read] == samples[pos..pos + read];
    assert samples[pos..][read..] == samples[pos + read..];
  }

  /** The datagrams of one more buffer: the next one carries the counter advanced once per earlier buffer. */
  lemma {:induction false} NumberedAppend(fs: seq<seq<U32>>, f: seq<U32>, mk: (seq<U32>, U32) -> seq<Byte>, c: U32)
    ensures Numbered(fs + [f], mk, c) == Numbered(fs, mk, c) + [mk(f, AddWrap(c, |fs|))]
    decreases |fs|
  {
    if fs == [] {
      assert AddWrap(c, 0) == c;
    } else {
      var g := fs + [f];
      assert g[0] == fs[0] && g[1..] == fs[1..] + [f];
      NumberedAppend(fs[1..], f, mk, WrapIncU32(c));
      AddWrapStep(c, |fs| - 1);
    }
  }
}
