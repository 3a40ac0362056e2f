// PadModel: the observable state of one pad. Every property setter writes
// its backing field and raises PropertyChanged only when the value differs;
// `changed` records the notifications raised, by property name.
module PadModels {
  import opened Base
  import opened Text

  datatype PadState = Empty | Armed | Loaded | Playing

  /** The properties whose PropertyChanged notifications a pad raises. */
  datatype Prop =
    | StateProp | PadNameProp | ClipPathProp | ClipDurationProp | TotalSecTextProp | StartMsProp | EndMsProp
    | InputSourceProp | PreviewToMonitorProp | IsDropFolderModeProp | ClipModProp | IsBusyProp | IsHoldArmedProp
    | IsEchoModeProp | PlayheadMsProp | PlayheadSecTextProp

  /** The pad's role in a copy operation (ClipMod.None is `Unmarked`). */
  datatype ClipMod = Unmarked | CopySource | CopiedTarget

  const TICKS_PER_MS: int := 10_000
  const TICKS_PER_SECOND: int := 10_000_000

  /** The values of a pad's properties; the clip duration is a TimeSpan in 100 ns ticks. */
  datatype PadValues = PadValues(
    index: int,
    state: PadState,
    padName: Option<string>,
    clipPath: Option<string>,
    clipDuration: int,
    startMs: int,
    endMs: int,
    inputSource: int,
    previewToMonitor: bool,
    isDropFolderMode: bool,
    clipMod: ClipMod,
    isBusy: bool,
    isHoldArmed: bool,
    isEchoMode: bool,
    playheadMs: int,
    gainDb: real)

  /** A new pad: Empty, input source 1, zero duration, no clip, no name, everything else off or zero. */
  function InitialValues(index: int): (v: PadValues)
    ensures v.index == index && v.state == Empty && v.inputSource == 1 && v.clipDuration == 0
    ensures v.clipPath.None? && v.padName.None? && v.clipMod == Unmarked && !v.isBusy && !v.isEchoMode
  {
    PadValues(index, Empty, None, None, 0, 0, 0, 1, false, false, Unmarked, false, false, false, 0, 0.0)
  }

  /** The value the InputSource setter stores: below 1 becomes 1, above 2 becomes 2. */
  function InputSourceOf(value: int): (v: int)
    ensures 1 <= v <= 2
    ensures 1 <= value <= 2 ==> v == value
  {
    if value < 1 then 1 else if value > 2 then 2 else value
  }

  /** Math.Ceiling of a tick count in seconds. */
  function CeilSeconds(ticks: int): int
  {
    -((-ticks) / TICKS_PER_SECOND)
  }

  /** CeilSeconds is the least whole number of seconds that covers the duration. */
  lemma CeilSecondsBounds(ticks: int)
    ensures (CeilSeconds(ticks) - 1) * TICKS_PER_SECOND < ticks <= CeilSeconds(ticks) * TICKS_PER_SECOND
  {
    var q := (-ticks) / TICKS_PER_SECOND;
    var m := (-ticks) % TICKS_PER_SECOND;
    assert -ticks == q * TICKS_PER_SECOND + m && 0 <= m < TICKS_PER_SECOND;
  }

  /** TotalSecText: "" for a zero duration, otherwise the rounded-up seconds followed by "s". */
  function TotalSecText(clipDuration: int): (r: string)
    ensures clipDuration == 0 <==> r == ""
    ensures clipDuration != 0 ==>
      |r| >= 2 && r[|r| - 1] == 's' && r[..|r| - 1] == IntToString(CeilSeconds(clipDuration))
    ensures clipDuration != 0 && IsInt32(CeilSeconds(clipDuration)) ==> TryParseInt32(r[..|r| - 1]) == Some(CeilSeconds(clipDuration))
  {
    if clipDuration == 0 then ""
    else
      var s := CeilSeconds(clipDuration);
      var t := IntToString(s);
      assert IsInt32(s) ==> TryParseInt32(t) == Some(s) by {
        if IsInt32(s) { IntToStringRoundTrip(s); }
      }
      assert (t + "s")[..|t + "s"| - 1] == t;
      t + "s"
  }

  class PadModel {
    const index: int
    var state: PadState
    var padName: Option<string>
    var clipPath: Option<string>
    var clipDuration: int
    var startMs: int
    var endMs: int
    var inputSource: int
    var previewToMonitor: bool
    var isDropFolderMode: bool
    var clipMod: ClipMod
    var isBusy: bool
    var isHoldArmed: bool
    var isEchoMode: bool
    var playheadMs: int
    var gainDb: real
    var changed: seq<Prop>

    function Values(): PadValues
      reads this
    {
      PadValues(index, state, padName, clipPath, clipDuration, startMs, endMs, inputSource, previewToMonitor,
        isDropFolderMode, clipMod, isBusy, isHoldArmed, isEchoMode, playheadMs, gainDb)
    }

    constructor (index: int)
      ensures Values() == InitialValues(index) && changed == []
    {
      this.index := index;
      state := Empty;
      padName := None;
      clipPath := None;
      clipDuration := 0;
      startMs := 0;
      endMs := 0;
      inputSource := 1;
      previewToMonitor := false;
      isDropFolderMode := false;
      clipMod := Unmarked;
      isBusy := false;
      isHoldArmed := false;
      isEchoMode := false;
      playheadMs := 0;
      gainDb := 0.0;
      changed := [];
    }

    /** HasPadName: the name is set and not white space. */
    predicate HasPadName()
      reads this
    {
      !IsBlank(padName)
    }

    method SetState(v: PadState)
      modifies this`state, this`changed
      ensures Values() == old(Values()).(state := v)
      ensures changed == old(changed) + (if old(state) == v then [] else [StateProp])
    {
      if state == v { return; }
      state := v;
      changed := changed + [StateProp];
    }

    method SetPadName(v: Option<string>)
      modifies this`padName, this`changed
      ensures Values() == old(Values()).(padName := v)
      ensures changed == old(changed) + (if old(padName) == v then [] else [PadNameProp])
    {
      if padName == v { return; }
      padName := v;
      changed := changed + [PadNameProp];
    }

    method SetClipPath(v: Option<string>)
      modifies this`clipPath, this`changed
      ensures Values() == old(Values()).(clipPath := v)
      ensures changed == old(changed) + (if old(clipPath) == v then [] else [ClipPathProp])
    {
      if clipPath == v { return; }
      clipPath := v;
      changed := changed + [ClipPathProp];
    }

    /** A new duration also changes TotalSecText. */
    method SetClipDuration(v: int)
      modifies this`clipDuration, this`changed
      ensures Values() == old(Values()).(clipDuration := v)
      ensures changed == old(changed) + (if old(clipDuration) == v then [] else [ClipDurationProp, TotalSecTextProp])
    {
      if clipDuration == v { return; }
      clipDuration := v;
      changed := changed + [ClipDurationProp, TotalSecTextProp];
    }

    method SetStartMs(v: int)
      modifies this`startMs, this`changed
      ensures Values() == old(Values()).(startMs := v)
      ensures changed == old(changed) + (if old(startMs) == v then [] else [StartMsProp])
    {
      if startMs == v { return; }
      startMs := v;
      changed := changed + [StartMsProp];
    }

    method SetEndMs(v: int)
      modifies this`endMs, this`changed
      ensures Values() == old(Values()).(endMs := v)
      ensures changed == old(changed) + (if old(endMs) == v then [] else [EndMsProp])
    {
      if endMs == v { return; }
      endMs := v;
      changed := changed + [EndMsProp];
    }

    /** The InputSource setter clamps into [1, 2] before comparing. */
    method SetInputSource(value: int)
      modifies this`inputSource, this`changed
      ensures Values() == old(Values()).(inputSource := InputSourceOf(value))
      ensures changed == old(changed) + (if old(inputSource) == InputSourceOf(value) then [] else [InputSourceProp])
    {
      var v := if value < 1 then 1 else (if value > 2 then 2 else value);
      if inputSource == v { return; }
      inputSource := v;
      changed := changed + [InputSourceProp];
    }

    method SetPreviewToMonitor(v: bool)
      modifies this`previewToMonitor, this`changed
      ensures Values() == old(Values()).(previewToMonitor := v)
      ensures changed == old(changed) + (if old(previewToMonitor) == v then [] else [PreviewToMonitorProp])
    {
      if previewToMonitor == v { return; }
      previewToMonitor := v;
      changed := changed + [PreviewToMonitorProp];
    }

    method SetIsDropFolderMode(v: bool)
      modifies this`isDropFolderMode, this`changed
      ensures Values() == old(Values()).(isDropFolderMode := v)
      ensures changed == old(changed) + (if old(isDropFolderMode) == v then [] else [IsDropFolderModeProp])
    {
      if isDropFolderMode == v { return; }
      isDropFolderMode := v;
      changed := changed + [IsDropFolderModeProp];
    }

    method SetClipMod(v: ClipMod)
      modifies this`clipMod, this`changed
      ensures Values() == old(Values()).(clipMod := v)
      ensures changed == old(changed) + (if old(clipMod) == v then [] else [ClipModProp])
    {
      if clipMod == v { return; }
      clipMod := v;
      changed := changed + [ClipModProp];
    }

    method SetIsBusy(v: bool)
      modifies this`isBusy, this`changed
      ensures Values() == old(Values()).(isBusy := v)
      ensures changed == old(changed) + (if old(isBusy) == v then [] else [IsBusyProp])
    {
      if isBusy == v { return; }
      isBusy := v;
      changed := changed + [IsBusyProp];
    }

    method SetIsHoldArmed(v: bool)
      modifies this`isHoldArmed, this`changed
      ensures Values() == old(Values()).(isHoldArmed := v)
      ensures changed == old(changed) + (if old(isHoldArmed) == v then [] else [IsHoldArmedProp])
    {
      if isHoldArmed == v { return; }
      isHoldArmed := v;
      changed := changed + [IsHoldArmedProp];
    }

    method SetIsEchoMode(v: bool)
      modifies this`isEchoMode, this`changed
      ensures Values() == old(Values()).(isEchoMode := v)
      ensures changed == old(changed) + (if old(isEchoMode) == v then [] else [IsEchoModeProp])
    {
      if isEchoMode == v { return; }
      isEchoMode := v;
      changed := changed + [IsEchoModeProp];
    }

    /** A new playhead also changes PlayheadSecText. */
    method SetPlayheadMs(v: int)
      modifies this`playheadMs, this`changed
      ensures Values() == old(Values()).(playheadMs := v)
      ensures changed == old(changed) + (if old(playheadMs) == v then [] else [PlayheadMsProp, PlayheadSecTextProp])
    {
      if playheadMs == v { return; }
      playheadMs := v;
      changed := changed + [PlayheadMsProp, PlayheadSecTextProp];
    }
  }

  /** A pad's blank-clip test, string.IsNullOrWhiteSpace(ClipPath). */
  predicate HasClip(p: PadValues)
  {
    !IsBlank(p.clipPath)
  }
}
