// PadSettingsViewModel: the editor of one pad. It holds its own copy of the
// pad's settings, keeps the trim window inside the clip with Clamp, keeps
// echo and drop-folder modes exclusive, reads LED entries as numbers or raw
// overrides, normalises colour hex text, and writes everything back to the
// pad and to the settings' pad dictionary.
module PadSettingsVm {
  import opened Base
  import opened Text
  import opened Settings
  import PadModels

  /** The properties whose PropertyChanged notifications the editor raises. */
  datatype Prop =
    | ClipPathProp | StartMsProp | EndMsProp | InputSourceProp | PreviewToMonitorProp | PadHotkeyProp
    | MidiTriggerRawProp | MidiTriggerDisplayProp
    | LedEnabledProp(led: LedKind) | LedValueProp(led: LedKind) | LedEntryProp(led: LedKind)
    | IsEchoModeProp | IsDropFolderModeProp | UiActiveHexProp | UiRunningHexProp

  // ---------------------------------------------------------------- trim window

  datatype Window = Window(startMs: int, endMs: int)

  /**
   * Clamp's rule for a clip of `total` ms: nothing when the length is
   * unknown; otherwise the start lies in [0, total], an end of 0 or less
   * means the whole clip, and the start never passes the end.
   */
  function ClampedTrim(t: Window, total: int): (r: Window)
    ensures total <= 0 ==> r == t
    ensures total > 0 ==> 0 <= r.startMs <= r.endMs <= total && r.endMs > 0
    ensures total > 0 && (t.endMs <= 0 || t.endMs >= total) ==> r.endMs == total
    ensures total > 0 && 0 < t.endMs <= total ==> r.endMs == t.endMs
    ensures total > 0 && 0 <= t.startMs <= r.endMs ==> r.startMs == t.startMs
    ensures total > 0 && t.startMs > r.endMs ==> r.startMs == r.endMs
    ensures total > 0 && t.startMs < 0 ==> r.startMs == 0
  {
    if total <= 0 then t
    else
      var s := Clamp(t.startMs, 0, total);
      var e := Clamp(if t.endMs <= 0 then total else t.endMs, 0, total);
      Window(if s > e then e else s, e)
  }

  /** The bound Clamp establishes: for a known length, 0 <= start <= end <= total with a positive end. */
  predicate InBounds(t: Window, total: int)
  {
    total <= 0 || (0 <= t.startMs <= t.endMs <= total && t.endMs > 0)
  }

  /** Clamp leaves a window inside the bound as it is, so clamping twice is clamping once. */
  lemma ClampedTrimStable(t: Window, total: int)
    ensures InBounds(ClampedTrim(t, total), total)
    ensures InBounds(t, total) <==> ClampedTrim(t, total) == t
    ensures ClampedTrim(ClampedTrim(t, total), total) == ClampedTrim(t, total)
  {
  }

  /** The StartMs setter's rule: an equal value changes nothing, a new one is written and the window clamped. */
  function StartSet(t: Window, v: int, total: int): Window
  {
    if v == t.startMs then t else ClampedTrim(Window(v, t.endMs), total)
  }

  /** The EndMs setter's rule: an equal value changes nothing, a new one is written and the window clamped. */
  function EndSet(t: Window, v: int, total: int): Window
  {
    if v == t.endMs then t else ClampedTrim(Window(t.startMs, v), total)
  }

  /**
   * Setting StartMs to `s` and then EndMs to `e`. For an unknown length the
   * pair is taken as it is. For a known one the requested window, when in
   * bounds, survives exactly when the new start does not pass the end the
   * old window clamps to; a start past it is pulled down to that end.
   */
  function TrimSetTo(t: Window, s: int, e: int, total: int): (r: Window)
    ensures total <= 0 ==> r == Window(s, e)
    ensures total > 0 && (s != t.startMs || e != t.endMs || InBounds(t, total)) ==> InBounds(r, total)
    ensures total > 0 && InBounds(Window(s, e), total) && (s == t.startMs || s <= ClampedTrim(t, total).endMs) ==>
      r == Window(s, e)
    ensures total > 0 && InBounds(Window(s, e), total) && s != t.startMs && s > ClampedTrim(t, total).endMs ==>
      r == Window(ClampedTrim(t, total).endMs, e)
  {
    EndSet(StartSet(t, s, total), e, total)
  }

  /**
   * The window the editor opens on, as the code is written: from the
   * fields' window `t0`, the stored trim through both setters at length
   * `total0`; for a pad with a clip, then the pad's runtime trim through
   * both setters when it differs from the stored one, and a final Clamp at
   * the length `total1` known after the duration is read.
   */
  function OpenedTrim(t0: Window, stored: Window, hasClip: bool, runtime: Window, total0: int, total1: int): Window
  {
    var t1 := TrimSetTo(t0, stored.startMs, stored.endMs, total0);
    if !hasClip then t1
    else ClampedTrim(if runtime != stored then TrimSetTo(t1, runtime.startMs, runtime.endMs, total0) else t1, total1)
  }

  /**
   * A stored trim of 0..1000 ms and a runtime trim of 5000..8000 ms on a
   * 10 s clip: setting the runtime start first clamps it to the stored
   * end, so the editor opens on 1000..8000 instead of 5000..8000.
   */
  lemma RuntimeStartLost()
    ensures OpenedTrim(Window(0, 0), Window(0, 1000), true, Window(5000, 8000), 10000, 10000) == Window(1000, 8000)
    ensures IntendedOpenedTrim(Window(0, 0), Window(0, 1000), true, Window(5000, 8000), 10000, 10000) == Window(5000, 8000)
  {
  }

  /** The window the editor evidently means to open on: for a pad with a clip, its runtime trim clamped once. */
  function IntendedOpenedTrim(t0: Window, stored: Window, hasClip: bool, runtime: Window, total0: int, total1: int): (r: Window)
    ensures !hasClip ==> r == OpenedTrim(t0, stored, hasClip, runtime, total0, total1)
    ensures hasClip ==> InBounds(r, total1)
    ensures hasClip && InBounds(runtime, total1) ==> r == runtime
  {
    ClampedTrimStable(runtime, total1);
    if !hasClip then TrimSetTo(t0, stored.startMs, stored.endMs, total0) else ClampedTrim(runtime, total1)
  }

  /**
   * The code as written opens on the intended window whenever the length
   * is unknown while the setters run, and whenever both trims are in bounds
   * and neither start passes the end it is set against: the stored start
   * against the fields' clamped end, the runtime start against the stored end.
   */
  lemma OpenedTrimAgrees(t0: Window, stored: Window, hasClip: bool, runtime: Window, total0: int, total1: int)
    requires total0 <= 0
      || (InBounds(stored, total0) && InBounds(runtime, total0)
          && stored.startMs <= ClampedTrim(t0, total0).endMs && runtime.startMs <= stored.endMs)
    ensures OpenedTrim(t0, stored, hasClip, runtime, total0, total1) == IntendedOpenedTrim(t0, stored, hasClip, runtime, total0, total1)
  {
    if total0 > 0 {
      ClampedTrimStable(stored, total0);
      assert TrimSetTo(t0, stored.startMs, stored.endMs, total0) == stored;
    }
  }

  /** The notifications Clamp raises after writing the fields: StartMs, then EndMs, each only when it moved. */
  function ClampNotes(before: Window, after: Window): seq<Prop>
  {
    (if after.startMs != before.startMs then [StartMsProp] else [])
    + (if after.endMs != before.endMs then [EndMsProp] else [])
  }

  // ---------------------------------------------------------------- LED entries

  datatype LedKind = ActiveLed | RunningLed | ClearLed

  /** One LED's numeric value with its raw override (the PadSettings field). */
  datatype LedEntry = LedEntry(value: int, raw: Option<string>)

  /** The Entry property: the raw override unless it is blank, else the value in decimal. */
  function EntryText(e: LedEntry): string
  {
    if !IsBlank(e.raw) then e.raw.value else IntToString(e.value)
  }

  /**
   * ApplyLedEntry's effect: blank text clears the override, an integer
   * becomes the clamped value and clears the override, anything else is
   * stored, trimmed, as the override.
   */
  function AppliedEntry(e: LedEntry, text: Option<string>): (r: LedEntry)
    ensures var t := Trim(if text.Some? then text.value else "");
      && (t == "" ==> r == LedEntry(e.value, None))
      && (t != "" && TryParseInt32(t).Some? ==> r == LedEntry(Clamp7(TryParseInt32(t).value), None))
      && (t != "" && TryParseInt32(t).None? ==> r == LedEntry(e.value, Some(t)))
  {
    var t := Trim(if text.Some? then text.value else "");
    if |t| == 0 then LedEntry(e.value, None)
    else
      var n := TryParseInt32(t);
      if n.Some? then LedEntry(Clamp7(n.value), None) else LedEntry(e.value, Some(t))
  }

  /** The entries ApplyLedEntry can leave: a value in [0, 127] and no override, or an override that is trimmed and not a number. */
  predicate Canonical(e: LedEntry)
  {
    && 0 <= e.value <= 127
    && (e.raw.Some? ==> e.raw.value != "" && Trim(e.raw.value) == e.raw.value && TryParseInt32(e.raw.value).None?)
  }

  /** Applying any text to an entry whose value is in range leaves a canonical entry. */
  lemma AppliedEntryCanonical(e: LedEntry, text: Option<string>)
    requires 0 <= e.value <= 127
    ensures Canonical(AppliedEntry(e, text))
  {
    var t := Trim(if text.Some? then text.value else "");
    TrimIdempotent(if text.Some? then text.value else "");
  }

  /** A number's decimal text is its own trim: it starts and ends with a digit or the sign. */
  lemma IntTextTrimmed(n: int)
    ensures Trim(IntToString(n)) == IntToString(n)
  {
    var s := IntToString(n);
    var m: nat := if n < 0 then -n else n;
    var digits := NatToString(m);
    assert IsDigit(digits[|digits| - 1]) && s[|s| - 1] == digits[|digits| - 1];
    assert n >= 0 ==> IsDigit(digits[0]);
    TrimNothing(s, WhiteSpace);
  }

  /**
   * Typing back what the entry box shows changes nothing: the shown text of
   * a canonical entry, applied to it, gives the same entry.
   */
  lemma EntryRoundTrip(e: LedEntry)
    requires Canonical(e)
    ensures AppliedEntry(e, Some(EntryText(e))) == e
  {
    if e.raw.Some? {
      TrimEmptyIffBlank(e.raw.value);
      assert !IsBlank(e.raw);
    } else {
      IntTextTrimmed(e.value);
      IntToStringRoundTrip(e.value);
    }
  }

  // ---------------------------------------------------------------- colours

  /** Text the pattern ^#([0-9A-Fa-f]{6})$ accepts once trimmed (so `$` never meets a final newline). */
  predicate IsHexColor(s: string)
  {
    |s| == 7 && s[0] == '#' && forall i :: 1 <= i < 7 ==> IsHexDigit(s[i])
  }

  predicate IsUpperHexDigit(c: char)
  {
    ('0' <= c <= '9') || ('A' <= c <= 'F')
  }

  /** The normal form of a colour: '#' and six upper-case hex digits. */
  predicate IsCanonicalColor(s: string)
  {
    |s| == 7 && s[0] == '#' && forall i :: 1 <= i < 7 ==> IsUpperHexDigit(s[i])
  }

  function WithHash(s: string): string
  {
    if |s| > 0 && s[0] == '#' then s else "#" + s
  }

  /**
   * NormalizeHex: blank gives null; otherwise the trimmed text, with a '#'
   * put in front when it lacks one, comes back upper-cased when it is a
   * six-digit hex colour, and null when it is not.
   */
  function NormalizeHex(value: Option<string>): (r: Option<string>)
    ensures IsBlank(value) ==> r.None?
    ensures r.Some? ==> IsCanonicalColor(r.value)
    ensures !IsBlank(value) ==> (r.Some? <==> IsHexColor(WithHash(Trim(value.value))))
    ensures r.Some? ==> EqualsIgnoreCase(r.value, WithHash(Trim(value.value)))
  {
    if IsBlank(value) then None
    else
      var v := WithHash(Trim(value.value));
      if IsHexColor(v) then
        ToUpperIdempotent(v);
        Some(ToUpper(v))
      else None
  }

  /** The colours NormalizeHex hands back unchanged are exactly the canonical ones. */
  lemma NormalizeHexFixedPoints(c: string)
    ensures NormalizeHex(Some(c)) == Some(c) <==> IsCanonicalColor(c)
  {
    if IsCanonicalColor(c) {
      assert !IsWhiteSpace(c[0]);
      TrimNothing(c, WhiteSpace);
      assert ToUpper(c) == c;
    }
  }

  /** NormalizeHex is idempotent. */
  lemma NormalizeHexIdempotent(value: Option<string>)
    ensures NormalizeHex(NormalizeHex(value)) == NormalizeHex(value)
  {
    var r := NormalizeHex(value);
    if r.Some? {
      NormalizeHexFixedPoints(r.value);
    }
  }

  /** Six hex digits without the '#' get one, and come back upper-cased. */
  lemma NormalizeHexAddsHash(d: string)
    requires |d| == 6 && forall i :: 0 <= i < 6 ==> IsHexDigit(d[i])
    ensures NormalizeHex(Some(d)) == Some(ToUpper("#" + d))
  {
    assert !IsWhiteSpace(d[0]) && !IsWhiteSpace(d[5]);
    TrimNothing(d, WhiteSpace);
    assert d[0] != '#';
    var v := "#" + d;
    assert forall i :: 1 <= i < 7 ==> v[i] == d[i - 1];
    assert !IsBlank(Some(d));
  }

  // ---------------------------------------------------------------- trigger display

  const RAW_MARKER: string := "|RAW:"

  /**
   * MidiTriggerDisplay as written: "" when blank, "A  [B]" when the text
   * splits into two non-empty parts around "|RAW:", else the first part.
   * None stands for the IndexOutOfRangeException of `parts[0]` when no
   * part is left.
   */
  function TriggerDisplayAsWritten(s: Option<string>): (r: Option<string>)
    ensures IsBlank(s) ==> r == Some("")
  {
    if IsBlank(s) then Some("")
    else
      var parts := NonEmpty(SplitOn(s.value, RAW_MARKER));
      if |parts| == 2 then Some(parts[0] + "  [" + parts[1] + "]")
      else if |parts| == 0 then None
      else Some(parts[0])
  }

  /** Text that is nothing but the marker reaches `parts[0]` with no parts at all. */
  lemma MarkerAloneThrows()
    ensures !IsBlank(Some(RAW_MARKER))
    ensures TriggerDisplayAsWritten(Some(RAW_MARKER)) == None
  {
    assert !IsWhiteSpace(RAW_MARKER[0]);
    SplitOnHead(RAW_MARKER, "");
    assert RAW_MARKER + "" == RAW_MARKER;
    assert SplitOn(RAW_MARKER, RAW_MARKER) == ["", ""];
    assert NonEmpty(["", ""]) == NonEmpty([""]) == [];
  }

  /** The display with that case shown as "", the rest as written. */
  function TriggerDisplay(s: Option<string>): (r: string)
    ensures TriggerDisplayAsWritten(s).Some? ==> r == TriggerDisplayAsWritten(s).value
    ensures TriggerDisplayAsWritten(s).None? ==> r == ""
  {
    if IsBlank(s) then ""
    else
      var parts := NonEmpty(SplitOn(s.value, RAW_MARKER));
      if |parts| == 2 then parts[0] + "  [" + parts[1] + "]"
      else if |parts| == 0 then ""
      else parts[0]
  }

  /**
   * A learned trigger "bind|RAW:hex" whose pieces are non-empty and hold no
   * '|' shows as "bind  [hex]".
   */
  lemma LearnedTriggerDisplay(bind: string, hex: string)
    requires bind != "" && hex != ""
    requires forall i :: 0 <= i < |bind| ==> bind[i] != '|'
    requires forall i :: 0 <= i < |hex| ==> hex[i] != '|'
    ensures TriggerDisplay(Some(bind + (RAW_MARKER + hex))) == bind + "  [" + hex + "]"
  {
    var s := bind + (RAW_MARKER + hex);
    assert s[|bind|] == '|' && !IsWhiteSpace(s[|bind|]);
    assert !IsBlank(Some(s));
    SplitOnTwo(bind, RAW_MARKER, hex);
    assert NonEmpty([hex]) == [hex] + NonEmpty([]);
  }

  // ---------------------------------------------------------------- the view model

  class PadSettingsViewModel {
    const pad: PadModels.PadModel
    /** The settings this editor loaded; Save writes the pad's entry into them. */
    const global: GlobalSettings
    /**
     * The entry GetOrCreatePad handed out, which holds the trigger text and
     * the raw LED overrides the editor writes directly.
     */
    var padSettings: PadSettings
    var clipPath: Option<string>
    var startMs: int
    var endMs: int
    var inputSource: int
    var previewToMonitor: bool
    var padHotkey: Option<string>
    var ledActiveEnabled: bool
    var ledActiveValue: int
    var ledRunningEnabled: bool
    var ledRunningValue: int
    var ledClearEnabled: bool
    var ledClearValue: int
    var isEchoMode: bool
    var isDropFolderMode: bool
    var uiActiveHex: Option<string>
    var uiRunningHex: Option<string>
    /** The PropertyChanged notifications raised so far, by property name. */
    var changed: seq<Prop>

    /** The input source and LED values always lie in their ranges. */
    predicate Valid()
      reads this
    {
      && 1 <= inputSource <= 2
      && 0 <= ledActiveValue <= 127 && 0 <= ledRunningValue <= 127 && 0 <= ledClearValue <= 127
    }

    /** ClipDurationMs: the pad's duration in whole milliseconds, truncated as the int cast does. */
    function TotalMs(): int
      reads pad
    {
      DivTrunc(pad.clipDuration, PadModels.TICKS_PER_MS)
    }

    function TrimOf(): Window
      reads this
    {
      Window(startMs, endMs)
    }

    function LedValue(kind: LedKind): int
      reads this
    {
      match kind
      case ActiveLed => ledActiveValue
      case RunningLed => ledRunningValue
      case ClearLed => ledClearValue
    }

    function LedEnabled(kind: LedKind): bool
      reads this
    {
      match kind
      case ActiveLed => ledActiveEnabled
      case RunningLed => ledRunningEnabled
      case ClearLed => ledClearEnabled
    }

    function LedRaw(kind: LedKind): Option<string>
      reads this
    {
      match kind
      case ActiveLed => padSettings.midiLedActiveRaw
      case RunningLed => padSettings.midiLedRunningRaw
      case ClearLed => padSettings.midiLedClearRaw
    }

    function LedEntryOf(kind: LedKind): LedEntry
      reads this
    {
      LedEntry(LedValue(kind), LedRaw(kind))
    }

    /** The MidiLedXEntry getter. */
    function EntryTextOf(kind: LedKind): string
      reads this
    {
      EntryText(LedEntryOf(kind))
    }

    function MidiTriggerDisplay(): string
      reads this
    {
      TriggerDisplay(padSettings.midiTriggerDisplay)
    }

    /** The state ApplyToPadModel gives the pad: Armed or Empty by echo mode without a clip, Loaded with one. */
    function PadStateFor(): PadModels.PadState
      reads this
    {
      if IsBlank(clipPath) then (if isEchoMode then PadModels.Armed else PadModels.Empty) else PadModels.Loaded
    }

    /** The pad's values after ApplyToPadModel. */
    function Pushed(v: PadModels.PadValues): PadModels.PadValues
      reads this
    {
      v.(clipPath := clipPath, startMs := startMs, endMs := endMs, inputSource := PadModels.InputSourceOf(inputSource),
         previewToMonitor := previewToMonitor, isEchoMode := isEchoMode, isDropFolderMode := isDropFolderMode,
         state := PadStateFor())
    }

    /** The pad's entry as Save writes it: the editor's fields over the entry it holds. */
    function SavedEntry(): PadSettings
      reads this
    {
      padSettings.(clipPath := clipPath, startMs := startMs, endMs := endMs, inputSource := inputSource,
        previewToMonitor := previewToMonitor, padHotkey := padHotkey,
        midiLedActiveEnabled := ledActiveEnabled, midiLedActiveValue := ledActiveValue,
        midiLedRunningEnabled := ledRunningEnabled, midiLedRunningValue := ledRunningValue,
        midiLedClearEnabled := ledClearEnabled, midiLedClearValue := ledClearValue,
        isEchoMode := isEchoMode, isDropFolderMode := isDropFolderMode,
        uiActiveHex := uiActiveHex, uiRunningHex := uiRunningHex)
    }

    /** The routing fields as ApplyFromSettings sets them from `ps`: the input source clamped into [1, 2]. */
    predicate RoutingFrom(ps: PadSettings)
      reads this`inputSource, this`previewToMonitor, this`padHotkey
    {
      inputSource == PadModels.InputSourceOf(ps.inputSource) && previewToMonitor == ps.previewToMonitor && padHotkey == ps.padHotkey
    }

    /** The LED fields as ApplyFromSettings sets them from `ps`: each value clamped into [0, 127]. */
    predicate LedsFrom(ps: PadSettings)
      reads this`ledActiveValue, this`ledRunningValue, this`ledClearValue,
        this`ledActiveEnabled, this`ledRunningEnabled, this`ledClearEnabled
    {
      && ledActiveEnabled == ps.midiLedActiveEnabled && ledActiveValue == Clamp7(ps.midiLedActiveValue)
      && ledRunningEnabled == ps.midiLedRunningEnabled && ledRunningValue == Clamp7(ps.midiLedRunningValue)
      && ledClearEnabled == ps.midiLedClearEnabled && ledClearValue == Clamp7(ps.midiLedClearValue)
    }

    /** The colour fields as ApplyFromSettings sets them from `ps`: normalised by NormalizeHex. */
    predicate ColorsFrom(ps: PadSettings)
      reads this`uiActiveHex, this`uiRunningHex
    {
      uiActiveHex == NormalizeHex(ps.uiActiveHex) && uiRunningHex == NormalizeHex(ps.uiRunningHex)
    }

    /**
     * What a freshly opened editor shows of the entry `ps`: its routing,
     * LED values and colours as the setters leave them, and the modes with
     * echo mode giving way to drop-folder mode.
     */
    predicate Shows(ps: PadSettings)
      reads this`inputSource, this`previewToMonitor, this`padHotkey, this`ledActiveValue, this`ledRunningValue,
        this`ledClearValue, this`ledActiveEnabled, this`ledRunningEnabled, this`ledClearEnabled,
        this`isDropFolderMode, this`isEchoMode, this`uiActiveHex, this`uiRunningHex
    {
      && RoutingFrom(ps) && LedsFrom(ps) && ColorsFrom(ps)
      && isDropFolderMode == ps.isDropFolderMode
      && isEchoMode == (ps.isEchoMode && !ps.isDropFolderMode)
    }

    /**
     * The constructor: the field initialisers, GetOrCreatePad on the loaded
     * settings, ApplyFromSettings, and, for a pad that already has a clip,
     * that clip with the pad's runtime trim, its duration (read through
     * `durationOf` when unknown and the file exists) and a final Clamp.
     */
    constructor (pad: PadModels.PadModel, global: GlobalSettings, fileExists: string -> bool, durationOf: string -> int)
      modifies global`pads, pad`clipDuration, pad`changed
      ensures this.pad == pad && this.global == global
      ensures global.pads == WithPad(old(global.pads), pad.index)
      ensures Valid()
      ensures padSettings == PadOrDefault(old(global.pads), pad.index)
      ensures Shows(padSettings)
      ensures !IsBlank(pad.clipPath) ==> clipPath == pad.clipPath && InBounds(TrimOf(), TotalMs())
      ensures TrimOf() == OpenedTrim(Window(0, 0), Window(padSettings.startMs, padSettings.endMs), !IsBlank(pad.clipPath),
                                     Window(pad.startMs, pad.endMs), DivTrunc(old(pad.clipDuration), PadModels.TICKS_PER_MS), TotalMs())
    {
      this.pad := pad;
      this.global := global;
      padSettings := CreateDefault(pad.index);
      clipPath := None;
      startMs := 0;
      endMs := 0;
      inputSource := 1;
      previewToMonitor := false;
      padHotkey := None;
      ledActiveEnabled := false;
      ledActiveValue := 25;
      ledRunningEnabled := false;
      ledRunningValue := 127;
      ledClearEnabled := false;
      ledClearValue := 0;
      isEchoMode := false;
      isDropFolderMode := false;
      uiActiveHex := None;
      uiRunningHex := None;
      changed := [];
      new;
      var ps := global.GetOrCreatePad(pad.index);
      padSettings := ps;
      assert TrimOf() == Window(0, 0) && TotalMs() == DivTrunc(old(pad.clipDuration), PadModels.TICKS_PER_MS);
      Load(ps, fileExists, durationOf);
    }

    /** The constructor's work after GetOrCreatePad: ApplyFromSettings, then the pad's own clip when it has one. */
    method Load(ps: PadSettings, fileExists: string -> bool, durationOf: string -> int)
      requires padSettings == ps && !isEchoMode && !isDropFolderMode
      modifies this`clipPath, this`startMs, this`endMs, this`inputSource, this`previewToMonitor, this`padHotkey,
        this`padSettings, this`ledActiveEnabled, this`ledActiveValue, this`ledRunningEnabled, this`ledRunningValue,
        this`ledClearEnabled, this`ledClearValue, this`isEchoMode, this`isDropFolderMode, this`uiActiveHex,
        this`uiRunningHex, this`changed, pad`clipDuration, pad`changed
      ensures padSettings == ps && Shows(ps)
      ensures !IsBlank(pad.clipPath) ==> clipPath == pad.clipPath && InBounds(TrimOf(), TotalMs())
      ensures TrimOf() == OpenedTrim(old(TrimOf()), Window(ps.startMs, ps.endMs), !IsBlank(pad.clipPath),
                                     Window(pad.startMs, pad.endMs), old(TotalMs()), TotalMs())
    {
      ApplyFromSettings(ps);
      assert isEchoMode == (ps.isEchoMode && !ps.isDropFolderMode);
      assert Shows(ps);
      OpenClip(ps, fileExists, durationOf);
    }

    /** The second half of Load: PreferRuntimeClip for a pad that has a clip, nothing otherwise. */
    method OpenClip(ps: PadSettings, fileExists: string -> bool, durationOf: string -> int)
      modifies this`clipPath, this`startMs, this`endMs, this`changed, pad`clipDuration, pad`changed
      ensures !IsBlank(pad.clipPath) ==> clipPath == pad.clipPath && InBounds(TrimOf(), TotalMs())
      ensures IsBlank(pad.clipPath) ==> clipPath == old(clipPath) && TrimOf() == old(TrimOf())
      ensures !IsBlank(pad.clipPath) ==> TrimOf() == ClampedTrim(
        if Window(pad.startMs, pad.endMs) != Window(ps.startMs, ps.endMs)
        then TrimSetTo(old(TrimOf()), pad.startMs, pad.endMs, old(TotalMs()))
        else old(TrimOf()), TotalMs())
    {
      if !IsBlank(pad.clipPath) {
        PreferRuntimeClip(ps, fileExists, durationOf);
      }
    }

    /** ApplyFromSettings: every property set from the entry through its setter, in the order the C# code sets them. */
    method ApplyFromSettings(ps: PadSettings)
      modifies this`clipPath, this`startMs, this`endMs, this`inputSource, this`previewToMonitor, this`padHotkey,
        this`padSettings, this`ledActiveEnabled, this`ledActiveValue, this`ledRunningEnabled, this`ledRunningValue,
        this`ledClearEnabled, this`ledClearValue, this`isEchoMode, this`isDropFolderMode, this`uiActiveHex,
        this`uiRunningHex, this`changed
      ensures clipPath == ps.clipPath && RoutingFrom(ps) && LedsFrom(ps) && ColorsFrom(ps)
      ensures TrimOf() == TrimSetTo(old(TrimOf()), ps.startMs, ps.endMs, TotalMs())
      ensures padSettings == old(padSettings).(midiTriggerDisplay := ps.midiTriggerDisplay)
      ensures isDropFolderMode == ps.isDropFolderMode
      ensures isEchoMode == ((ps.isEchoMode && !ps.isDropFolderMode) || (old(isEchoMode) && ps.isEchoMode && ps.isDropFolderMode == old(isDropFolderMode)))
    {
      ApplyClipAndBindings(ps);
      ApplyLooks(ps);
    }

    /** The LED, mode and colour half of ApplyFromSettings. */
    method ApplyLooks(ps: PadSettings)
      modifies this`ledActiveEnabled, this`ledActiveValue, this`ledRunningEnabled, this`ledRunningValue,
        this`ledClearEnabled, this`ledClearValue, this`isEchoMode, this`isDropFolderMode, this`uiActiveHex,
        this`uiRunningHex, this`changed
      ensures LedsFrom(ps) && ColorsFrom(ps)
      ensures isDropFolderMode == ps.isDropFolderMode
      ensures isEchoMode == ((ps.isEchoMode && !ps.isDropFolderMode) || (old(isEchoMode) && ps.isEchoMode && ps.isDropFolderMode == old(isDropFolderMode)))
    {
      ApplyLeds(ps);
      ApplyModes(ps);
      assert LedsFrom(ps);
      ApplyColors(ps);
    }

    method ApplyClipAndBindings(ps: PadSettings)
      modifies this`clipPath, this`startMs, this`endMs, this`inputSource, this`previewToMonitor, this`padHotkey,
        this`padSettings, this`changed
      ensures clipPath == ps.clipPath && RoutingFrom(ps)
      ensures TrimOf() == TrimSetTo(old(TrimOf()), ps.startMs, ps.endMs, TotalMs())
      ensures padSettings == old(padSettings).(midiTriggerDisplay := ps.midiTriggerDisplay)
    {
      SetClipPath(ps.clipPath);
      SetStartMs(ps.startMs);
      SetEndMs(ps.endMs);
      SetInputSource(ps.inputSource);
      SetPreviewToMonitor(ps.previewToMonitor);
      SetPadHotkey(ps.padHotkey);
      SetMidiTriggerRaw(ps.midiTriggerDisplay);
    }

    method ApplyLeds(ps: PadSettings)
      modifies this`ledActiveEnabled, this`ledActiveValue, this`ledRunningEnabled, this`ledRunningValue,
        this`ledClearEnabled, this`ledClearValue, this`changed
      ensures LedsFrom(ps)
    {
      SetLedEnabled(ActiveLed, ps.midiLedActiveEnabled);
      SetLedValue(ActiveLed, ps.midiLedActiveValue);
      SetLedEnabled(RunningLed, ps.midiLedRunningEnabled);
      SetLedValue(RunningLed, ps.midiLedRunningValue);
      SetLedEnabled(ClearLed, ps.midiLedClearEnabled);
      SetLedValue(ClearLed, ps.midiLedClearValue);
    }

    method ApplyModes(ps: PadSettings)
      modifies this`isEchoMode, this`isDropFolderMode, this`changed
      ensures isDropFolderMode == ps.isDropFolderMode
      ensures isEchoMode == ((ps.isEchoMode && !ps.isDropFolderMode) || (old(isEchoMode) && ps.isEchoMode && ps.isDropFolderMode == old(isDropFolderMode)))
    {
      SetIsEchoMode(ps.isEchoMode);
      SetIsDropFolderMode(ps.isDropFolderMode);
    }

    method ApplyColors(ps: PadSettings)
      modifies this`uiActiveHex, this`uiRunningHex, this`changed
      ensures ColorsFrom(ps)
    {
      SetUiActiveHex(ps.uiActiveHex);
      SetUiRunningHex(ps.uiRunningHex);
    }

    /**
     * The constructor's preference for a pad that already has a clip: that
     * clip, the pad's runtime trim when it differs from the stored one, the
     * duration read through `durationOf` when it is unknown and the file
     * exists, and a final Clamp.
     */
    method PreferRuntimeClip(ps: PadSettings, fileExists: string -> bool, durationOf: string -> int)
      requires !IsBlank(pad.clipPath)
      modifies this`clipPath, this`startMs, this`endMs, this`changed, pad`clipDuration, pad`changed
      ensures clipPath == old(pad.clipPath)
      ensures pad.clipPath == old(pad.clipPath)
      ensures InBounds(TrimOf(), TotalMs())
      ensures TrimOf() == ClampedTrim(
        if Window(pad.startMs, pad.endMs) != Window(ps.startMs, ps.endMs)
        then TrimSetTo(old(TrimOf()), pad.startMs, pad.endMs, old(TotalMs()))
        else old(TrimOf()), TotalMs())
      ensures old(pad.clipDuration) > 0 || !fileExists(old(pad.clipPath.value)) ==> pad.Values() == old(pad.Values())
      ensures old(pad.clipDuration) <= 0 && fileExists(old(pad.clipPath.value)) ==>
        pad.Values() == old(pad.Values()).(clipDuration := durationOf(old(pad.clipPath.value)))
    {
      SetClipPath(pad.clipPath);
      if pad.startMs != ps.startMs || pad.endMs != ps.endMs {
        SetStartMs(pad.startMs);
        SetEndMs(pad.endMs);
      }
      if pad.clipDuration <= 0 && fileExists(pad.clipPath.value) {
        pad.SetClipDuration(durationOf(pad.clipPath.value));
      }
      Clamp();
    }

    method SetClipPath(v: Option<string>)
      modifies this`clipPath, this`changed
      ensures clipPath == v
      ensures changed == old(changed) + (if old(clipPath) == v then [] else [ClipPathProp])
    {
      if clipPath == v { return; }
      clipPath := v;
      changed := changed + [ClipPathProp];
    }

    /** Clamp: rewrites the window by ClampedTrim and raises a notification for each field that moved. */
    method Clamp()
      modifies this`startMs, this`endMs, this`changed
      ensures TrimOf() == ClampedTrim(old(TrimOf()), TotalMs())
      ensures changed == old(changed) + ClampNotes(old(TrimOf()), TrimOf())
    {
      var total := TotalMs();
      if total <= 0 {
        return;
      }
      var newStart := Base.Clamp(startMs, 0, total);
      var newEnd := Base.Clamp(if endMs <= 0 then total else endMs, 0, total);
      if newStart > newEnd {
        newStart := newEnd;
      }
      var startChanged := newStart != startMs;
      var endChanged := newEnd != endMs;
      startMs := newStart;
      endMs := newEnd;
      if startChanged { changed := changed + [StartMsProp]; }
      if endChanged { changed := changed + [EndMsProp]; }
    }

    /** The StartMs setter: a new value is written and the window clamped around it. */
    method SetStartMs(v: int)
      modifies this`startMs, this`endMs, this`changed
      ensures TrimOf() == StartSet(old(TrimOf()), v, TotalMs())
      ensures v == old(startMs) ==> TrimOf() == old(TrimOf()) && changed == old(changed)
      ensures v != old(startMs) ==>
        TrimOf() == ClampedTrim(Window(v, old(endMs)), TotalMs())
        && changed == old(changed) + ClampNotes(Window(v, old(endMs)), TrimOf()) + [StartMsProp]
      ensures (v != old(startMs) || InBounds(old(TrimOf()), TotalMs())) ==> InBounds(TrimOf(), TotalMs())
    {
      if startMs == v { return; }
      startMs := v;
      Clamp();
      changed := changed + [StartMsProp];
    }

    /** The EndMs setter: a new value is written and the window clamped around it. */
    method SetEndMs(v: int)
      modifies this`startMs, this`endMs, this`changed
      ensures TrimOf() == EndSet(old(TrimOf()), v, TotalMs())
      ensures v == old(endMs) ==> TrimOf() == old(TrimOf()) && changed == old(changed)
      ensures v != old(endMs) ==>
        TrimOf() == ClampedTrim(Window(old(startMs), v), TotalMs())
        && changed == old(changed) + ClampNotes(Window(old(startMs), v), TrimOf()) + [EndMsProp]
      ensures (v != old(endMs) || InBounds(old(TrimOf()), TotalMs())) ==> InBounds(TrimOf(), TotalMs())
    {
      if endMs == v { return; }
      endMs := v;
      Clamp();
      changed := changed + [EndMsProp];
    }

    /** The InputSource setter clamps into [1, 2] before comparing. */
    method SetInputSource(value: int)
      modifies this`inputSource, this`changed
      ensures inputSource == PadModels.InputSourceOf(value)
      ensures changed == old(changed) + (if old(inputSource) == inputSource then [] else [InputSourceProp])
    {
      var v := if value < 1 then 1 else (if value > 2 then 2 else value);
      if inputSource == v { return; }
      inputSource := v;
      changed := changed + [InputSourceProp];
    }

    method SetPreviewToMonitor(v: bool)
      modifies this`previewToMonitor, this`changed
      ensures previewToMonitor == v
      ensures changed == old(changed) + (if old(previewToMonitor) == v then [] else [PreviewToMonitorProp])
    {
      if previewToMonitor == v { return; }
      previewToMonitor := v;
      changed := changed + [PreviewToMonitorProp];
    }

    method SetPadHotkey(v: Option<string>)
      modifies this`padHotkey, this`changed
      ensures padHotkey == v
      ensures changed == old(changed) + (if old(padHotkey) == v then [] else [PadHotkeyProp])
    {
      if padHotkey == v { return; }
      padHotkey := v;
      changed := changed + [PadHotkeyProp];
    }

    /** MidiTriggerRaw writes the trigger text into the held entry; the display changes with it. */
    method SetMidiTriggerRaw(v: Option<string>)
      modifies this`padSettings, this`changed
      ensures padSettings == old(padSettings).(midiTriggerDisplay := v)
      ensures changed == old(changed) + (if old(padSettings.midiTriggerDisplay) == v then [] else [MidiTriggerRawProp, MidiTriggerDisplayProp])
    {
      if padSettings.midiTriggerDisplay == v { return; }
      padSettings := padSettings.(midiTriggerDisplay := v);
      changed := changed + [MidiTriggerRawProp, MidiTriggerDisplayProp];
    }

    method SetLedEnabled(kind: LedKind, v: bool)
      modifies this`ledActiveEnabled, this`ledRunningEnabled, this`ledClearEnabled, this`changed
      ensures LedEnabled(kind) == v
      ensures ledActiveEnabled == (if kind == ActiveLed then v else old(ledActiveEnabled))
      ensures ledRunningEnabled == (if kind == RunningLed then v else old(ledRunningEnabled))
      ensures ledClearEnabled == (if kind == ClearLed then v else old(ledClearEnabled))
      ensures changed == old(changed) + (if old(LedEnabled(kind)) == v then [] else [LedEnabledProp(kind)])
    {
      match kind
      case ActiveLed =>
        if ledActiveEnabled != v { ledActiveEnabled := v; changed := changed + [LedEnabledProp(ActiveLed)]; }
      case RunningLed =>
        if ledRunningEnabled != v { ledRunningEnabled := v; changed := changed + [LedEnabledProp(RunningLed)]; }
      case ClearLed =>
        if ledClearEnabled != v { ledClearEnabled := v; changed := changed + [LedEnabledProp(ClearLed)]; }
    }

    /** The LED value setters clamp into [0, 127] and store only a different value. */
    method SetLedValue(kind: LedKind, value: int)
      modifies this`ledActiveValue, this`ledRunningValue, this`ledClearValue, this`changed
      ensures LedValue(kind) == Clamp7(value)
      ensures ledActiveValue == (if kind == ActiveLed then Clamp7(value) else old(ledActiveValue))
      ensures ledRunningValue == (if kind == RunningLed then Clamp7(value) else old(ledRunningValue))
      ensures ledClearValue == (if kind == ClearLed then Clamp7(value) else old(ledClearValue))
      ensures changed == old(changed) + (if old(LedValue(kind)) == Clamp7(value) then [] else [LedValueProp(kind)])
    {
      var v := Clamp7(value);
      if LedValue(kind) == v { return; }
      match kind {
        case ActiveLed => ledActiveValue := v;
        case RunningLed => ledRunningValue := v;
        case ClearLed => ledClearValue := v;
      }
      changed := changed + [LedValueProp(kind)];
    }

    /**
     * ApplyLedEntry: the entry of `kind` becomes AppliedEntry of the text,
     * the other two LEDs and every other setting stay as they were.
     */
    method ApplyLedEntry(text: Option<string>, kind: LedKind)
      modifies this`ledActiveValue, this`ledRunningValue, this`ledClearValue, this`padSettings, this`changed
      ensures LedEntryOf(kind) == AppliedEntry(old(LedEntryOf(kind)), text)
      ensures forall k :: k != kind ==> LedEntryOf(k) == old(LedEntryOf(k))
      ensures padSettings == WithRaw(old(padSettings), kind, LedRaw(kind))
    {
      var t := Trim(if text.Some? then text.value else "");
      if |t| == 0 {
        SetRaw(kind, None);
        changed := changed + [LedEntryProp(kind)];
        return;
      }
      var n := TryParseInt32(t);
      if n.Some? {
        SetLedValue(kind, Clamp7(n.value));
        SetRaw(kind, None);
        changed := changed + [LedValueProp(kind), LedEntryProp(kind)];
        return;
      }
      SetRaw(kind, Some(t));
      changed := changed + [LedEntryProp(kind)];
    }

    method SetRaw(kind: LedKind, raw: Option<string>)
      modifies this`padSettings
      ensures padSettings == WithRaw(old(padSettings), kind, raw)
    {
      padSettings := WithRaw(padSettings, kind, raw);
    }

    /** The IsEchoMode setter: turning echo on turns drop-folder mode off. */
    method SetIsEchoMode(v: bool)
      modifies this`isEchoMode, this`isDropFolderMode, this`changed
      ensures v == old(isEchoMode) ==> isEchoMode == old(isEchoMode) && isDropFolderMode == old(isDropFolderMode) && changed == old(changed)
      ensures v != old(isEchoMode) ==> isEchoMode == v && isDropFolderMode == (old(isDropFolderMode) && !v)
      ensures v != old(isEchoMode) ==>
        changed == old(changed) + (if v && old(isDropFolderMode) then [IsDropFolderModeProp] else []) + [IsEchoModeProp]
      ensures v != old(isEchoMode) || !old(isEchoMode && isDropFolderMode) ==> !(isEchoMode && isDropFolderMode)
    {
      if isEchoMode == v { return; }
      isEchoMode := v;
      if isEchoMode && isDropFolderMode {
        isDropFolderMode := false;
        changed := changed + [IsDropFolderModeProp];
      }
      changed := changed + [IsEchoModeProp];
    }

    /** The IsDropFolderMode setter: turning drop-folder mode on turns echo off. */
    method SetIsDropFolderMode(v: bool)
      modifies this`isEchoMode, this`isDropFolderMode, this`changed
      ensures v == old(isDropFolderMode) ==> isEchoMode == old(isEchoMode) && isDropFolderMode == old(isDropFolderMode) && changed == old(changed)
      ensures v != old(isDropFolderMode) ==> isDropFolderMode == v && isEchoMode == (old(isEchoMode) && !v)
      ensures v != old(isDropFolderMode) ==>
        changed == old(changed) + (if v && old(isEchoMode) then [IsEchoModeProp] else []) + [IsDropFolderModeProp]
      ensures v != old(isDropFolderMode) || !old(isEchoMode && isDropFolderMode) ==> !(isEchoMode && isDropFolderMode)
    {
      if isDropFolderMode == v { return; }
      isDropFolderMode := v;
      if isDropFolderMode && isEchoMode {
        isEchoMode := false;
        changed := changed + [IsEchoModeProp];
      }
      changed := changed + [IsDropFolderModeProp];
    }

    /** UiActiveHex stores the normalised text. */
    method SetUiActiveHex(value: Option<string>)
      modifies this`uiActiveHex, this`changed
      ensures uiActiveHex == NormalizeHex(value)
      ensures changed == old(changed) + (if old(uiActiveHex) == uiActiveHex then [] else [UiActiveHexProp])
    {
      var v := NormalizeHex(value);
      if uiActiveHex == v { return; }
      uiActiveHex := v;
      changed := changed + [UiActiveHexProp];
    }

    /** UiRunningHex stores the normalised text. */
    method SetUiRunningHex(value: Option<string>)
      modifies this`uiRunningHex, this`changed
      ensures uiRunningHex == NormalizeHex(value)
      ensures changed == old(changed) + (if old(uiRunningHex) == uiRunningHex then [] else [UiRunningHexProp])
    {
      var v := NormalizeHex(value);
      if uiRunningHex == v { return; }
      uiRunningHex := v;
      changed := changed + [UiRunningHexProp];
    }

    /** ApplyToPadModel: the pad gets the editor's clip, trim, routing and modes, and a state that fits its clip. */
    method ApplyToPadModel()
      modifies pad
      ensures pad.Values() == Pushed(old(pad.Values()))
    {
      pad.SetClipPath(clipPath);
      pad.SetStartMs(startMs);
      pad.SetEndMs(endMs);
      pad.SetInputSource(inputSource);
      pad.SetPreviewToMonitor(previewToMonitor);
      pad.SetIsEchoMode(isEchoMode);
      pad.SetIsDropFolderMode(isDropFolderMode);
      pad.SetState(PadStateFor());
    }

    /**
     * SetClipFromFile: the new clip with the duration read from it (a
     * parameter here), the window reset to the whole clip, and the pad
     * updated.
     */
    method SetClipFromFile(path: string, durationTicks: int)
      modifies this`clipPath, this`startMs, this`endMs, this`changed, pad
      ensures clipPath == Some(path)
      ensures pad.clipDuration == durationTicks
      ensures startMs == 0 && endMs == TotalMs()
      ensures pad.Values() == Pushed(old(pad.Values()).(clipDuration := durationTicks))
    {
      SetClipPath(Some(path));
      pad.SetClipDuration(durationTicks);
      ghost var v := pad.Values();
      var total := TotalMs();
      SetStartMs(0);
      SetEndMs(total);
      Clamp();
      ApplyToPadModel();
    }

    /** ResetTrim: the window becomes the whole clip, and the pad follows. */
    method ResetTrim()
      modifies this`startMs, this`endMs, this`changed, pad
      ensures startMs == 0 && endMs == TotalMs()
      ensures pad.Values() == Pushed(old(pad.Values()))
    {
      SetStartMs(0);
      SetEndMs(TotalMs());
      Clamp();
      ApplyToPadModel();
    }

    /** NudgeStart: `StartMs += delta` in 32-bit arithmetic, then Clamp and ApplyToPadModel. */
    method NudgeStart(delta: int)
      modifies this`startMs, this`endMs, this`changed, pad
      ensures TrimOf() == ClampedTrim(Window(ToInt32(old(startMs) + delta), old(endMs)), TotalMs())
      ensures InBounds(TrimOf(), TotalMs())
      ensures pad.Values() == Pushed(old(pad.Values()))
    {
      SetStartMs(ToInt32(startMs + delta));
      Clamp();
      ClampedTrimStable(Window(ToInt32(old(startMs) + delta), old(endMs)), TotalMs());
      ApplyToPadModel();
    }

    /** NudgeEnd: `EndMs += delta` in 32-bit arithmetic, then Clamp and ApplyToPadModel. */
    method NudgeEnd(delta: int)
      modifies this`startMs, this`endMs, this`changed, pad
      ensures TrimOf() == ClampedTrim(Window(old(startMs), ToInt32(old(endMs) + delta)), TotalMs())
      ensures InBounds(TrimOf(), TotalMs())
      ensures pad.Values() == Pushed(old(pad.Values()))
    {
      SetEndMs(ToInt32(endMs + delta));
      Clamp();
      ClampedTrimStable(Window(old(startMs), ToInt32(old(endMs) + delta)), TotalMs());
      ApplyToPadModel();
    }

    /**
     * Save: pushes to the pad, then writes the editor's fields into the
     * pad's dictionary entry, which is the entry the editor holds.
     */
    method Save()
      modifies pad, global`pads, this`padSettings
      ensures pad.Values() == Pushed(old(pad.Values()))
      ensures padSettings == old(SavedEntry())
      ensures global.pads == old(global.pads)[pad.index := padSettings]
    {
      ApplyToPadModel();
      var ps := global.GetOrCreatePad(pad.index);
      padSettings := SavedEntry();
      global.pads := global.pads[pad.index := padSettings];
    }
  }

  function WithRaw(ps: PadSettings, kind: LedKind, raw: Option<string>): PadSettings
  {
    match kind
    case ActiveLed => ps.(midiLedActiveRaw := raw)
    case RunningLed => ps.(midiLedRunningRaw := raw)
    case ClearLed => ps.(midiLedClearRaw := raw)
  }
}
