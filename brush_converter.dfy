// PadVisualBrushConverter: the brush a pad's border, glow or background is
// painted with, chosen from the pad's state, clip, echo flag and input, the
// pad's own colour overrides and the global armed colours.
module BrushConverter {
  import opened Base
  import opened Text
  import opened Settings
  import opened PadModels
  import MidiLed
  import PadSettingsVm

  /** A WPF colour: alpha, red, green, blue. */
  datatype Color = Color(a: Byte, r: Byte, g: Byte, b: Byte)

  /**
   * The brushes the converter hands back. A background is the three-stop
   * gradient derived from its base colour (the float scaling of the stops
   * is not modelled, only the colour it starts from).
   */
  datatype Brush = Transparent | Solid(color: Color) | Tinted(base: Color)

  /** One boxed entry of the MultiBinding's value array, by its run-time type. */
  datatype Arg =
    | StateArg(state: PadState)
    | TextArg(text: string)
    | BoolArg(flag: bool)
    | IntArg(n: int)
    | SettingsArg(gs: GlobalSettings)
    | NullArg
    | OtherArg

  /** The converter's inputs once every type test has passed. */
  datatype Inputs = Inputs(state: PadState, clipPath: Option<string>, isEchoMode: bool, inputSource: int,
                           padIndex: int, gs: GlobalSettings)

  datatype Mode = BorderMode | GlowMode | BackgroundMode

  const PLAYING_HEX: string := "#00FF6A"
  const LOADED_HEX: string := "#3DFF8B"
  const ARMED_INPUT1_HEX: string := "#FF4DB8"
  const ARMED_INPUT2_HEX: string := "#4DA3FF"
  const EMPTY_HEX: string := "#5A5A5A"

  // ------------------------------------------------------------------ argument decoding

  /**
   * The type tests at the top of Convert: a null or short array, or a wrong
   * type for the state, echo flag, index or settings, gives None; the clip
   * path is null unless a string; the input source is 1 unless an int.
   */
  function Decoded(values: Option<seq<Arg>>): (r: Option<Inputs>)
    ensures r.Some? <==> values.Some? && |values.value| >= 6 && values.value[0].StateArg? && values.value[2].BoolArg?
                         && values.value[4].IntArg? && values.value[5].SettingsArg?
    ensures r.Some? ==> var v := values.value;
      && r.value.state == v[0].state && r.value.isEchoMode == v[2].flag
      && r.value.padIndex == v[4].n && r.value.gs == v[5].gs
      && r.value.clipPath == (if v[1].TextArg? then Some(v[1].text) else None)
      && r.value.inputSource == (if v[3].IntArg? then v[3].n else 1)
  {
    if values.None? || |values.value| < 6 then None
    else
      var v := values.value;
      if !v[0].StateArg? || !v[2].BoolArg? || !v[4].IntArg? || !v[5].SettingsArg? then None
      else
        Some(Inputs(v[0].state, if v[1].TextArg? then Some(v[1].text) else None, v[2].flag,
                    if v[3].IntArg? then v[3].n else 1, v[4].n, v[5].gs))
  }

  /** The settings object Convert may write to: the one it decodes, if any. */
  function Touched(values: Option<seq<Arg>>): set<object>
  {
    if Decoded(values).Some? then {Decoded(values).value.gs} else {}
  }

  /** `(parameter as string)?.Trim() ?? "Border"`, then the case-insensitive matches. */
  function ModeOf(parameter: Arg): (m: Mode)
    ensures parameter.TextArg? && EqualsIgnoreCase(Trim(parameter.text), "Background") ==> m == BackgroundMode
    ensures parameter.TextArg? && EqualsIgnoreCase(Trim(parameter.text), "Glow") ==> m == GlowMode
    ensures !parameter.TextArg? ==> m == BorderMode
  {
    var mode := if parameter.TextArg? then Trim(parameter.text) else "Border";
    if EqualsIgnoreCase(mode, "Background") then BackgroundMode
    else if EqualsIgnoreCase(mode, "Glow") then GlowMode
    else BorderMode
  }

  // ------------------------------------------------------------------ state and colour

  /** The visual state: no clip gives Armed in echo mode and Empty otherwise; a clip that is not playing shows Loaded. */
  function VisualState(clipPath: Option<string>, isEchoMode: bool, state: PadState): PadState
  {
    if IsBlank(clipPath) then (if isEchoMode then Armed else Empty)
    else if state != Playing then Loaded
    else state
  }

  /** The pad's colour shows the same state its LED reports. */
  lemma VisualStateMatchesLed(clipPath: Option<string>, isEchoMode: bool, state: PadState)
    ensures VisualState(clipPath, isEchoMode, state) == MidiLed.LedState(!IsBlank(clipPath), isEchoMode, state)
    ensures VisualState(clipPath, isEchoMode, state) == Playing <==> !IsBlank(clipPath) && state == Playing
    ensures VisualState(clipPath, isEchoMode, state) == Armed <==> IsBlank(clipPath) && isEchoMode
  {
  }

  /**
   * The hex the state's switch picks: the pad's running or active override,
   * the global armed colour of input 1 (for an input source up to 1) or of
   * input 2, each with its built-in fallback, and grey for an empty pad.
   */
  function HexFor(state: PadState, ps: PadSettings, inputSource: int, armed1: Option<string>, armed2: Option<string>): string
  {
    match state
    case Playing => if ps.uiRunningHex.Some? then ps.uiRunningHex.value else PLAYING_HEX
    case Loaded => if ps.uiActiveHex.Some? then ps.uiActiveHex.value else LOADED_HEX
    case Armed =>
      if inputSource <= 1 then (if armed1.Some? then armed1.value else ARMED_INPUT1_HEX)
      else (if armed2.Some? then armed2.value else ARMED_INPUT2_HEX)
    case Empty => EMPTY_HEX
  }

  /**
   * The colour rules: a pad override wins for Playing and Loaded, a global
   * armed colour for Armed (input 1 exactly when the LED uses the input 1
   * armed value), and nothing overrides Empty; without overrides the
   * fallbacks are the theme colours a fresh settings object starts with.
   */
  lemma HexRules(state: PadState, ps: PadSettings, inputSource: int, armed1: Option<string>, armed2: Option<string>, v1: int, v2: int)
    ensures state == Playing ==> HexFor(state, ps, inputSource, armed1, armed2) == (if ps.uiRunningHex.Some? then ps.uiRunningHex.value else PLAYING_HEX)
    ensures state == Loaded ==> HexFor(state, ps, inputSource, armed1, armed2) == (if ps.uiActiveHex.Some? then ps.uiActiveHex.value else LOADED_HEX)
    ensures state == Empty ==> HexFor(state, ps, inputSource, armed1, armed2) == EMPTY_HEX
    ensures state == Armed && v1 != v2 && MidiLed.SelectedValue(ps, Armed, inputSource, v1, v2) == v1 ==>
      HexFor(state, ps, inputSource, armed1, armed2) == (if armed1.Some? then armed1.value else ARMED_INPUT1_HEX)
    ensures state == Armed && v1 != v2 && MidiLed.SelectedValue(ps, Armed, inputSource, v1, v2) == v2 ==>
      HexFor(state, ps, inputSource, armed1, armed2) == (if armed2.Some? then armed2.value else ARMED_INPUT2_HEX)
    ensures state != Armed ==> HexFor(state, ps, inputSource, armed1, armed2) == HexFor(state, ps, 1, None, None)
    ensures state == Armed ==> HexFor(state, ps, inputSource, armed1, armed2) == HexFor(state, CreateDefault(ps.index), inputSource, armed1, armed2)
  {
  }

  // ------------------------------------------------------------------ colour parsing

  predicate AllHex(s: string)
  {
    forall i :: 0 <= i < |s| ==> IsHexDigit(s[i])
  }

  /** One hex digit doubled, as in the short forms "#RGB" and "#ARGB". */
  function Doubled(c: char): (v: Byte)
    requires IsHexDigit(c)
  {
    17 * HexDigitValue(c)
  }

  function Pair(hi: char, lo: char): (v: Byte)
    requires IsHexDigit(hi) && IsHexDigit(lo)
  {
    16 * HexDigitValue(hi) + HexDigitValue(lo)
  }

  /**
   * ColorConverter.ConvertFromString on the '#' forms: after trimming, '#'
   * and 3, 4, 6 or 8 hex digits (RGB, ARGB, RRGGBB, AARRGGBB; a missing
   * alpha is opaque). Anything else fails, which the converter turns into
   * a transparent brush.
   */
  function ParseColor(s: string): (r: Option<Color>)
    ensures r.Some? ==> |Trim(s)| in {4, 5, 7, 9} && Trim(s)[0] == '#'
  {
    var t := Trim(s);
    if |t| == 0 || t[0] != '#' || !AllHex(t[1..]) then None
    else
      var h := t[1..];
      if |h| == 3 then Some(Color(255, Doubled(h[0]), Doubled(h[1]), Doubled(h[2])))
      else if |h| == 4 then Some(Color(Doubled(h[0]), Doubled(h[1]), Doubled(h[2]), Doubled(h[3])))
      else if |h| == 6 then Some(Color(255, Pair(h[0], h[1]), Pair(h[2], h[3]), Pair(h[4], h[5])))
      else if |h| == 8 then Some(Color(Pair(h[0], h[1]), Pair(h[2], h[3]), Pair(h[4], h[5]), Pair(h[6], h[7])))
      else None
  }

  /** "#RRGGBB" in upper-case hex: the form the pad editor stores. */
  function RgbHex(c: Color): string
  {
    "#" + HexByte(c.r) + HexByte(c.g) + HexByte(c.b)
  }

  /** Every six-digit colour parses back to the opaque colour it spells. */
  lemma RgbHexRoundTrip(c: Color)
    ensures ParseColor(RgbHex(c)) == Some(c.(a := 255))
  {
    var s := RgbHex(c);
    assert !IsWhiteSpace(s[0]) && !IsWhiteSpace(s[6]);
    TrimNothing(s, WhiteSpace);
    var h := s[1..];
    assert h == HexByte(c.r) + HexByte(c.g) + HexByte(c.b);
    assert AllHex(h);
  }

  /** The colours the pad editor stores ("#" and six upper-case hex digits) always parse, and opaque. */
  lemma CanonicalColorParses(s: string)
    requires PadSettingsVm.IsCanonicalColor(s)
    ensures ParseColor(s).Some? && ParseColor(s).value.a == 255
  {
    assert !IsWhiteSpace(s[0]) && !IsWhiteSpace(s[6]);
    TrimNothing(s, WhiteSpace);
    assert AllHex(s[1..]) by {
      forall i | 0 <= i < 6 ensures IsHexDigit(s[1..][i]) {
        assert PadSettingsVm.IsUpperHexDigit(s[i + 1]);
      }
    }
  }

  /** A seven-character '#' colour whose six digits are upper-case hex is canonical. */
  lemma SpelledCanonical(s: string)
    requires |s| == 7 && s[0] == '#'
    requires PadSettingsVm.IsUpperHexDigit(s[1]) && PadSettingsVm.IsUpperHexDigit(s[2]) && PadSettingsVm.IsUpperHexDigit(s[3])
    requires PadSettingsVm.IsUpperHexDigit(s[4]) && PadSettingsVm.IsUpperHexDigit(s[5]) && PadSettingsVm.IsUpperHexDigit(s[6])
    ensures PadSettingsVm.IsCanonicalColor(s)
  {
  }

  /** Every built-in fallback colour is in the pad editor's normal form. */
  lemma FallbacksCanonical()
    ensures PadSettingsVm.IsCanonicalColor(PLAYING_HEX) && PadSettingsVm.IsCanonicalColor(LOADED_HEX)
    ensures PadSettingsVm.IsCanonicalColor(EMPTY_HEX)
    ensures PadSettingsVm.IsCanonicalColor(ARMED_INPUT1_HEX) && PadSettingsVm.IsCanonicalColor(ARMED_INPUT2_HEX)
  {
    SpelledCanonical(PLAYING_HEX);
    SpelledCanonical(LOADED_HEX);
    SpelledCanonical(EMPTY_HEX);
    SpelledCanonical(ARMED_INPUT1_HEX);
    SpelledCanonical(ARMED_INPUT2_HEX);
  }

  // ------------------------------------------------------------------ brushes

  /** MakeGlowBrush's lift: opaque, each of red, green and blue raised by 30 and capped at 255. */
  function Glow(c: Color): (g: Color)
  {
    Color(255, Min(255, c.r + 30), Min(255, c.g + 30), Min(255, c.b + 30))
  }

  /**
   * The glow is opaque, never darker in any component, 30 brighter where
   * there is room and white-capped where there is not; a second lift only
   * moves components still below 255.
   */
  lemma GlowFacts(c: Color)
    ensures Glow(c).a == 255
    ensures Glow(c).r >= c.r && Glow(c).g >= c.g && Glow(c).b >= c.b
    ensures c.r <= 225 ==> Glow(c).r == c.r + 30
    ensures Glow(c).r == 255 <==> c.r >= 225
    ensures Glow(c).g == 255 <==> c.g >= 225
    ensures Glow(c).b == 255 <==> c.b >= 225
    ensures Glow(Glow(c)) == Glow(c) <==> c.r >= 225 && c.g >= 225 && c.b >= 225
  {
  }

  /** BrushFromHex, MakeGlowBrush and MakeTintedSurface: a colour that does not parse gives a transparent brush. */
  function BrushOf(hex: string, mode: Mode): (b: Brush)
    ensures ParseColor(hex).None? <==> b == Transparent
  {
    match ParseColor(hex)
    case None => Transparent
    case Some(c) =>
      match mode
      case BorderMode => Solid(c)
      case GlowMode => Solid(Glow(c))
      case BackgroundMode => Tinted(c)
  }

  /** The brush for decoded inputs, given the pad's settings entry. */
  function Visual(d: Inputs, ps: PadSettings, armed1: Option<string>, armed2: Option<string>, mode: Mode): Brush
  {
    BrushOf(HexFor(VisualState(d.clipPath, d.isEchoMode, d.state), ps, d.inputSource, armed1, armed2), mode)
  }

  predicate NoneOrCanonical(hex: Option<string>)
  {
    hex.Some? ==> PadSettingsVm.IsCanonicalColor(hex.value)
  }

  /**
   * When every colour override is absent or in the pad editor's normal
   * form, every pad is painted in every mode and state: a transparent brush
   * then only ever comes from a type test failing.
   */
  lemma EditorColorsPaint(d: Inputs, ps: PadSettings, armed1: Option<string>, armed2: Option<string>, mode: Mode)
    requires NoneOrCanonical(ps.uiActiveHex) && NoneOrCanonical(ps.uiRunningHex)
    requires NoneOrCanonical(armed1) && NoneOrCanonical(armed2)
    ensures Visual(d, ps, armed1, armed2, mode) != Transparent
  {
    var hex := HexFor(VisualState(d.clipPath, d.isEchoMode, d.state), ps, d.inputSource, armed1, armed2);
    HexForCanonical(VisualState(d.clipPath, d.isEchoMode, d.state), ps, d.inputSource, armed1, armed2);
    CanonicalColorParses(hex);
  }

  /** With overrides absent or canonical, the chosen hex is canonical. */
  lemma HexForCanonical(state: PadState, ps: PadSettings, inputSource: int, armed1: Option<string>, armed2: Option<string>)
    requires NoneOrCanonical(ps.uiActiveHex) && NoneOrCanonical(ps.uiRunningHex)
    requires NoneOrCanonical(armed1) && NoneOrCanonical(armed2)
    ensures PadSettingsVm.IsCanonicalColor(HexFor(state, ps, inputSource, armed1, armed2))
  {
    FallbacksCanonical();
  }

  /**
   * Convert: the type tests, then the pad's settings entry (created when
   * missing, the converter's one side effect), the visual state, the hex and
   * the brush for the mode. Nothing but the settings' pad dictionary changes.
   */
  method Convert(values: Option<seq<Arg>>, parameter: Arg) returns (brush: Brush)
    modifies Touched(values)
    ensures Decoded(values).None? ==> brush == Transparent
    ensures Decoded(values).Some? ==> var d := Decoded(values).value;
      && d.gs.pads == WithPad(old(d.gs.pads), d.padIndex)
      && d.gs.uiArmedInput1Hex == old(d.gs.uiArmedInput1Hex) && d.gs.uiArmedInput2Hex == old(d.gs.uiArmedInput2Hex)
      && brush == Visual(d, PadOrDefault(old(d.gs.pads), d.padIndex), old(d.gs.uiArmedInput1Hex),
                         old(d.gs.uiArmedInput2Hex), ModeOf(parameter))
  {
    var decoded := Decoded(values);
    if decoded.None? {
      return Transparent;
    }
    var d := decoded.value;
    var mode := ModeOf(parameter);
    var ps := d.gs.GetOrCreatePad(d.padIndex);
    var state := VisualState(d.clipPath, d.isEchoMode, d.state);
    var hex := HexFor(state, ps, d.inputSource, d.gs.uiArmedInput1Hex, d.gs.uiArmedInput2Hex);
    brush := BrushOf(hex, mode);
  }
}
