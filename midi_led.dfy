// MIDI LED feedback: which value a pad's LED gets for its state, the raw
// hex override with its placeholders, the three-byte short messages of the
// MIDI 1.0 channel voice messages (Note On 0x9n, Control Change 0xBn), and
// the hex-byte text the raw path parses and the learn path builds.
module MidiLed {
  import opened Base
  import opened Text
  import opened Settings
  import opened PadModels
  import opened MidiBinds
  import MainWindowRules

  // ------------------------------------------------------------------ messages

  /** What one LED update hands to the MIDI output: nothing, a packed short message, or a byte buffer. */
  datatype LedMessage = NoMessage | Short(msg: int) | Buffer(bytes: seq<Byte>)

  const NOTE_ON_STATUS: int := 0x90
  const CONTROL_CHANGE_STATUS: int := 0xB0

  /** `x & 0x7F` on a two's-complement int: the low seven bits, so also for negative x. */
  function Mask7(x: int): (r: int)
    ensures 0 <= r < 128
    ensures 0 <= x < 128 ==> r == x
  {
    x % 128
  }

  /** `status | d1 << 8 | d2 << 16` for a status byte and two 7-bit data bytes (the bit ranges are disjoint). */
  function Pack(status: Byte, d1: Byte, d2: Byte): int
  {
    status + 256 * d1 + 65536 * d2
  }

  /** The status byte of SendCc/SendNoteOn: the message's high nibble and the clamped channel's number 0..15. */
  function StatusFor(base: int, channel: int): (r: Byte)
    requires base == NOTE_ON_STATUS || base == CONTROL_CHANGE_STATUS
    ensures r / 16 == base / 16 && r % 16 == Clamp(channel, 1, 16) - 1
  {
    base + (Clamp(channel, 1, 16) - 1)
  }

  /** The bytes of the low 24 bits of a short message, lowest first: `raw & 0xFF`, `(raw >> 8) & 0xFF`, `(raw >> 16) & 0xFF`. */
  function ShortBytes(raw: int): (r: seq<Byte>)
    ensures |r| == 3
  {
    [raw % 256, (raw / 256) % 256, (raw / 65536) % 256]
  }

  /** The bytes of a packed message are the status and the two data bytes. */
  lemma PackBytes(status: Byte, d1: Byte, d2: Byte)
    ensures ShortBytes(Pack(status, d1, d2)) == [status, d1, d2]
    ensures 0 <= Pack(status, d1, d2) < 0x1000000
  {
    var m := Pack(status, d1, d2);
    assert m / 256 == d1 + 256 * d2;
    assert m / 65536 == d2;
  }

  /** Packing the three bytes of the low 24 bits of any message gives those 24 bits back. */
  lemma ShortBytesPack(raw: int)
    ensures var b := ShortBytes(raw); Pack(b[0], b[1], b[2]) == raw % 0x1000000
  {
    var q := raw / 256;
    assert raw == 256 * q + raw % 256;
    assert q == 256 * (q / 256) + q % 256;
    assert raw / 65536 == q / 256;
    assert raw == 65536 * (raw / 65536) + 256 * (q % 256) + raw % 256;
    assert raw % 0x1000000 == 65536 * ((raw / 65536) % 256) + 256 * (q % 256) + raw % 256;
  }

  /** SendCc: Control Change on the clamped channel with 7-bit controller and value. */
  function SendCc(channel: int, cc: int, val: int): int
  {
    Pack(StatusFor(CONTROL_CHANGE_STATUS, channel), Mask7(cc), Mask7(val))
  }

  /** SendNoteOn: Note On on the clamped channel with 7-bit note and velocity. */
  function SendNoteOn(channel: int, note: int, vel: int): int
  {
    Pack(StatusFor(NOTE_ON_STATUS, channel), Mask7(note), Mask7(vel))
  }

  /** The normal send path after SEND_OLD: CC and Note binds send a short message, anything else nothing. */
  function SendOld(bind: MidiBind, value: int): LedMessage
  {
    if bind.kind == Cc then Short(SendCc(bind.channel, bind.number, value))
    else if bind.kind == Note then Short(SendNoteOn(bind.channel, bind.number, value))
    else NoMessage
  }

  /**
   * Every message of the normal path is a MIDI 1.0 channel voice message:
   * status 0xBn for CC and 0x9n for Note with n the channel clamped to
   * 1..16 less one, then the number and the value, each cut to seven bits.
   * PC binds send nothing.
   */
  lemma SendOldMessage(bind: MidiBind, value: int)
    ensures SendOld(bind, value).Short? <==> bind.kind == Cc || bind.kind == Note
    ensures SendOld(bind, value).Short? ==>
      var b := ShortBytes(SendOld(bind, value).msg);
      && b[0] / 16 == (if bind.kind == Cc then 0xB else 0x9)
      && b[0] % 16 == Clamp(bind.channel, 1, 16) - 1
      && b[1] == Mask7(bind.number) && b[2] == Mask7(value)
      && 0 <= SendOld(bind, value).msg < 0x1000000
  {
    var base := if bind.kind == Cc then CONTROL_CHANGE_STATUS else NOTE_ON_STATUS;
    if bind.kind == Cc || bind.kind == Note {
      PackBytes(StatusFor(base, bind.channel), Mask7(bind.number), Mask7(value));
    }
  }

  // ------------------------------------------------------------------ hex bytes

  /** The separators TryParseHexBytes splits on, after commas became spaces. */
  const HEX_SEPARATORS: set<char> := {' ', '\t', '\r', '\n'}

  /** A leading "0x" in either case: the ordinal-ignore-case prefix test, written out character by character. */
  predicate HasHexPrefix(p: string)
  {
    |p| >= 2 && p[0] == '0' && (p[1] == 'x' || p[1] == 'X')
  }

  /** HasHexPrefix is StartsWith("0x") ignoring case. */
  lemma HexPrefixIgnoresCase(p: string)
    ensures HasHexPrefix(p) <==> StartsWithIgnoreCase(p, "0x")
  {
    if |p| >= 2 {
      assert ToUpper(p[..2])[0] == UpperChar(p[0]) && ToUpper(p[..2])[1] == UpperChar(p[1]);
      assert ToUpper("0x") == "0X";
      if HasHexPrefix(p) {
        assert ToUpper(p[..2]) == "0X";
      }
    }
  }

  /** One token: trimmed, an optional case-insensitive "0x" dropped, then byte.TryParse with HexNumber. */
  function TokenByte(token: string): Option<Byte>
  {
    var p := Trim(token);
    var q := if HasHexPrefix(p) then p[2..] else p;
    TryParseHexByte(q)
  }

  function HexTokens(text: string): seq<string>
  {
    NonEmpty(Split(Trim(Replace(text, ",", " ")), HEX_SEPARATORS))
  }

  /** Each token read by `parse`: TokenByte, or None where a token is not one hex byte. */
  function TokenResults(parts: seq<string>, parse: string -> Option<Byte>): (r: seq<Option<Byte>>)
    ensures |r| == |parts| && forall k :: 0 <= k < |parts| ==> r[k] == parse(parts[k])
  {
    seq(|parts|, k requires 0 <= k < |parts| => parse(parts[k]))
  }

  /** All of the results' bytes, or None when there are none or any is missing. */
  function Collect(rs: seq<Option<Byte>>): (r: Option<seq<Byte>>)
    ensures r.Some? ==> |r.value| == |rs| > 0
  {
    if |rs| == 0 || !(forall k :: 0 <= k < |rs| ==> rs[k].Some?) then None
    else Some(seq(|rs|, k requires 0 <= k < |rs| => rs[k].value))
  }

  /** The bytes of the tokens: None when there are none or any token is not one hex byte. */
  function TokensBytes(parts: seq<string>): (r: Option<seq<Byte>>)
    ensures r.Some? ==> |r.value| == |parts| > 0
  {
    Collect(TokenResults(parts, TokenByte))
  }

  /** TryParseHexBytes: None for blank text, no tokens or any token that is not one hex byte. */
  function HexBytesOf(text: Option<string>): (r: Option<seq<Byte>>)
    ensures r.Some? ==> |r.value| > 0
  {
    if IsBlank(text) then None else TokensBytes(HexTokens(text.value))
  }

  /** TryParseHexBytes: the blank check, the split, then the token loop. */
  method TryParseHexBytes(text: Option<string>) returns (ok: bool, bytes: seq<Byte>)
    ensures ok == HexBytesOf(text).Some?
    ensures bytes == if ok then HexBytesOf(text).value else []
  {
    if IsBlank(text) {
      return false, [];
    }
    var parts := HexTokens(text.value);
    if |parts| == 0 {
      return false, [];
    }
    ok, bytes := ParseTokens(parts, TokenByte);
  }

  /**
   * The loop of TryParseHexBytes, filling `tmp` token by token and failing
   * at the first token `parse` rejects; TryParseHexBytes passes TokenByte.
   */
  method ParseTokens(parts: seq<string>, parse: string -> Option<Byte>) returns (ok: bool, bytes: seq<Byte>)
    requires |parts| > 0
    ensures ok == Collect(TokenResults(parts, parse)).Some?
    ensures bytes == if ok then Collect(TokenResults(parts, parse)).value else []
  {
    ghost var rs := TokenResults(parts, parse);
    var tmp := new Byte[|parts|];
    var i := 0;
    while i < |parts|
      invariant 0 <= i <= |parts|
      invariant forall k :: 0 <= k < i ==> rs[k].Some? && tmp[k] == rs[k].value
    {
      var b := parse(parts[i]);
      if b.None? {
        CollectMissing(rs, i);
        return false, [];
      }
      tmp[i] := b.value;
      i := i + 1;
    }
    bytes := tmp[..];
    CollectAll(rs, bytes);
    ok := true;
  }

  lemma CollectMissing(rs: seq<Option<Byte>>, i: int)
    requires 0 <= i < |rs| && rs[i].None?
    ensures Collect(rs) == None
  {
  }

  lemma CollectAll(rs: seq<Option<Byte>>, a: seq<Byte>)
    requires |rs| == |a| > 0
    requires forall k :: 0 <= k < |a| ==> rs[k].Some? && a[k] == rs[k].value
    ensures Collect(rs) == Some(a)
  {
    assert seq(|rs|, k requires 0 <= k < |rs| => rs[k].value) == a;
  }

  /** SendRawHex: nothing when the text does not parse, three bytes as one short message, other lengths as a buffer. */
  function SendRawHex(hex: string): LedMessage
  {
    var bytes := HexBytesOf(Some(hex));
    if bytes.None? then NoMessage
    else if |bytes.value| == 3 then Short(Pack(bytes.value[0], bytes.value[1], bytes.value[2]))
    else Buffer(bytes.value)
  }

  /** BuildRawHexFromMidiEvent, from the event's short message: its low three bytes as "XX XX XX". */
  function BuildRawHexFromMidiEvent(raw: int): string
  {
    var b := ShortBytes(raw);
    HexByte(b[0]) + " " + HexByte(b[1]) + " " + HexByte(b[2])
  }

  /** A hex byte as the raw path reads it: one token, not mistaken for a "0x" prefix. */
  lemma HexByteToken(b: Byte)
    ensures var s := HexByte(b);
      && (forall i :: 0 <= i < |s| ==> s[i] !in HEX_SEPARATORS && s[i] != ',' && !IsWhiteSpace(s[i]))
      && TokenByte(s) == Some(b)
  {
    var s := HexByte(b);
    TrimNothing(s, WhiteSpace);
    assert !HasHexPrefix(s);
    HexByteRoundTrip(b);
  }

  /** "XX XX XX" holds exactly the three tokens. */
  lemma ThreeTokens(a: string, b: string, c: string)
    requires |a| > 0 && |b| > 0 && |c| > 0
    requires forall i :: 0 <= i < |a| ==> a[i] !in HEX_SEPARATORS
    requires forall i :: 0 <= i < |b| ==> b[i] !in HEX_SEPARATORS
    requires forall i :: 0 <= i < |c| ==> c[i] !in HEX_SEPARATORS
    ensures NonEmpty(Split(a + " " + b + " " + c, HEX_SEPARATORS)) == [a, b, c]
  {
    SplitThree(a, ' ', b, c, HEX_SEPARATORS);
    assert NonEmpty([c]) == [c];
    assert NonEmpty([b, c]) == [b] + NonEmpty([c]);
    assert NonEmpty([a, b, c]) == [a] + NonEmpty([b, c]);
  }

  /** A two-character token with none of the characters the raw path splits or trims on. */
  predicate PlainPair(s: string)
  {
    |s| == 2 && forall i :: 0 <= i < 2 ==> s[i] !in HEX_SEPARATORS && s[i] != ',' && !IsWhiteSpace(s[i])
  }

  /** Three such tokens joined by spaces have no comma and no white space at either end, so they split back apart. */
  lemma PlainTripleTokens(s0: string, s1: string, s2: string)
    requires PlainPair(s0) && PlainPair(s1) && PlainPair(s2)
    ensures var text := s0 + " " + s1 + " " + s2;
      !IsBlank(Some(text)) && HexTokens(text) == [s0, s1, s2]
  {
    var text := s0 + " " + s1 + " " + s2;
    assert |text| == 8;
    assert ',' !in text by {
      forall i | 0 <= i < |text| ensures text[i] != ',' {
        if i < 2 { assert text[i] == s0[i]; }
        else if 3 <= i < 5 { assert text[i] == s1[i - 3]; }
        else if 6 <= i { assert text[i] == s2[i - 6]; }
      }
    }
    ReplaceAbsent(text, ',', " ");
    assert text[0] == s0[0] && text[|text| - 1] == s2[1];
    TrimNothing(text, WhiteSpace);
    assert !AllWhiteSpace(text) by {
      assert !IsWhiteSpace(text[0]);
    }
    ThreeTokens(s0, s1, s2);
  }

  /** Three tokens' bytes are collected from their three results. */
  lemma TokensBytesThree(s0: string, s1: string, s2: string)
    ensures TokensBytes([s0, s1, s2]) == Collect([TokenByte(s0), TokenByte(s1), TokenByte(s2)])
  {
    TokenResultsThree(s0, s1, s2);
  }

  /** Three tokens' results are the three tokens' bytes, in order. */
  lemma TokenResultsThree(s0: string, s1: string, s2: string)
    ensures TokenResults([s0, s1, s2], TokenByte) == [TokenByte(s0), TokenByte(s1), TokenByte(s2)]
  {
  }

  lemma CollectThree(rs: seq<Option<Byte>>, b0: Byte, b1: Byte, b2: Byte)
    requires rs == [Some(b0), Some(b1), Some(b2)]
    ensures Collect(rs) == Some([b0, b1, b2])
  {
    CollectAll(rs, [b0, b1, b2]);
  }

  /** Three hex bytes separated by spaces parse back to those three bytes. */
  lemma HexTripleParses(b0: Byte, b1: Byte, b2: Byte)
    ensures HexBytesOf(Some(HexByte(b0) + " " + HexByte(b1) + " " + HexByte(b2))) == Some([b0, b1, b2])
  {
    var s0, s1, s2 := HexByte(b0), HexByte(b1), HexByte(b2);
    HexByteToken(b0);
    HexByteToken(b1);
    HexByteToken(b2);
    PlainTripleTokens(s0, s1, s2);
    TripleBytes(s0, s1, s2, b0, b1, b2);
  }

  /** Three tokens that each read as one byte give those three bytes. */
  lemma TripleBytes(s0: string, s1: string, s2: string, b0: Byte, b1: Byte, b2: Byte)
    requires TokenByte(s0) == Some(b0) && TokenByte(s1) == Some(b1) && TokenByte(s2) == Some(b2)
    ensures TokensBytes([s0, s1, s2]) == Some([b0, b1, b2])
  {
    TokensBytesThree(s0, s1, s2);
    var rs := [TokenByte(s0), TokenByte(s1), TokenByte(s2)];
    assert rs == [Some(b0), Some(b1), Some(b2)];
    CollectThree(rs, b0, b1, b2);
  }

  /**
   * The text BuildRawHexFromMidiEvent builds parses back to the message's
   * three low bytes, so sent as a raw override it is that same short message.
   */
  lemma RawHexRoundTrip(raw: int)
    ensures HexBytesOf(Some(BuildRawHexFromMidiEvent(raw))) == Some(ShortBytes(raw))
    ensures SendRawHex(BuildRawHexFromMidiEvent(raw)) == Short(raw % 0x1000000)
  {
    var b := ShortBytes(raw);
    HexTripleParses(b[0], b[1], b[2]);
    assert [b[0], b[1], b[2]] == b;
    ShortBytesPack(raw);
  }

  // ------------------------------------------------------------------ LED state and value

  /** The LED state UpdatePadLedForCurrentState derives: from the clip's presence, the echo flag and whether it plays. */
  function LedState(hasFile: bool, isEchoMode: bool, state: PadState): (r: PadState)
    ensures r == Playing <==> hasFile && state == Playing
    ensures r == Loaded <==> hasFile && state != Playing
    ensures r == Armed <==> !hasFile && isEchoMode
    ensures r == Empty <==> !hasFile && !isEchoMode
  {
    if !hasFile then (if isEchoMode then Armed else Empty)
    else if state == Playing then Playing else Loaded
  }

  /** The value SendPadLed's switch selects; negative means nothing is sent. */
  function SelectedValue(ps: PadSettings, state: PadState, inputSource: int, armed1: int, armed2: int): int
  {
    if state == Loaded && ps.midiLedActiveEnabled then ps.midiLedActiveValue
    else if state == Playing && ps.midiLedRunningEnabled then ps.midiLedRunningValue
    else if state == Armed then (if inputSource <= 1 then armed1 else armed2)
    else if ps.midiLedClearEnabled then ps.midiLedClearValue
    else -1
  }

  /** The raw override SendPadLed consults for a state. */
  function RawFor(ps: PadSettings, state: PadState): Option<string>
  {
    match state
    case Loaded => ps.midiLedActiveRaw
    case Playing => ps.midiLedRunningRaw
    case Armed => ps.midiLedArmedRaw
    case Empty => ps.midiLedClearRaw
  }

  /** The raw text with {STATUS}, {DATA1} and {VAL} replaced, in that order, by two upper-case hex digits. */
  function Expanded(raw: string, bind: MidiBind, value: int): string
  {
    var status := if bind.kind == Cc then StatusFor(CONTROL_CHANGE_STATUS, bind.channel) else StatusFor(NOTE_ON_STATUS, bind.channel);
    Replace(Replace(Replace(raw, "{STATUS}", HexByte(status)), "{DATA1}", HexByte(Mask7(bind.number))), "{VAL}", HexByte(Mask7(value)))
  }

  /** SendPadLed: the selected value clamped to 0..127, then the state's raw override if it is not blank, else the normal path. */
  function SendPadLed(ps: PadSettings, bind: MidiBind, state: PadState, inputSource: int, armed1: int, armed2: int): LedMessage
  {
    var selected := SelectedValue(ps, state, inputSource, armed1, armed2);
    if selected < 0 then NoMessage
    else
      var value := Clamp(selected, 0, 127);
      var raw := RawFor(ps, state);
      if IsBlank(raw) then SendOld(bind, value)
      else
        var numeric := TryParseInt32(raw.value);
        if numeric.Some? then SendOld(bind, Clamp(numeric.value, 0, 127))
        else SendRawHex(Expanded(raw.value, bind, value))
  }

  /**
   * The LED value rules: Loaded and Playing use their own value when it is
   * enabled; Armed always uses the armed value of the pad's input (input 1
   * for InputSource <= 1); any other case falls back to the clear value when
   * enabled and otherwise nothing is sent, as happens for any negative
   * value. Without a raw override, the value sent is the clamped selection.
   */
  lemma LedValueRules(ps: PadSettings, bind: MidiBind, state: PadState, inputSource: int, armed1: int, armed2: int)
    ensures var v := SelectedValue(ps, state, inputSource, armed1, armed2);
      && (state == Armed ==> v == (if inputSource <= 1 then armed1 else armed2))
      && (state == Loaded && ps.midiLedActiveEnabled ==> v == ps.midiLedActiveValue)
      && (state == Playing && ps.midiLedRunningEnabled ==> v == ps.midiLedRunningValue)
      && (state == Empty ==> v == (if ps.midiLedClearEnabled then ps.midiLedClearValue else -1))
      && (state == Loaded && !ps.midiLedActiveEnabled ==> v == (if ps.midiLedClearEnabled then ps.midiLedClearValue else -1))
      && (state == Playing && !ps.midiLedRunningEnabled ==> v == (if ps.midiLedClearEnabled then ps.midiLedClearValue else -1))
    ensures var v := SelectedValue(ps, state, inputSource, armed1, armed2);
      && (v < 0 ==> SendPadLed(ps, bind, state, inputSource, armed1, armed2) == NoMessage)
      && (v >= 0 && IsBlank(RawFor(ps, state)) ==>
            SendPadLed(ps, bind, state, inputSource, armed1, armed2) == SendOld(bind, Clamp(v, 0, 127)))
  {
  }

  // ------------------------------------------------------------------ placeholder expansion

  /** Replacing a pattern that occurs exactly once, right after text without its first character. */
  lemma ReplaceOnce(x: string, pat: string, rep: string, y: string)
    requires |pat| > 0 && pat[0] !in x
    requires Replace(y, pat, rep) == y
    ensures Replace(x + (pat + y), pat, rep) == x + (rep + y)
  {
    ReplaceKeep(x, pat + y, pat, rep);
    ReplaceHead(pat, y, rep);
  }

  /** Such text, another placeholder and an untouched tail together are untouched. */
  lemma KeepOther(x: string, q: string, y: string, pat: string, rep: string)
    requires |q| >= 2 && |pat| >= 2 && q[0] == pat[0] && q[1] != pat[1] && pat[0] !in q[1..]
    requires pat[0] !in x
    requires Replace(y, pat, rep) == y
    ensures Replace(x + (q + y), pat, rep) == x + (q + y)
  {
    ReplaceKeep(x, q + y, pat, rep);
    ReplaceOther(q, y, pat, rep);
  }

  /** Text without the pattern's first character is untouched. */
  lemma KeepPlain(d: string, pat: string, rep: string)
    requires |pat| > 0 && pat[0] !in d
    ensures Replace(d, pat, rep) == d
  {
    assert d + [] == d;
    ReplaceKeep(d, [], pat, rep);
  }

  /** The text of a raw override around its three placeholders, each part free of braces. */
  function Template(a: string, b: string, c: string, d: string): string
  {
    a + ("{STATUS}" + (b + ("{DATA1}" + (c + ("{VAL}" + d)))))
  }

  /**
   * The placeholders of a raw override: in a text whose other parts hold no
   * brace, {STATUS}, {DATA1} and {VAL} are each replaced by two upper-case hex
   * digits, the status byte for the bind's kind and channel, the 7-bit number
   * and the 7-bit value, and everything else is kept in place.
   */
  lemma ExpandPlaceholders(a: string, b: string, c: string, d: string, bind: MidiBind, value: int)
    requires '{' !in a && '{' !in b && '{' !in c && '{' !in d
    ensures var status := if bind.kind == Cc then StatusFor(CONTROL_CHANGE_STATUS, bind.channel) else StatusFor(NOTE_ON_STATUS, bind.channel);
      Expanded(Template(a, b, c, d), bind, value)
        == a + (HexByte(status) + (b + (HexByte(Mask7(bind.number)) + (c + (HexByte(Mask7(value)) + d)))))
  {
    var status := if bind.kind == Cc then StatusFor(CONTROL_CHANGE_STATUS, bind.channel) else StatusFor(NOTE_ON_STATUS, bind.channel);
    var h0, h1, h2 := HexByte(status), HexByte(Mask7(bind.number)), HexByte(Mask7(value));
    HexDigitsNoBrace(h0);
    HexDigitsNoBrace(h1);
    HexDigitsNoBrace(h2);
    ExpandPieces(a, b, c, d, h0, h1, h2);
  }

  /** The three passes of Expanded over brace-free parts and brace-free replacements. */
  lemma ExpandPieces(a: string, b: string, c: string, d: string, h0: string, h1: string, h2: string)
    requires '{' !in a && '{' !in b && '{' !in c && '{' !in d
    requires '{' !in h0 && '{' !in h1 && '{' !in h2
    ensures Replace(Replace(Replace(Template(a, b, c, d), "{STATUS}", h0), "{DATA1}", h1), "{VAL}", h2)
      == a + (h0 + (b + (h1 + (c + (h2 + d)))))
  {
    PassFirst(a, b, c, d, h0, "{STATUS}", "{DATA1}", "{VAL}");
    PassSecond(a, h0, b, c, d, h1, "{DATA1}", "{VAL}");
    PassThird(a, h0, b, h1, c, d, h2, "{VAL}");
  }

  /** The {STATUS} pass: only the one occurrence of `p0` changes. */
  lemma PassFirst(a: string, b: string, c: string, d: string, h0: string, p0: string, p1: string, p2: string)
    requires |p0| >= 2 && |p1| >= 2 && |p2| >= 2
    requires p1[0] == p0[0] && p1[1] != p0[1] && p0[0] !in p1[1..]
    requires p2[0] == p0[0] && p2[1] != p0[1] && p0[0] !in p2[1..]
    requires p0[0] !in a && p0[0] !in b && p0[0] !in c && p0[0] !in d
    ensures Replace(a + (p0 + (b + (p1 + (c + (p2 + d))))), p0, h0) == a + (h0 + (b + (p1 + (c + (p2 + d)))))
  {
    KeepPlain(d, p0, h0);
    KeepOther(c, p2, d, p0, h0);
    KeepOther(b, p1, c + (p2 + d), p0, h0);
    ReplaceOnce(a, p0, h0, b + (p1 + (c + (p2 + d))));
  }

  /** The {DATA1} pass: the replaced status digits hold no brace, so only `p1` changes. */
  lemma PassSecond(a: string, h0: string, b: string, c: string, d: string, h1: string, p1: string, p2: string)
    requires |p1| >= 2 && |p2| >= 2
    requires p2[0] == p1[0] && p2[1] != p1[1] && p1[0] !in p2[1..]
    requires p1[0] !in a && p1[0] !in h0 && p1[0] !in b && p1[0] !in c && p1[0] !in d
    ensures Replace(a + (h0 + (b + (p1 + (c + (p2 + d))))), p1, h1) == a + (h0 + (b + (h1 + (c + (p2 + d)))))
  {
    KeepPlain(d, p1, h1);
    KeepOther(c, p2, d, p1, h1);
    ReplaceOnce(b, p1, h1, c + (p2 + d));
    ReplaceKeep(h0, b + (p1 + (c + (p2 + d))), p1, h1);
    ReplaceKeep(a, h0 + (b + (p1 + (c + (p2 + d)))), p1, h1);
  }

  /** The {VAL} pass. */
  lemma PassThird(a: string, h0: string, b: string, h1: string, c: string, d: string, h2: string, p2: string)
    requires |p2| >= 2
    requires p2[0] !in a && p2[0] !in h0 && p2[0] !in b && p2[0] !in h1 && p2[0] !in c && p2[0] !in d
    ensures Replace(a + (h0 + (b + (h1 + (c + (p2 + d))))), p2, h2) == a + (h0 + (b + (h1 + (c + (h2 + d)))))
  {
    KeepPlain(d, p2, h2);
    ReplaceOnce(c, p2, h2, d);
    ReplaceKeep(h1, c + (p2 + d), p2, h2);
    ReplaceKeep(b, h1 + (c + (p2 + d)), p2, h2);
    ReplaceKeep(h0, b + (h1 + (c + (p2 + d))), p2, h2);
    ReplaceKeep(a, h0 + (b + (h1 + (c + (p2 + d)))), p2, h2);
  }

  /** Hex digits are never braces. */
  lemma HexDigitsNoBrace(h: string)
    requires |h| == 2 && IsHexDigit(h[0]) && IsHexDigit(h[1])
    ensures '{' !in h
  {
  }

  /**
   * The raw override "{STATUS} {DATA1} {VAL}" sends, for CC and Note binds,
   * exactly the short message the normal path sends for the same value.
   */
  lemma SpacedTemplate()
    ensures "{STATUS} {DATA1} {VAL}" == Template("", " ", " ", "")
  {
  }

  lemma Regroup(h0: string, h1: string, h2: string)
    ensures "" + (h0 + (" " + (h1 + (" " + (h2 + ""))))) == h0 + " " + h1 + " " + h2
  {
  }

  lemma TemplateMatchesNormal(bind: MidiBind, value: int)
    requires bind.kind == Cc || bind.kind == Note
    ensures SendRawHex(Expanded("{STATUS} {DATA1} {VAL}", bind, value)) == SendOld(bind, value)
  {
    var status := if bind.kind == Cc then StatusFor(CONTROL_CHANGE_STATUS, bind.channel) else StatusFor(NOTE_ON_STATUS, bind.channel);
    var h0, h1, h2 := HexByte(status), HexByte(Mask7(bind.number)), HexByte(Mask7(value));
    SpacedTemplate();
    ExpandPlaceholders("", " ", " ", "", bind, value);
    Regroup(h0, h1, h2);
    HexTripleParses(status, Mask7(bind.number), Mask7(value));
    PackBytes(status, Mask7(bind.number), Mask7(value));
  }

  /** A purely numeric raw override replaces the value, clamped, and takes the normal path. */
  lemma NumericOverride(ps: PadSettings, bind: MidiBind, state: PadState, inputSource: int, armed1: int, armed2: int, n: int)
    requires SelectedValue(ps, state, inputSource, armed1, armed2) >= 0
    requires IsInt32(n) && RawFor(ps, state) == Some(IntToString(n))
    ensures SendPadLed(ps, bind, state, inputSource, armed1, armed2) == SendOld(bind, Clamp(n, 0, 127))
  {
    IntToStringRoundTrip(n);
    assert !IsBlank(Some(IntToString(n))) by {
      var s := IntToString(n);
      IntToStringShape(n);
      assert !IsWhiteSpace(s[|s| - 1]);
    }
  }

  /** UpdatePadLedForCurrentState's message once the settings entry is known. */
  function LedFor(ps: PadSettings, pad: PadValues, fileExists: string -> bool, armed1: int, armed2: int): LedMessage
  {
    if IsBlank(ps.midiTriggerDisplay) then NoMessage
    else
      var bind := TryParseMidiBind(ps.midiTriggerDisplay);
      if bind.None? then NoMessage
      else
        var hasFile := !IsBlank(pad.clipPath) && fileExists(pad.clipPath.value);
        SendPadLed(ps, bind.value, LedState(hasFile, pad.isEchoMode, pad.state), pad.inputSource, armed1, armed2)
  }

  /**
   * UpdatePadLedForCurrentState for one pad: nothing without a MIDI output;
   * otherwise the pad's settings entry is created if missing and its LED
   * message computed.
   */
  method UpdatePadLedForCurrentState(gs: GlobalSettings, pad: PadValues, hasMidiOut: bool, fileExists: string -> bool)
    returns (m: LedMessage)
    modifies gs`pads
    ensures !hasMidiOut ==> m == NoMessage && gs.pads == old(gs.pads)
    ensures hasMidiOut ==>
      && gs.pads == WithPad(old(gs.pads), pad.index)
      && m == LedFor(PadOrDefault(old(gs.pads), pad.index), pad, fileExists, gs.midiArmedInput1Value, gs.midiArmedInput2Value)
  {
    if !hasMidiOut {
      return NoMessage;
    }
    var ps := gs.GetOrCreatePad(pad.index);
    m := LedFor(ps, pad, fileExists, gs.midiArmedInput1Value, gs.midiArmedInput2Value);
  }

  /** The messages SyncAllPadLeds sends, pad by pad, from the entries before the sync. */
  function SyncMessages(m: map<int, PadSettings>, pads: seq<PadValues>, hasMidiOut: bool, fileExists: string -> bool,
                        armed1: int, armed2: int): (r: seq<LedMessage>)
    ensures |r| == |pads|
  {
    if pads == [] then []
    else
      var p := pads[|pads| - 1];
      SyncMessages(m, pads[..|pads| - 1], hasMidiOut, fileExists, armed1, armed2)
        + [if hasMidiOut then LedFor(PadOrDefault(m, p.index), p, fileExists, armed1, armed2) else NoMessage]
  }

  /** Each pad's message is the one UpdatePadLedForCurrentState computes from the entry it had before the sync. */
  lemma {:induction false} SyncMessagesAt(m: map<int, PadSettings>, pads: seq<PadValues>, hasMidiOut: bool,
                                          fileExists: string -> bool, armed1: int, armed2: int, i: int)
    requires 0 <= i < |pads|
    ensures SyncMessages(m, pads, hasMidiOut, fileExists, armed1, armed2)[i]
      == if hasMidiOut then LedFor(PadOrDefault(m, pads[i].index), pads[i], fileExists, armed1, armed2) else NoMessage
  {
    var front := pads[..|pads| - 1];
    var r0 := SyncMessages(m, front, hasMidiOut, fileExists, armed1, armed2);
    assert SyncMessages(m, pads, hasMidiOut, fileExists, armed1, armed2) == r0
      + [if hasMidiOut then LedFor(PadOrDefault(m, pads[|pads| - 1].index), pads[|pads| - 1], fileExists, armed1, armed2) else NoMessage];
    if i < |pads| - 1 {
      SyncMessagesAt(m, front, hasMidiOut, fileExists, armed1, armed2, i);
      assert front[i] == pads[i];
    }
  }

  /**
   * SyncAllPadLeds: UpdatePadLedForCurrentState for every pad in order.
   * Afterwards every pad's index has an entry, and no other entry was added
   * or changed.
   */
  method SyncAllPadLeds(gs: GlobalSettings, pads: seq<PadValues>, hasMidiOut: bool, fileExists: string -> bool)
    returns (msgs: seq<LedMessage>)
    modifies gs`pads
    ensures msgs == SyncMessages(old(gs.pads), pads, hasMidiOut, fileExists, gs.midiArmedInput1Value, gs.midiArmedInput2Value)
    ensures gs.pads.Keys == old(gs.pads).Keys + (if hasMidiOut then MainWindowRules.Indices(pads) else {})
    ensures forall k :: k in gs.pads ==> gs.pads[k] == PadOrDefault(old(gs.pads), k)
  {
    ghost var m0 := gs.pads;
    ghost var a1, a2 := gs.midiArmedInput1Value, gs.midiArmedInput2Value;
    msgs := [];
    var i := 0;
    while i < |pads|
      invariant 0 <= i <= |pads|
      invariant msgs == SyncMessages(m0, pads[..i], hasMidiOut, fileExists, a1, a2)
      invariant gs.pads.Keys == m0.Keys + (if hasMidiOut then MainWindowRules.Indices(pads[..i]) else {})
      invariant forall k :: k in gs.pads ==> gs.pads[k] == PadOrDefault(m0, k)
    {
      var m := SyncOne(gs, pads, i, hasMidiOut, fileExists, m0);
      IndicesStep(pads, i);
      SyncMessagesStep(m0, pads, hasMidiOut, fileExists, a1, a2, i);
      msgs := msgs + [m];
      i := i + 1;
    }
    assert pads[..i] == pads;
  }

  lemma SyncMessagesStep(m: map<int, PadSettings>, pads: seq<PadValues>, hasMidiOut: bool, fileExists: string -> bool,
                         armed1: int, armed2: int, i: int)
    requires 0 <= i < |pads|
    ensures SyncMessages(m, pads[..i + 1], hasMidiOut, fileExists, armed1, armed2)
      == SyncMessages(m, pads[..i], hasMidiOut, fileExists, armed1, armed2)
        + [if hasMidiOut then LedFor(PadOrDefault(m, pads[i].index), pads[i], fileExists, armed1, armed2) else NoMessage]
  {
    assert pads[..i + 1][..i] == pads[..i];
  }

  lemma IndicesStep(pads: seq<PadValues>, i: int)
    requires 0 <= i < |pads|
    ensures MainWindowRules.Indices(pads[..i + 1]) == MainWindowRules.Indices(pads[..i]) + {pads[i].index}
  {
    MainWindowRules.IndicesSnoc(pads[..i + 1]);
    assert pads[..i + 1][..i] == pads[..i];
  }

  /** One turn of SyncAllPadLeds, stated against the entries before the sync. */
  method SyncOne(gs: GlobalSettings, pads: seq<PadValues>, i: int, hasMidiOut: bool, fileExists: string -> bool,
                 ghost m0: map<int, PadSettings>) returns (m: LedMessage)
    requires 0 <= i < |pads|
    requires m0.Keys <= gs.pads.Keys && forall k :: k in gs.pads ==> gs.pads[k] == PadOrDefault(m0, k)
    modifies gs`pads
    ensures m == if hasMidiOut
      then LedFor(PadOrDefault(m0, pads[i].index), pads[i], fileExists, gs.midiArmedInput1Value, gs.midiArmedInput2Value)
      else NoMessage
    ensures gs.pads.Keys == old(gs.pads).Keys + (if hasMidiOut then {pads[i].index} else {})
    ensures forall k :: k in gs.pads ==> gs.pads[k] == PadOrDefault(m0, k)
  {
    assert PadOrDefault(gs.pads, pads[i].index) == PadOrDefault(m0, pads[i].index);
    m := UpdatePadLedForCurrentState(gs, pads[i], hasMidiOut, fileExists);
    WithPadEffect(old(gs.pads), pads[i].index);
  }

  /**
   * An LED message always carries a 7-bit value: when the normal path sends
   * for a pad, its third byte is the selected value clamped into 0..127.
   * A pad whose stored trigger is blank gets no message at all.
   */
  lemma LedForValue(ps: PadSettings, pad: PadValues, fileExists: string -> bool, armed1: int, armed2: int)
    ensures IsBlank(ps.midiTriggerDisplay) ==> LedFor(ps, pad, fileExists, armed1, armed2) == NoMessage
    ensures var bind := TryParseMidiBind(ps.midiTriggerDisplay);
      var hasFile := !IsBlank(pad.clipPath) && fileExists(pad.clipPath.value);
      var state := LedState(hasFile, pad.isEchoMode, pad.state);
      var v := SelectedValue(ps, state, pad.inputSource, armed1, armed2);
      bind.Some? && v >= 0 && IsBlank(RawFor(ps, state)) && bind.value.kind != Pc ==>
        && LedFor(ps, pad, fileExists, armed1, armed2).Short?
        && ShortBytes(LedFor(ps, pad, fileExists, armed1, armed2).msg)[2] == Clamp(v, 0, 127)
        && ShortBytes(LedFor(ps, pad, fileExists, armed1, armed2).msg)[0] % 16 == bind.value.channel - 1
  {
    var bind := TryParseMidiBind(ps.midiTriggerDisplay);
    if bind.Some? {
      var hasFile := !IsBlank(pad.clipPath) && fileExists(pad.clipPath.value);
      var state := LedState(hasFile, pad.isEchoMode, pad.state);
      var v := SelectedValue(ps, state, pad.inputSource, armed1, armed2);
      SendOldMessage(bind.value, Clamp(v, 0, 127));
    }
  }
}
