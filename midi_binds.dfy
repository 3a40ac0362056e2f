// MIDI binds as the main window stores them, "KIND:channel:number[:min]",
// and how an incoming Channel Voice Message (MIDI 1.0: Note On 0x9n,
// Control Change 0xBn, Program Change 0xCn) is tested against one.
// Channels are the human 1..16 the MIDI library reports.
module MidiBinds {
  import opened Base
  import opened Text

  /**
   * The incoming messages the window tells apart, by NAudio event class:
   * `NoteOn` is a NoteOnEvent; `PlainNote` is a NoteEvent that is not a
   * NoteOnEvent (a Note Off, a Note On of velocity 0 or key aftertouch, with
   * its status nibble 0x80, 0x90 or 0xA0 as `command`); every other message
   * is `OtherEvent`.
   */
  datatype MidiEvent =
    | NoteOn(channel: int, note: int, velocity: int)
    | PlainNote(channel: int, note: int, command: int, velocity: int)
    | ControlChange(channel: int, controller: int, value: int)
    | PatchChange(channel: int, patch: int)
    | OtherEvent

  const NOTE_OFF := 0x80
  const NOTE_ON := 0x90
  const KEY_AFTERTOUCH := 0xA0
  const CONTROL_CHANGE := 0xB0
  const PATCH_CHANGE := 0xC0

  /**
   * The event NAudio's MidiEvent.FromRawMessage makes of a short message:
   * the channel is the status's low nibble plus one; a Note On with a
   * non-zero velocity is a NoteOnEvent, while a Note Off, a Note On of
   * velocity 0 and key aftertouch are plain NoteEvents.
   */
  function EventOf(status: int, data1: int, data2: int): (ev: MidiEvent)
    requires 0 <= status < 256
    ensures !ev.OtherEvent? ==> ev.channel == status % 16 + 1 && 1 <= ev.channel <= 16
    ensures ev.NoteOn? <==> status / 16 == 9 && data2 > 0
    ensures ev.PlainNote? <==> (status / 16 == 8 || status / 16 == 10 || (status / 16 == 9 && data2 <= 0))
    ensures ev.NoteOn? ==> ev.velocity > 0
  {
    var command := status - status % 16;
    var channel := status % 16 + 1;
    if command == NOTE_ON && data2 > 0 then NoteOn(channel, data1, data2)
    else if command == NOTE_ON || command == NOTE_OFF || command == KEY_AFTERTOUCH then PlainNote(channel, data1, command, data2)
    else if command == CONTROL_CHANGE then ControlChange(channel, data1, data2)
    else if command == PATCH_CHANGE then PatchChange(channel, data1)
    else OtherEvent
  }

  datatype MidiBindKind = Unknown | Note | Cc | Pc

  /** A parsed bind: fire when the value or velocity is at least `minValue`. */
  datatype MidiBind = MidiBind(kind: MidiBindKind, channel: int, number: int, minValue: int)

  /**
   * The stored channel: 1..16 as it is, the legacy 0-based 0..15 shifted up
   * by one, anything else rejected. Since 1..15 are taken as human channels
   * first, the legacy rule only ever changes 0.
   */
  function StoredChannel(stored: int): (r: Option<int>)
    ensures r.Some? <==> 0 <= stored <= 16
    ensures r.Some? ==> 1 <= r.value <= 16
    ensures 1 <= stored <= 16 ==> r == Some(stored)
    ensures stored == 0 ==> r == Some(1)
  {
    if 1 <= stored <= 16 then Some(stored)
    else if 0 <= stored <= 15 then Some(stored + 1)
    else None
  }

  /** The optional 4th field: missing or unparsable gives 1, a value <= 0 gives 1. */
  function MinValueOf(parts: seq<string>): (m: int)
    ensures m >= 1
    ensures |parts| >= 4 && TryParseInt32(parts[3]).Some? && TryParseInt32(parts[3]).value > 0 ==> m == TryParseInt32(parts[3]).value
  {
    if |parts| >= 4 && TryParseInt32(parts[3]).Some? then
      var parsed := TryParseInt32(parts[3]).value;
      if parsed <= 0 then 1 else parsed
    else 1
  }

  /** The bind kind named by the head field, after trimming and upper-casing. */
  function KindOf(head: string): MidiBindKind
  {
    var h := ToUpper(Trim(head));
    if h == "NOTE" || h == "NOTEON" then Note
    else if h == "CC" then Cc
    else if h == "PC" then Pc
    else Unknown
  }

  /** TryParseMidiBind; `None` for the text stands for null, and a `None` result for a rejected bind. */
  function TryParseMidiBind(text: Option<string>): (r: Option<MidiBind>)
    ensures IsBlank(text) ==> r.None?
    ensures r.Some? ==> 1 <= r.value.channel <= 16 && r.value.minValue >= 1 && r.value.kind != Unknown
  {
    if IsBlank(text) then None
    else
      var parts := Split(Trim(text.value), {':'});
      if |parts| < 3 then None
      else
        var kind := KindOf(parts[0]);
        var ch := TryParseInt32(parts[1]);
        var num := TryParseInt32(parts[2]);
        if ch.None? || num.None? then None
        else
          var ch1 := StoredChannel(ch.value);
          if ch1.None? || kind == Unknown then None
          else Some(MidiBind(kind, ch1.value, num.value, MinValueOf(parts)))
  }

  /**
   * What rejects a bind: blank text, fewer than three fields, a channel or
   * number that is not an integer, a channel outside 0..16, or an unknown
   * kind. Any text that passes gets exactly those fields.
   */
  lemma ParseConditions(text: string)
    ensures var parts := Split(Trim(text), {':'});
      TryParseMidiBind(Some(text)).Some? <==>
        && !AllWhiteSpace(text)
        && |parts| >= 3
        && TryParseInt32(parts[1]).Some? && TryParseInt32(parts[2]).Some?
        && 0 <= TryParseInt32(parts[1]).value <= 16
        && KindOf(parts[0]) != Unknown
    ensures var parts := Split(Trim(text), {':'});
      TryParseMidiBind(Some(text)).Some? ==>
        TryParseMidiBind(Some(text)).value
          == MidiBind(KindOf(parts[0]), StoredChannel(TryParseInt32(parts[1]).value).value,
                      TryParseInt32(parts[2]).value, MinValueOf(parts))
  {
  }

  /** DoesEventMatchBind: same kind of message, same channel and number, and (except for PC) a value of at least MinValue. */
  predicate DoesEventMatchBind(ev: MidiEvent, bind: MidiBind)
  {
    match bind.kind
    case Note => ev.NoteOn? && ev.channel == bind.channel && ev.note == bind.number && ev.velocity >= bind.minValue
    case Cc => ev.ControlChange? && ev.channel == bind.channel && ev.controller == bind.number && ev.value >= bind.minValue
    case Pc => ev.PatchChange? && ev.channel == bind.channel && ev.patch == bind.number
    case Unknown => false
  }

  /** IsSameControl: same channel and note, controller or patch, whatever the velocity or value; every NoteEvent counts for notes. */
  predicate IsSameControl(ev: MidiEvent, bind: MidiBind)
  {
    match bind.kind
    case Note => (ev.NoteOn? || ev.PlainNote?) && ev.channel == bind.channel && ev.note == bind.number
    case Cc => ev.ControlChange? && ev.channel == bind.channel && ev.controller == bind.number
    case Pc => ev.PatchChange? && ev.channel == bind.channel && ev.patch == bind.number
    case Unknown => false
  }

  /** IsPress, written out separately from DoesEventMatchBind in the window. */
  predicate IsPress(ev: MidiEvent, bind: MidiBind)
  {
    match bind.kind
    case Note => ev.NoteOn? && ev.channel == bind.channel && ev.note == bind.number && ev.velocity >= bind.minValue
    case Cc => ev.ControlChange? && ev.channel == bind.channel && ev.controller == bind.number && ev.value >= bind.minValue
    case Pc => ev.PatchChange? && ev.channel == bind.channel && ev.patch == bind.number
    case Unknown => false
  }

  /** IsRelease: a note-on of velocity <= 0 or a CC of value <= 0 on the bound control; never a program change. */
  predicate IsRelease(ev: MidiEvent, bind: MidiBind)
  {
    match bind.kind
    case Note => ev.NoteOn? && ev.channel == bind.channel && ev.note == bind.number && ev.velocity <= 0
    case Cc => ev.ControlChange? && ev.channel == bind.channel && ev.controller == bind.number && ev.value <= 0
    case _ => false
  }

  /**
   * IsPress is DoesEventMatchBind; a press and a release are both on the
   * bound control, and for a bind whose MinValue is at least 1 (every bind
   * the parser returns) no message is both, so a velocity-0 note-on never
   * triggers. A program change is never a release.
   */
  lemma PressAndRelease(ev: MidiEvent, bind: MidiBind)
    ensures IsPress(ev, bind) <==> DoesEventMatchBind(ev, bind)
    ensures IsPress(ev, bind) ==> IsSameControl(ev, bind)
    ensures IsRelease(ev, bind) ==> IsSameControl(ev, bind)
    ensures bind.minValue >= 1 ==> !(IsPress(ev, bind) && IsRelease(ev, bind))
    ensures bind.minValue >= 1 && ev.NoteOn? && ev.velocity == 0 ==> !DoesEventMatchBind(ev, bind)
    ensures bind.kind == Pc ==> !IsRelease(ev, bind)
  {
  }

  /**
   * As NAudio delivers live input, IsRelease never holds for a note bind:
   * a NoteOnEvent always has a velocity above 0, and the Note Off and the
   * velocity-0 Note On that end a note arrive as plain NoteEvents. They are
   * the same control as the bind, so the window consumes them, but they are
   * neither a press nor a release.
   */
  lemma NoteReleaseMissed(status: int, data1: int, data2: int, bind: MidiBind)
    requires 0 <= status < 256 && bind.kind == Note
    ensures !IsRelease(EventOf(status, data1, data2), bind)
    ensures var ev := EventOf(status, data1, data2);
      (status / 16 == 8 || (status / 16 == 9 && data2 == 0)) && ev.channel == bind.channel && data1 == bind.number ==>
        IsSameControl(ev, bind) && !IsPress(ev, bind)
  {
  }

  /** The release test as evidently intended: for notes, a Note Off or a Note On of velocity 0, whichever event class carries it. */
  predicate IntendedIsRelease(ev: MidiEvent, bind: MidiBind)
  {
    match bind.kind
    case Note =>
      && ((ev.NoteOn? && ev.velocity <= 0) || (ev.PlainNote? && (ev.command == NOTE_OFF || (ev.command == NOTE_ON && ev.velocity <= 0))))
      && ev.channel == bind.channel && ev.note == bind.number
    case Cc => IsRelease(ev, bind)
    case _ => false
  }

  /**
   * On live input the intended release of a note bind is exactly a Note Off
   * or a velocity-0 Note On of the bound channel and note; it is always the
   * same control, and for a parsed bind never also a press. For CC and PC
   * binds it is IsRelease.
   */
  lemma IntendedReleaseOnLiveInput(status: int, data1: int, data2: int, bind: MidiBind)
    requires 0 <= status < 256
    ensures var ev := EventOf(status, data1, data2);
      bind.kind == Note ==>
        (IntendedIsRelease(ev, bind) <==>
          (status / 16 == 8 || (status / 16 == 9 && data2 <= 0)) && status % 16 + 1 == bind.channel && data1 == bind.number)
    ensures bind.kind != Note ==> (IntendedIsRelease(EventOf(status, data1, data2), bind) <==> IsRelease(EventOf(status, data1, data2), bind))
    ensures IntendedIsRelease(EventOf(status, data1, data2), bind) ==> IsSameControl(EventOf(status, data1, data2), bind)
    ensures bind.minValue >= 1 ==> !(IsPress(EventOf(status, data1, data2), bind) && IntendedIsRelease(EventOf(status, data1, data2), bind))
  {
  }

  /** The text MIDI learn stores: "NOTE:ch:n:1", "CC:ch:n:v" with v clamped to 1..127, "PC:ch:p:1"; nothing for a release or another message. */
  function BuildMidiLearnBindText(ev: MidiEvent): (r: Option<string>)
    ensures r.Some? <==> (ev.NoteOn? && ev.velocity > 0) || (ev.ControlChange? && ev.value > 0) || ev.PatchChange?
  {
    match ev
    case NoteOn(ch, n, v) => if v <= 0 then None else Some(BindText("NOTE", ch, n, 1))
    case ControlChange(ch, c, v) => if v <= 0 then None else Some(BindText("CC", ch, c, Clamp(v, 1, 127)))
    case PatchChange(ch, p) => Some(BindText("PC", ch, p, 1))
    case _ => None
  }

  function BindText(head: string, ch: int, n: int, m: int): string
  {
    head + ":" + IntToString(ch) + ":" + IntToString(n) + ":" + IntToString(m)
  }

  /** A formatted int holds no ':' and ends in a digit. */
  lemma IntToStringShape(n: int)
    ensures ':' !in IntToString(n)
    ensures IsDigit(IntToString(n)[|IntToString(n)| - 1])
  {
    var m: nat := if n < 0 then -n else n;
    var d := NatToString(m);
    assert IsDigit(d[|d| - 1]);
    if n < 0 {
      assert IntToString(n) == "-" + d;
      assert forall i :: 0 <= i < |IntToString(n)| ==> IntToString(n)[i] == '-' || IsDigit(IntToString(n)[i]);
    } else {
      assert forall i :: 0 <= i < |d| ==> IsDigit(d[i]);
    }
  }

  /** The learn text is not blank, trims to itself and splits into its four fields. */
  lemma BindTextParts(head: string, ch: int, n: int, m: int)
    requires |head| > 0 && !IsWhiteSpace(head[0]) && ':' !in head
    ensures !IsBlank(Some(BindText(head, ch, n, m)))
    ensures Split(Trim(BindText(head, ch, n, m)), {':'}) == [head, IntToString(ch), IntToString(n), IntToString(m)]
  {
    var t := BindText(head, ch, n, m);
    assert Trim(t) == t && !IsBlank(Some(t)) by {
      var c := IntToString(m);
      IntToStringShape(m);
      assert t == (head + ":" + IntToString(ch) + ":" + IntToString(n) + ":") + c;
      assert t[0] == head[0] && t[|t| - 1] == c[|c| - 1];
      TrimNothing(t, WhiteSpace);
    }
    BindTextSplit(head, IntToString(ch), IntToString(n), IntToString(m)) by {
      IntToStringShape(ch);
      IntToStringShape(n);
      IntToStringShape(m);
    }
  }

  /** Four fields without ':' joined by ':' split back into those four. */
  lemma BindTextSplit(head: string, a: string, b: string, c: string)
    requires ':' !in head && ':' !in a && ':' !in b && ':' !in c
    ensures Split(head + ":" + a + ":" + b + ":" + c, {':'}) == [head, a, b, c]
  {
    NoSepIn(head, ':');
    NoSepIn(a, ':');
    NoSepIn(b, ':');
    NoSepIn(c, ':');
    SplitFour(head, ':', a, b, c, {':'});
  }

  /** The learn text's fields come back out of the parser unchanged. */
  lemma ParseBindText(head: string, kind: MidiBindKind, ch: int, n: int, m: int)
    requires |head| > 0 && !IsWhiteSpace(head[0]) && ':' !in head
    requires KindOf(head) == kind && kind != Unknown
    requires 1 <= ch <= 16 && IsInt32(n) && 1 <= m && IsInt32(m)
    ensures TryParseMidiBind(Some(BindText(head, ch, n, m))) == Some(MidiBind(kind, ch, n, m))
  {
    BindTextFields(head, ch, n, m);
    ParseFields(BindText(head, ch, n, m), kind, ch, n, m);
  }

  /** The learn text's four fields: the head, then the three numbers, which parse back. */
  lemma BindTextFields(head: string, ch: int, n: int, m: int)
    requires |head| > 0 && !IsWhiteSpace(head[0]) && ':' !in head
    requires IsInt32(ch) && IsInt32(n) && 1 <= m && IsInt32(m)
    ensures !IsBlank(Some(BindText(head, ch, n, m)))
    ensures var parts := Split(Trim(BindText(head, ch, n, m)), {':'});
      && |parts| == 4 && parts[0] == head
      && TryParseInt32(parts[1]) == Some(ch) && TryParseInt32(parts[2]) == Some(n) && MinValueOf(parts) == m
  {
    var parts := [head, IntToString(ch), IntToString(n), IntToString(m)];
    BindTextParts(head, ch, n, m);
    IntToStringRoundTrip(ch);
    IntToStringRoundTrip(n);
    IntToStringRoundTrip(m);
    assert MinValueOf(parts) == m;
  }

  /** The three heads the learn text uses name their kinds. */
  lemma LearnHeads()
    ensures KindOf("NOTE") == Note && KindOf("CC") == Cc && KindOf("PC") == Pc
  {
    NoteHead();
    CcHead();
    PcHead();
  }

  lemma NoteHead()
    ensures Capitals("NOTE") && KindOf("NOTE") == Note
  {
    CapitalHead("NOTE");
  }

  lemma CcHead()
    ensures Capitals("CC") && KindOf("CC") == Cc
  {
    CapitalHead("CC");
  }

  lemma PcHead()
    ensures Capitals("PC") && KindOf("PC") == Pc
  {
    CapitalHead("PC");
  }

  /** A non-empty text of capital letters only. */
  predicate Capitals(h: string)
  {
    |h| > 0 && forall i :: 0 <= i < |h| ==> 'A' <= h[i] <= 'Z'
  }

  /** A head of capital letters is its own trimmed, upper-cased form. */
  lemma CapitalHead(h: string)
    requires Capitals(h)
    ensures ToUpper(Trim(h)) == h
  {
    TrimNothing(h, WhiteSpace);
    assert ToUpper(h) == h;
  }

  /** A text that is not blank and whose fields parse gives the bind of those fields. */
  lemma ParseFields(text: string, kind: MidiBindKind, ch: int, n: int, m: int)
    requires !IsBlank(Some(text))
    requires var parts := Split(Trim(text), {':'});
      && |parts| == 4 && KindOf(parts[0]) == kind && kind != Unknown
      && TryParseInt32(parts[1]) == Some(ch) && 1 <= ch <= 16
      && TryParseInt32(parts[2]) == Some(n) && MinValueOf(parts) == m
    ensures TryParseMidiBind(Some(text)) == Some(MidiBind(kind, ch, n, m))
  {
  }

  /**
   * MIDI learn round trip: for a message on a channel 1..16 with 32-bit
   * numbers, the learnt text parses back into a bind that the same message
   * matches.
   */
  lemma LearnRoundTrip(ev: MidiEvent)
    requires !ev.OtherEvent? ==> 1 <= ev.channel <= 16
    requires ev.NoteOn? ==> IsInt32(ev.note)
    requires ev.ControlChange? ==> IsInt32(ev.controller)
    requires ev.PatchChange? ==> IsInt32(ev.patch)
    ensures BuildMidiLearnBindText(ev).Some? ==>
      TryParseMidiBind(BuildMidiLearnBindText(ev)).Some?
      && DoesEventMatchBind(ev, TryParseMidiBind(BuildMidiLearnBindText(ev)).value)
  {
    if BuildMidiLearnBindText(ev).Some? {
      LearnParsesBack(ev);
    }
  }

  /** The bind a learnt message's text parses into. */
  lemma LearnParsesBack(ev: MidiEvent)
    requires !ev.OtherEvent? ==> 1 <= ev.channel <= 16
    requires ev.NoteOn? ==> IsInt32(ev.note) && ev.velocity > 0
    requires ev.ControlChange? ==> IsInt32(ev.controller) && ev.value > 0
    requires ev.PatchChange? ==> IsInt32(ev.patch)
    requires !ev.PlainNote? && !ev.OtherEvent?
    ensures TryParseMidiBind(BuildMidiLearnBindText(ev)) == Some(
      match ev
      case NoteOn(ch, n, _) => MidiBind(Note, ch, n, 1)
      case ControlChange(ch, c, v) => MidiBind(Cc, ch, c, Clamp(v, 1, 127))
      case PatchChange(ch, p) => MidiBind(Pc, ch, p, 1)
      case _ => MidiBind(Unknown, 0, 0, 0))
  {
    match ev
    case NoteOn(ch, n, v) => LearnedNoteParses(ev);
    case ControlChange(ch, c, v) => LearnedCcParses(ev);
    case PatchChange(ch, p) => LearnedPcParses(ev);
  }

  lemma LearnedNoteParses(ev: MidiEvent)
    requires ev.NoteOn? && 1 <= ev.channel <= 16 && IsInt32(ev.note) && ev.velocity > 0
    ensures TryParseMidiBind(BuildMidiLearnBindText(ev)) == Some(MidiBind(Note, ev.channel, ev.note, 1))
  {
    NoteHead();
    LearnedTextParses(ev, "NOTE", ev.note, 1);
  }

  lemma LearnedCcParses(ev: MidiEvent)
    requires ev.ControlChange? && 1 <= ev.channel <= 16 && IsInt32(ev.controller) && ev.value > 0
    ensures TryParseMidiBind(BuildMidiLearnBindText(ev)) == Some(MidiBind(Cc, ev.channel, ev.controller, Clamp(ev.value, 1, 127)))
  {
    CcHead();
    LearnedTextParses(ev, "CC", ev.controller, Clamp(ev.value, 1, 127));
  }

  lemma LearnedPcParses(ev: MidiEvent)
    requires ev.PatchChange? && 1 <= ev.channel <= 16 && IsInt32(ev.patch)
    ensures TryParseMidiBind(BuildMidiLearnBindText(ev)) == Some(MidiBind(Pc, ev.channel, ev.patch, 1))
  {
    PcHead();
    LearnedTextParses(ev, "PC", ev.patch, 1);
  }

  /** A learnt text whose head is capital letters naming a kind parses back into the bind of its fields. */
  lemma LearnedTextParses(ev: MidiEvent, head: string, number: int, m: int)
    requires !ev.OtherEvent? && 1 <= ev.channel <= 16
    requires Capitals(head) && KindOf(head) != Unknown
    requires IsInt32(number) && 1 <= m && IsInt32(m)
    requires BuildMidiLearnBindText(ev) == Some(BindText(head, ev.channel, number, m))
    ensures TryParseMidiBind(BuildMidiLearnBindText(ev)) == Some(MidiBind(KindOf(head), ev.channel, number, m))
  {
    ParseBindText(head, KindOf(head), ev.channel, number, m);
  }

  /** NormalizeHot: blank text gives ""; otherwise spaces removed, trimmed and upper-cased. */
  function NormalizeHot(s: Option<string>): (r: string)
    ensures ' ' !in r
    ensures |r| > 0 ==> !IsWhiteSpace(r[0]) && !IsWhiteSpace(r[|r| - 1])
  {
    if IsBlank(s) then ""
    else
      var t := Replace(s.value, " ", "");
      RemoveCharAll(s.value, ' ');
      TrimChars(t);
      UpperKeepsWhiteSpace(Trim(t));
      ToUpper(Trim(t))
  }

  /** Trim only drops characters: what it keeps was in the text. */
  lemma TrimChars(s: string)
    ensures forall c :: c in Trim(s) ==> c in s
  {
    var a := TrimStartWhere(s, WhiteSpace);
    assert forall c :: c in a ==> c in s;
    assert forall c :: c in Trim(s) ==> c in a;
  }

  /** Upper-casing changes only ASCII letters, so no character becomes or stops being white space. */
  lemma UpperKeepsWhiteSpace(s: string)
    ensures forall i :: 0 <= i < |s| ==> (IsWhiteSpace(ToUpper(s)[i]) <==> IsWhiteSpace(s[i]))
    ensures forall i :: 0 <= i < |s| ==> (ToUpper(s)[i] == ' ' <==> s[i] == ' ')
  {
  }

  /** NormalizeHot is idempotent, so bindings compared after normalising compare the same a second time. */
  lemma NormalizeHotIdempotent(s: Option<string>)
    ensures NormalizeHot(Some(NormalizeHot(s))) == NormalizeHot(s)
  {
    var r := NormalizeHot(s);
    if r != "" {
      assert !AllWhiteSpace(r) by { assert !IsWhiteSpace(r[0]); }
      ReplaceAbsent(r, ' ', "");
      TrimNothing(r, WhiteSpace);
      ToUpperIdempotent(Trim(Replace(s.value, " ", "")));
    }
  }
}
