// ProfileManagerViewModel: the profile-switch window. It edits the
// profile-switch section of settings.json: the active profile, the MIDI and
// hotkey modifiers, the link mode (full manual, pads' MIDI like profile 1,
// pads' MIDI and hotkeys like profile 1) and the 16 slot binds, fills blank
// slot binds from profile 1's pads when a link is on, and saves on change.
//
// The whole modelled state is the value `Manager`; each operation is a
// function on it, and the class's methods are proved to compute those
// functions.
module ProfileManagerVm {
  import opened Base
  import opened Text
  import opened Settings
  import opened Profiles
  import opened ProfileRules
  import opened ProfileServices
  import ProfileSwitching

  // ---------------------------------------------------------------- link flags

  /** The three radio flags: PadsFullManual, PadsMidiSameAsProfile1, PadsMidiAndHotkeysSameAsProfile1. */
  datatype LinkFlags = LinkFlags(fullManual: bool, midi: bool, midiAndHotkeys: bool)

  /** At most one link is on, and full manual means no link. */
  predicate Exclusive(f: LinkFlags)
  {
    !(f.midi && f.midiAndHotkeys) && (f.fullManual ==> !f.midi && !f.midiAndHotkeys)
  }

  /** Exclusive, and full manual holds exactly when no link is on. */
  predicate Aligned(f: LinkFlags)
  {
    Exclusive(f) && (f.fullManual <==> !f.midi && !f.midiAndHotkeys)
  }

  /** Full manual recomputed from the two link flags, as after loading and saving. */
  function Realigned(midi: bool, midiAndHotkeys: bool): LinkFlags
  {
    LinkFlags(!midi && !midiAndHotkeys, midi, midiAndHotkeys)
  }

  /**
   * The constructor's reading of the stored flags: with both set the
   * MIDI-only one is dropped (the stronger link wins), and full manual
   * holds exactly when neither is set.
   */
  function LoadedFlags(midi: bool, midiAndHotkeys: bool): (f: LinkFlags)
    ensures Aligned(f)
    ensures f.midiAndHotkeys == midiAndHotkeys
    ensures f.midi == (midi && !midiAndHotkeys)
  {
    Realigned(if midi && midiAndHotkeys then false else midi, midiAndHotkeys)
  }

  /** The PadsFullManual setter's effect on the flags: turning it on clears both links. */
  function WithFullManual(f: LinkFlags, value: bool): LinkFlags
  {
    if value then LinkFlags(true, false, false) else f.(fullManual := false)
  }

  /** The PadsMidiSameAsProfile1 setter's effect: turning it on clears the other link and full manual. */
  function WithMidiLink(f: LinkFlags, value: bool): LinkFlags
  {
    if value then LinkFlags(false, true, false) else f.(midi := false)
  }

  /** The PadsMidiAndHotkeysSameAsProfile1 setter's effect: turning it on clears the other link and full manual. */
  function WithMidiAndHotkeysLink(f: LinkFlags, value: bool): LinkFlags
  {
    if value then LinkFlags(false, false, true) else f.(midiAndHotkeys := false)
  }

  /**
   * Every flag setter keeps the flags exclusive; switching a link on leaves
   * exactly that link on, and switching full manual on leaves no link.
   */
  lemma FlagSettersExclusive(f: LinkFlags, value: bool)
    requires Exclusive(f)
    ensures Exclusive(WithFullManual(f, value))
    ensures Exclusive(WithMidiLink(f, value))
    ensures Exclusive(WithMidiAndHotkeysLink(f, value))
    ensures value ==> WithMidiLink(f, value) == LinkFlags(false, true, false)
    ensures value ==> WithMidiAndHotkeysLink(f, value) == LinkFlags(false, false, true)
    ensures value ==> WithFullManual(f, value) == LinkFlags(true, false, false)
  {
  }

  /** The two flags SaveInternal writes: both false in full manual, the shown ones otherwise. */
  function SavedLinks(f: LinkFlags): (r: (bool, bool))
    ensures f.fullManual ==> r == (false, false)
    ensures !f.fullManual ==> r == (f.midi, f.midiAndHotkeys)
  {
    if f.fullManual then (false, false) else (f.midi, f.midiAndHotkeys)
  }

  /**
   * After a save the flags are aligned again; aligned flags come back as
   * they were, while unticking full manual without choosing a link is
   * undone: the save finds no link and turns full manual back on.
   */
  lemma SaveRealigns(f: LinkFlags)
    requires Exclusive(f)
    ensures Aligned(Realigned(SavedLinks(f).0, SavedLinks(f).1))
    ensures Aligned(f) ==> Realigned(SavedLinks(f).0, SavedLinks(f).1) == f
    ensures !f.midi && !f.midiAndHotkeys ==> Realigned(SavedLinks(f).0, SavedLinks(f).1) == LinkFlags(true, false, false)
  {
  }

  // ---------------------------------------------------------------- the slot rows

  /** One ProfileSlotRowViewModel: its index, the shown name and the two binds. */
  datatype SlotRow = SlotRow(index: int, name: Option<string>, midiBind: Option<string>, hotkeyBind: Option<string>)

  /** One row filled from profile 1's pad: blank binds only, from non-blank values, the hotkey only when asked. */
  function FillRow(row: SlotRow, ps: PadSettings, includeHotkeys: bool): SlotRow
  {
    row.(midiBind := if IsBlank(row.midiBind) && !IsBlank(ps.midiTriggerDisplay) then ps.midiTriggerDisplay else row.midiBind,
         hotkeyBind := if includeHotkeys && IsBlank(row.hotkeyBind) && !IsBlank(ps.padHotkey) then ps.padHotkey else row.hotkeyBind)
  }

  /** The rows after the sync loop: row i (1..16) filled from profile 1's pad i when there is one. */
  function SyncedRows(rows: seq<SlotRow>, pads: map<int, PadSettings>, includeHotkeys: bool): (r: seq<SlotRow>)
    ensures |r| == |rows|
  {
    seq(|rows|, j requires 0 <= j < |rows| =>
      if j < SLOT_COUNT && j + 1 in pads then FillRow(rows[j], pads[j + 1], includeHotkeys) else rows[j])
  }

  /**
   * The sync never overwrites: a non-blank bind stays, a blank one takes
   * the pad's value when that is not blank, hotkeys only with
   * includeHotkeys, names and indices never change, rows past 16 or without
   * a pad stay as they are, and a second sync changes nothing.
   */
  lemma SyncedRowsFacts(rows: seq<SlotRow>, pads: map<int, PadSettings>, includeHotkeys: bool, j: int)
    requires 0 <= j < |rows|
    ensures var r := SyncedRows(rows, pads, includeHotkeys);
      && r[j].index == rows[j].index && r[j].name == rows[j].name
      && (!IsBlank(rows[j].midiBind) ==> r[j].midiBind == rows[j].midiBind)
      && (!IsBlank(rows[j].hotkeyBind) || !includeHotkeys ==> r[j].hotkeyBind == rows[j].hotkeyBind)
      && (j >= SLOT_COUNT || j + 1 !in pads ==> r[j] == rows[j])
      && (j < SLOT_COUNT && j + 1 in pads && IsBlank(rows[j].midiBind) ==>
            r[j].midiBind == (if IsBlank(pads[j + 1].midiTriggerDisplay) then rows[j].midiBind else pads[j + 1].midiTriggerDisplay))
      && (j < SLOT_COUNT && j + 1 in pads && includeHotkeys && IsBlank(rows[j].hotkeyBind) ==>
            r[j].hotkeyBind == (if IsBlank(pads[j + 1].padHotkey) then rows[j].hotkeyBind else pads[j + 1].padHotkey))
  {
  }

  lemma SyncedRowsIdempotent(rows: seq<SlotRow>, pads: map<int, PadSettings>, includeHotkeys: bool)
    ensures SyncedRows(SyncedRows(rows, pads, includeHotkeys), pads, includeHotkeys) == SyncedRows(rows, pads, includeHotkeys)
  {
    var r := SyncedRows(rows, pads, includeHotkeys);
    var rr := SyncedRows(r, pads, includeHotkeys);
    forall j | 0 <= j < |rows|
      ensures rr[j] == r[j]
    {
      if j < SLOT_COUNT && j + 1 in pads {
        var ps := pads[j + 1];
        assert r[j] == FillRow(rows[j], ps, includeHotkeys);
        assert rr[j] == FillRow(r[j], ps, includeHotkeys);
      }
    }
  }

  /** Row j of the constructor: slot j's binds, and its name or "Profile NN" when that is blank. */
  function InitialRow(slots: seq<ProfileSlotBind>, j: nat): SlotRow
    requires j < |slots|
  {
    SlotRow(j + 1, if IsBlank(slots[j].name) then Some(ProfileName(j + 1)) else slots[j].name,
      slots[j].midiBind, slots[j].hotkeyBind)
  }

  // ---------------------------------------------------------------- the stored section

  /** The profile-switch section of settings.json that this window reads and writes. */
  datatype SwitchRecord = SwitchRecord(
    activeProfileIndex: int,
    midiModifierBind: Option<string>,
    hotkeyModifier: Option<string>,
    padsMidiSameAsProfile1: bool,
    padsMidiAndHotkeysSameAsProfile1: bool,
    slots: Option<seq<ProfileSlotBind>>)

  /** The section `??= new ProfileSwitchSettings()` creates; see Settings.ProfileSwitchSettings' constructor. */
  const DEFAULT_SWITCH: SwitchRecord := SwitchRecord(1, None, Some("Ctrl+Shift"), false, false, Some([]))

  /** The loaded section after `??= new ...` and EnsureSlots: always 16 slots. */
  function LoadedSwitch(stored: Option<SwitchRecord>): (r: SwitchRecord)
    ensures r.slots.Some? && |r.slots.value| == SLOT_COUNT
  {
    var rec := if stored.Some? then stored.value else DEFAULT_SWITCH;
    rec.(slots := Some(EnsuredSlots(rec.slots)))
  }

  /** The slots with the first min(16, |rows|) binds taken from the rows; names stay. */
  function CopiedBinds(slots: seq<ProfileSlotBind>, rows: seq<SlotRow>): (r: seq<ProfileSlotBind>)
    ensures |r| == |slots|
  {
    seq(|slots|, j requires 0 <= j < |slots| =>
      if j < Min(SLOT_COUNT, |rows|) then slots[j].(midiBind := rows[j].midiBind, hotkeyBind := rows[j].hotkeyBind) else slots[j])
  }

  // ---------------------------------------------------------------- the state and its steps

  /** The window's state, with `profilesFile` standing for profiles.json and `stored` for settings.json's section. */
  datatype Manager = Manager(
    stored: Option<SwitchRecord>,
    settingsSwitch: SwitchRecord,
    flags: LinkFlags,
    activeProfileIndex: int,
    midiModifierBind: Option<string>,
    hotkeyModifier: Option<string>,
    initializing: bool,
    lastAutoSave: Option<int>,
    rows: seq<SlotRow>,
    profilesFile: StoreFile)

  /** The constructor's result: loaded settings, aligned flags, 16 rows; nothing is saved. */
  function Opened(stored: Option<SwitchRecord>, profilesFile: StoreFile): Manager
  {
    var rec := LoadedSwitch(stored);
    Manager(stored, rec, LoadedFlags(rec.padsMidiSameAsProfile1, rec.padsMidiAndHotkeysSameAsProfile1),
      ClampProfile(rec.activeProfileIndex), rec.midiModifierBind,
      if IsBlank(rec.hotkeyModifier) then Some("Ctrl+Shift") else rec.hotkeyModifier,
      false, None, seq(SLOT_COUNT, j requires 0 <= j < SLOT_COUNT => InitialRow(rec.slots.value, j)), profilesFile)
  }

  /** The sync runs only outside full manual and initialisation, with a link on. */
  predicate SyncRuns(m: Manager)
  {
    !m.flags.fullManual && !m.initializing && ProfileSwitching.OverlayChoice(m.flags.midi, m.flags.midiAndHotkeys).Some?
  }

  /** What GetPadsForProfile(1) returns for the file. */
  function Profile1PadsOf(f: StoreFile): map<int, PadSettings>
  {
    PadsOrEmpty(Lookup(Loaded(f), 1))
  }

  /**
   * SyncProfileSlotsFromProfile1PadsIfLocked: when it runs it loads
   * profile 1's pads (profiles.json may be rewritten by the load) and, when
   * there are any, fills the rows' blank binds from them, hotkeys only in
   * the MIDI-and-hotkeys link.
   */
  function Synced(m: Manager): Manager
  {
    if !SyncRuns(m) then m
    else
      var pads := Profile1PadsOf(m.profilesFile);
      var loaded := m.(profilesFile := AfterLoad(m.profilesFile));
      if |pads| == 0 then loaded else loaded.(rows := SyncedRows(m.rows, pads, m.flags.midiAndHotkeys))
  }

  /** The section SaveInternal writes: the reloaded one with the window's values and the rows' binds. */
  function SavedRecord(stored: Option<SwitchRecord>, m: Manager): (r: SwitchRecord)
    ensures r.slots.Some? && |r.slots.value| == SLOT_COUNT
  {
    var rec := LoadedSwitch(stored);
    var links := SavedLinks(m.flags);
    rec.(activeProfileIndex := ClampProfile(m.activeProfileIndex), midiModifierBind := m.midiModifierBind,
         hotkeyModifier := m.hotkeyModifier, padsMidiSameAsProfile1 := links.0, padsMidiAndHotkeysSameAsProfile1 := links.1,
         slots := Some(CopiedBinds(rec.slots.value, m.rows)))
  }

  /**
   * SaveInternal: nothing while initialising; otherwise sync the rows, write
   * the section, adopt it as the in-memory settings and realign the flags
   * with what was written.
   */
  function Saved(m: Manager): Manager
  {
    if m.initializing then m
    else
      var s := Synced(m);
      var rec := SavedRecord(m.stored, s);
      s.(stored := Some(rec), settingsSwitch := rec,
         flags := Realigned(rec.padsMidiSameAsProfile1, rec.padsMidiAndHotkeysSameAsProfile1))
  }

  /** RequestAutoSave at time `now` (ms): skipped while initialising or within 200 ms of the last auto-save. */
  function AutoSaved(m: Manager, now: int): Manager
  {
    if m.initializing || (m.lastAutoSave.Some? && now - m.lastAutoSave.value < 200) then m
    else Saved(m.(lastAutoSave := Some(now)))
  }

  /** A second auto-save request at the same time is skipped: the first either saved and stamped `now`, or was itself skipped. */
  lemma AutoSaveIdempotent(m: Manager, now: int)
    ensures AutoSaved(AutoSaved(m, now), now) == AutoSaved(m, now)
  {
  }

  /** The MidiModifierBind setter: only a new value is auto-saved. */
  function ModifierBindSet(m: Manager, value: Option<string>, now: int): Manager
  {
    if m.midiModifierBind == value then m else AutoSaved(m.(midiModifierBind := value), now)
  }

  /** The learned-modifier callback: the bind setter, then one more auto-save request. */
  function ModifierLearned(m: Manager, bind: string, now: int): (r: Manager)
    ensures r.midiModifierBind == Some(bind)
    ensures m.midiModifierBind != Some(bind) ==> r == ModifierBindSet(m, Some(bind), now)
    ensures m.midiModifierBind == Some(bind) ==> r == AutoSaved(m, now)
  {
    AutoSaveIdempotent(m.(midiModifierBind := Some(bind)), now);
    AutoSaved(ModifierBindSet(m, Some(bind), now), now)
  }

  /** The PadsFullManual setter. */
  function FullManualSet(m: Manager, value: bool, now: int): Manager
  {
    if m.flags.fullManual == value then m else AutoSaved(m.(flags := WithFullManual(m.flags, value)), now)
  }

  /**
   * A link setter after its flag change: sync the rows; a row the sync
   * writes saves at once, and the saves nested inside the sync end in the
   * state of one save after it (LinkChangedCollapses); then request an
   * auto-save.
   */
  function LinkChanged(m: Manager, now: int): Manager
  {
    var s := Synced(m);
    AutoSaved(if s.rows != m.rows then Saved(s) else s, now)
  }

  function MidiLinkSet(m: Manager, value: bool, now: int): Manager
  {
    if m.flags.midi == value then m else LinkChanged(m.(flags := WithMidiLink(m.flags, value)), now)
  }

  function MidiAndHotkeysLinkSet(m: Manager, value: bool, now: int): Manager
  {
    if m.flags.midiAndHotkeys == value then m else LinkChanged(m.(flags := WithMidiAndHotkeysLink(m.flags, value)), now)
  }

  /** The ActiveProfileIndex setter: clamped into [1, 16]; a new value is auto-saved. */
  function ActiveSet(m: Manager, value: int, now: int): Manager
  {
    var v := ClampProfile(value);
    if m.activeProfileIndex == v then m else AutoSaved(m.(activeProfileIndex := v), now)
  }

  /** A row's MidiBind setter: a new value saves at once unless the window is initialising. */
  function RowMidiBindSet(m: Manager, j: int, value: Option<string>): Manager
    requires 0 <= j < |m.rows|
  {
    if m.rows[j].midiBind == value then m
    else
      var m1 := m.(rows := m.rows[j := m.rows[j].(midiBind := value)]);
      if m1.initializing then m1 else Saved(m1)
  }

  /** A row's HotkeyBind setter, like its MidiBind setter. */
  function RowHotkeyBindSet(m: Manager, j: int, value: Option<string>): Manager
    requires 0 <= j < |m.rows|
  {
    if m.rows[j].hotkeyBind == value then m
    else
      var m1 := m.(rows := m.rows[j := m.rows[j].(hotkeyBind := value)]);
      if m1.initializing then m1 else Saved(m1)
  }

  // ---------------------------------------------------------------- properties of the steps

  /**
   * The constructor leaves aligned flags, an active index in [1, 16], a
   * hotkey modifier that is never blank, 16 rows numbered 1..16 with
   * non-blank names, and settings.json untouched.
   */
  lemma OpenedFacts(stored: Option<SwitchRecord>, profilesFile: StoreFile, j: int)
    requires 0 <= j < SLOT_COUNT
    ensures var m := Opened(stored, profilesFile);
      && Aligned(m.flags) && 1 <= m.activeProfileIndex <= PROFILE_COUNT
      && !IsBlank(m.hotkeyModifier) && !m.initializing
      && |m.rows| == SLOT_COUNT && m.rows[j].index == j + 1 && !IsBlank(m.rows[j].name)
      && m.stored == stored && m.profilesFile == profilesFile
  {
    var m := Opened(stored, profilesFile);
    var name := ProfileName(j + 1);
    assert name[0] == 'P';
    assert !IsWhiteSpace('P');
    var d := "Ctrl+Shift";
    assert d[0] == 'C' && !IsWhiteSpace(d[0]);
  }

  /** The sync changes only rows and profiles.json, and when it does not run it changes nothing. */
  lemma SyncedFrame(m: Manager)
    ensures var s := Synced(m);
      && s.(rows := m.rows, profilesFile := m.profilesFile) == m
      && |s.rows| == |m.rows|
      && (m.flags.fullManual || m.initializing || (!m.flags.midi && !m.flags.midiAndHotkeys) ==> s == m)
      && Loaded(s.profilesFile) == Loaded(m.profilesFile)
  {
    LoadStable(m.profilesFile);
  }

  /**
   * The window opening as evidently intended: the auto-seed from profile
   * 1's pads runs once the rows exist. Only the rows and the profiles.json
   * load differ from Opened, a set bind is never replaced, and with a link
   * on and profile 1 holding pads the rows are the synced ones.
   */
  function SeededOpened(stored: Option<SwitchRecord>, profilesFile: StoreFile): (m: Manager)
    ensures var o := Opened(stored, profilesFile);
      && m.(rows := o.rows, profilesFile := o.profilesFile) == o
      && |m.rows| == |o.rows|
      && (forall j :: 0 <= j < |o.rows| && !IsBlank(o.rows[j].midiBind) ==> m.rows[j].midiBind == o.rows[j].midiBind)
      && (SyncRuns(o) && |Profile1PadsOf(profilesFile)| > 0 ==>
            m.rows == SyncedRows(o.rows, Profile1PadsOf(profilesFile), o.flags.midiAndHotkeys))
  {
    var o := Opened(stored, profilesFile);
    SyncedFrame(o);
    var m := Synced(o);
    forall j | 0 <= j < |o.rows| && !IsBlank(o.rows[j].midiBind)
      ensures m.rows[j].midiBind == o.rows[j].midiBind
    {
      if SyncRuns(o) && |Profile1PadsOf(profilesFile)| > 0 {
        SyncedRowsFacts(o.rows, Profile1PadsOf(profilesFile), o.flags.midiAndHotkeys, j);
      }
    }
    m
  }

  /**
   * The constructor's auto-seed as written: it runs while initialisation is
   * still on, so it returns at once, and a blank slot bind that profile 1's
   * pad would fill stays blank after opening.
   */
  lemma OpenSkipsSeed(stored: Option<SwitchRecord>, profilesFile: StoreFile, j: int)
    requires 0 <= j < SLOT_COUNT && SyncRuns(Opened(stored, profilesFile))
    requires j + 1 in Profile1PadsOf(profilesFile) && !IsBlank(Profile1PadsOf(profilesFile)[j + 1].midiTriggerDisplay)
    requires IsBlank(Opened(stored, profilesFile).rows[j].midiBind)
    ensures var o := Opened(stored, profilesFile);
      Synced(o.(initializing := true)) == o.(initializing := true)
    ensures SeededOpened(stored, profilesFile).rows[j].midiBind == Profile1PadsOf(profilesFile)[j + 1].midiTriggerDisplay
    ensures SeededOpened(stored, profilesFile).rows[j].midiBind != Opened(stored, profilesFile).rows[j].midiBind
  {
    var o := Opened(stored, profilesFile);
    SyncedRowsFacts(o.rows, Profile1PadsOf(profilesFile), o.flags.midiAndHotkeys, j);
  }

  /**
   * A save outside initialisation writes the section: slot binds from the
   * synced rows for the first min(16, rows) slots, the slot names as loaded,
   * the clamped active index, both link flags false in full manual; and the
   * flags come back aligned.
   */
  lemma SavedFacts(m: Manager, j: int)
    requires !m.initializing && Exclusive(m.flags) && 0 <= j < SLOT_COUNT
    ensures var r := Saved(m);
      && r.stored.Some? && r.settingsSwitch == r.stored.value && Aligned(r.flags)
      && r.stored.value.activeProfileIndex == ClampProfile(m.activeProfileIndex)
      && (m.flags.fullManual ==> !r.stored.value.padsMidiSameAsProfile1 && !r.stored.value.padsMidiAndHotkeysSameAsProfile1)
      && |r.stored.value.slots.value| == SLOT_COUNT
      && r.stored.value.slots.value[j].name == LoadedSwitch(m.stored).slots.value[j].name
      && (j < |m.rows| ==>
            r.stored.value.slots.value[j].midiBind == r.rows[j].midiBind
            && r.stored.value.slots.value[j].hotkeyBind == r.rows[j].hotkeyBind)
      && (j >= |m.rows| ==> r.stored.value.slots.value[j] == LoadedSwitch(m.stored).slots.value[j])
  {
    SyncedFrame(m);
    SaveRealigns(m.flags);
  }

  /** Saving twice in a row writes nothing new. */
  lemma SavedIdempotent(m: Manager)
    requires !m.initializing && Exclusive(m.flags)
    ensures Saved(Saved(m)) == Saved(m)
  {
    var s := Synced(m);
    SyncedFrame(m);
    SaveRealigns(m.flags);
    var r := Saved(m);
    var rec := r.stored.value;
    SyncedAgain(m);
    assert Synced(r) == r by {
      SyncedAgain(m);
    }
    var rec2 := SavedRecord(r.stored, r);
    assert LoadedSwitch(r.stored) == rec by {
      assert rec.slots.value[..SLOT_COUNT] == rec.slots.value;
    }
    assert SavedLinks(r.flags) == SavedLinks(m.flags);
    assert CopiedBinds(rec.slots.value, r.rows) == rec.slots.value;
    assert rec2 == rec;
  }

  /** A second sync after a save finds the rows filled and the load already done. */
  lemma SyncedAgain(m: Manager)
    requires !m.initializing && Exclusive(m.flags)
    ensures Synced(Saved(m)) == Saved(m)
  {
    var s := Synced(m);
    SyncedFrame(m);
    SaveRealigns(m.flags);
    var r := Saved(m);
    if SyncRuns(r) {
      assert SyncRuns(m);
      LoadStable(m.profilesFile);
      var pads := Profile1PadsOf(m.profilesFile);
      assert Profile1PadsOf(r.profilesFile) == pads;
      if |pads| > 0 {
        SyncedRowsIdempotent(m.rows, pads, m.flags.midiAndHotkeys);
      }
    }
  }

  /** An auto-save is skipped while initialising or within 200 ms of the last one; otherwise it saves and stamps the time. */
  lemma AutoSavedGate(m: Manager, now: int)
    ensures m.initializing || (m.lastAutoSave.Some? && now - m.lastAutoSave.value < 200) ==> AutoSaved(m, now) == m
    ensures !m.initializing && (m.lastAutoSave.None? || now - m.lastAutoSave.value >= 200) ==>
      AutoSaved(m, now).lastAutoSave == Some(now) && AutoSaved(m, now).stored.Some?
  {
  }

  /**
   * Every setter keeps the two links exclusive, whatever saves it triggers;
   * switching a link on leaves exactly that link on.
   */
  lemma SettersKeepExclusive(m: Manager, value: bool, now: int)
    requires Exclusive(m.flags)
    ensures Exclusive(FullManualSet(m, value, now).flags)
    ensures Exclusive(MidiLinkSet(m, value, now).flags)
    ensures Exclusive(MidiAndHotkeysLinkSet(m, value, now).flags)
    ensures value ==> MidiLinkSet(m, value, now).flags == LinkFlags(false, true, false)
    ensures value ==> MidiAndHotkeysLinkSet(m, value, now).flags == LinkFlags(false, false, true)
  {
    FlagSettersExclusive(m.flags, value);
    AutoSavedExclusive(m.(flags := WithFullManual(m.flags, value)), now);
    LinkChangedExclusive(m.(flags := WithMidiLink(m.flags, value)), now);
    LinkChangedExclusive(m.(flags := WithMidiAndHotkeysLink(m.flags, value)), now);
  }

  lemma AutoSavedExclusive(m: Manager, now: int)
    requires Exclusive(m.flags)
    ensures Exclusive(AutoSaved(m, now).flags)
    ensures Aligned(m.flags) ==> AutoSaved(m, now).flags == m.flags
  {
    var m1 := m.(lastAutoSave := Some(now));
    if !m.initializing {
      SyncedFrame(m1);
      SaveRealigns(m.flags);
    }
  }

  lemma LinkChangedExclusive(m: Manager, now: int)
    requires Exclusive(m.flags)
    ensures Exclusive(LinkChanged(m, now).flags)
    ensures Aligned(m.flags) ==> LinkChanged(m, now).flags == m.flags
  {
    var s := Synced(m);
    SyncedFrame(m);
    var t := if s.rows != m.rows then Saved(s) else s;
    if s.rows != m.rows {
      assert !s.initializing;
      SyncedFrame(s);
      SaveRealigns(s.flags);
    }
    AutoSavedExclusive(t, now);
  }

  /**
   * A row setter with a new value outside initialisation saves at once; the
   * saved slot carries the new bind unless it is blank and the sync fills it.
   */
  lemma RowSetterSaves(m: Manager, j: int, value: Option<string>)
    requires 0 <= j < |m.rows| && j < SLOT_COUNT && !m.initializing && Exclusive(m.flags)
    requires m.rows[j].midiBind != value
    ensures RowMidiBindSet(m, j, value).stored.Some?
    ensures !IsBlank(value) || !SyncRuns(m) ==> RowMidiBindSet(m, j, value).stored.value.slots.value[j].midiBind == value
  {
    var m1 := m.(rows := m.rows[j := m.rows[j].(midiBind := value)]);
    SavedFacts(m1, j);
    if SyncRuns(m1) {
      var pads := Profile1PadsOf(m1.profilesFile);
      if |pads| > 0 {
        SyncedRowsFacts(m1.rows, pads, m1.flags.midiAndHotkeys, j);
      }
    }
  }

  // ---------------------------------------------------------------- the saves nested in a sync

  /** The blank binds of one row. */
  function RowBlanks(row: SlotRow): nat
  {
    (if IsBlank(row.midiBind) then 1 else 0) + (if IsBlank(row.hotkeyBind) then 1 else 0)
  }

  /** The blank binds of all rows; every write of the sync lowers it by one. */
  function BlankBinds(rows: seq<SlotRow>): nat
  {
    if |rows| == 0 then 0 else RowBlanks(rows[0]) + BlankBinds(rows[1..])
  }

  lemma {:induction false} BlankBindsUpdate(rows: seq<SlotRow>, j: nat, row: SlotRow)
    requires j < |rows|
    ensures BlankBinds(rows[j := row]) + RowBlanks(rows[j]) == BlankBinds(rows) + RowBlanks(row)
  {
    if j > 0 {
      assert rows[j := row][1..] == rows[1..][j - 1 := row];
      BlankBindsUpdate(rows[1..], j - 1, row);
    } else {
      assert rows[j := row][1..] == rows[1..];
    }
  }

  /**
   * SaveInternal as the code runs it: the sync inside it sets each row's
   * bind through the row setter, and each such write runs SaveInternal
   * again before the loop goes on.
   */
  function NestedSave(m: Manager): (r: Manager)
    ensures |r.rows| == |m.rows| && BlankBinds(r.rows) <= BlankBinds(m.rows)
    decreases BlankBinds(m.rows), 3
  {
    if m.initializing then m
    else
      var s := NestedSync(m);
      var rec := SavedRecord(m.stored, s);
      s.(stored := Some(rec), settingsSwitch := rec,
         flags := Realigned(rec.padsMidiSameAsProfile1, rec.padsMidiAndHotkeysSameAsProfile1))
  }

  /** SyncProfileSlotsFromProfile1PadsIfLocked as the code runs it, every row write saving through NestedSave. */
  function NestedSync(m: Manager): (r: Manager)
    ensures |r.rows| == |m.rows| && BlankBinds(r.rows) <= BlankBinds(m.rows)
    decreases BlankBinds(m.rows), 2
  {
    if !SyncRuns(m) then m
    else
      var pads := Profile1PadsOf(m.profilesFile);
      var loaded := m.(profilesFile := AfterLoad(m.profilesFile));
      if |pads| == 0 then loaded else NestedFill(loaded, pads, m.flags.midiAndHotkeys, 0)
  }

  /** The sync loop from row j on: row j's blank binds that the pad can fill, then the rows after it. */
  function NestedFill(m: Manager, pads: map<int, PadSettings>, includeHotkeys: bool, j: nat): (r: Manager)
    ensures |r.rows| == |m.rows| && BlankBinds(r.rows) <= BlankBinds(m.rows)
    decreases BlankBinds(m.rows), 1, |m.rows| - j
  {
    if j >= Min(SLOT_COUNT, |m.rows|) then m
    else if j + 1 !in pads then NestedFill(m, pads, includeHotkeys, j + 1)
    else
      var ps := pads[j + 1];
      var row := m.rows[j];
      var m1 :=
        if IsBlank(row.midiBind) && !IsBlank(ps.midiTriggerDisplay) then NestedRowSet(m, j, row.(midiBind := ps.midiTriggerDisplay))
        else m;
      var row1 := m1.rows[j];
      var m2 :=
        if includeHotkeys && IsBlank(row1.hotkeyBind) && !IsBlank(ps.padHotkey) then NestedRowSet(m1, j, row1.(hotkeyBind := ps.padHotkey))
        else m1;
      NestedFill(m2, pads, includeHotkeys, j + 1)
  }

  /**
   * A row setter filling a blank bind: the new row, then SaveInternal
   * (NestedSave is the identity while initialising, as the setter's
   * suppressed save is).
   */
  function NestedRowSet(m: Manager, j: nat, written: SlotRow): (r: Manager)
    requires j < |m.rows| && RowBlanks(written) < RowBlanks(m.rows[j])
    ensures |r.rows| == |m.rows| && BlankBinds(r.rows) < BlankBinds(m.rows)
    decreases BlankBinds(m.rows), 0
  {
    BlankBindsUpdate(m.rows, j, written);
    NestedSave(m.(rows := m.rows[j := written]))
  }

  /** A row moved part of the way to its filled form has the same filled form, so the sync's target stays. */
  lemma SyncedRowsTargetStays(rows: seq<SlotRow>, pads: map<int, PadSettings>, includeHotkeys: bool, j: nat, row: SlotRow)
    requires j < |rows| && j < SLOT_COUNT && j + 1 in pads
    requires FillRow(row, pads[j + 1], includeHotkeys) == FillRow(rows[j], pads[j + 1], includeHotkeys)
    ensures SyncedRows(rows[j := row], pads, includeHotkeys) == SyncedRows(rows, pads, includeHotkeys)
  {
  }

  /**
   * Saving with one row moved part of the way to the sync's target T is
   * saving with all rows at T; that save keeps the flags and the loaded
   * profiles.json.
   */
  lemma SaveAtTarget(m: Manager, pads: map<int, PadSettings>, includeHotkeys: bool, j: nat, written: SlotRow)
    requires SyncRuns(m) && includeHotkeys == m.flags.midiAndHotkeys
    requires pads == Profile1PadsOf(m.profilesFile) && |pads| > 0
    requires AfterLoad(m.profilesFile) == m.profilesFile
    requires j < |m.rows| && j < SLOT_COUNT && j + 1 in pads
    requires FillRow(written, pads[j + 1], includeHotkeys) == FillRow(m.rows[j], pads[j + 1], includeHotkeys)
    ensures var t := SyncedRows(m.rows, pads, includeHotkeys);
      var s := Saved(m.(rows := t));
      && Saved(m.(rows := m.rows[j := written])) == s
      && s.rows == t && s.flags == m.flags && s.profilesFile == m.profilesFile && s.initializing == m.initializing
  {
    var t := SyncedRows(m.rows, pads, includeHotkeys);
    SyncedRowsTargetStays(m.rows, pads, includeHotkeys, j, written);
    SyncedRowsIdempotent(m.rows, pads, includeHotkeys);
    assert Synced(m.(rows := m.rows[j := written])) == m.(rows := t);
    assert Synced(m.(rows := t)) == m.(rows := t);
  }

  /** A row setter moving a row towards the sync's target saves into the target state. */
  lemma NestedRowSetCollapses(m: Manager, pads: map<int, PadSettings>, includeHotkeys: bool, j: nat, written: SlotRow)
    requires SyncRuns(m) && includeHotkeys == m.flags.midiAndHotkeys
    requires pads == Profile1PadsOf(m.profilesFile) && |pads| > 0
    requires AfterLoad(m.profilesFile) == m.profilesFile
    requires j < |m.rows| && j < SLOT_COUNT && j + 1 in pads && RowBlanks(written) < RowBlanks(m.rows[j])
    requires FillRow(written, pads[j + 1], includeHotkeys) == FillRow(m.rows[j], pads[j + 1], includeHotkeys)
    ensures var t := SyncedRows(m.rows, pads, includeHotkeys);
      var s := Saved(m.(rows := t));
      && NestedRowSet(m, j, written) == s
      && s.rows == t && s.flags == m.flags && s.profilesFile == m.profilesFile && s.initializing == m.initializing
    decreases BlankBinds(m.rows), 0, 0
  {
    SaveAtTarget(m, pads, includeHotkeys, j, written);
    BlankBindsUpdate(m.rows, j, written);
    NestedSaveCollapses(m.(rows := m.rows[j := written]));
  }

  lemma SyncedRowAt(rows: seq<SlotRow>, pads: map<int, PadSettings>, includeHotkeys: bool, j: nat)
    requires j < |rows|
    ensures SyncedRows(rows, pads, includeHotkeys)[j]
      == if j < SLOT_COUNT && j + 1 in pads then FillRow(rows[j], pads[j + 1], includeHotkeys) else rows[j]
  {
  }

  /** Row j with nothing to write: the loop moves on to row j + 1 with the state unchanged. */
  lemma NestedFillSkips(m: Manager, pads: map<int, PadSettings>, includeHotkeys: bool, j: nat)
    requires j < Min(SLOT_COUNT, |m.rows|)
    requires j + 1 in pads ==> m.rows[j] == FillRow(m.rows[j], pads[j + 1], includeHotkeys)
    ensures NestedFill(m, pads, includeHotkeys, j) == NestedFill(m, pads, includeHotkeys, j + 1)
  {
  }

  /** Row j with a bind to write: the first write saves into the target state, and the loop moves on from there. */
  lemma NestedFillWrites(m: Manager, pads: map<int, PadSettings>, includeHotkeys: bool, j: nat)
    requires SyncRuns(m) && includeHotkeys == m.flags.midiAndHotkeys
    requires pads == Profile1PadsOf(m.profilesFile) && |pads| > 0
    requires AfterLoad(m.profilesFile) == m.profilesFile
    requires j < Min(SLOT_COUNT, |m.rows|) && j + 1 in pads && m.rows[j] != FillRow(m.rows[j], pads[j + 1], includeHotkeys)
    ensures var s := Saved(m.(rows := SyncedRows(m.rows, pads, includeHotkeys)));
      && NestedFill(m, pads, includeHotkeys, j) == NestedFill(s, pads, includeHotkeys, j + 1)
      && s.rows == SyncedRows(m.rows, pads, includeHotkeys) && s.flags == m.flags
      && s.profilesFile == m.profilesFile && s.initializing == m.initializing
      && BlankBinds(s.rows) < BlankBinds(m.rows)
    decreases BlankBinds(m.rows), 0, 1
  {
    var ps := pads[j + 1];
    var row := m.rows[j];
    var written := if IsBlank(row.midiBind) && !IsBlank(ps.midiTriggerDisplay) then row.(midiBind := ps.midiTriggerDisplay)
      else row.(hotkeyBind := ps.padHotkey);
    NestedRowSetCollapses(m, pads, includeHotkeys, j, written);
  }

  /**
   * From row j on, with the rows before j already at the sync's target T:
   * the nested execution either finds nothing to write, or ends in the state
   * of one save with the rows at T.
   */
  lemma {:induction false} NestedFillCollapses(m: Manager, pads: map<int, PadSettings>, includeHotkeys: bool, j: nat)
    requires SyncRuns(m) && includeHotkeys == m.flags.midiAndHotkeys
    requires pads == Profile1PadsOf(m.profilesFile) && |pads| > 0
    requires AfterLoad(m.profilesFile) == m.profilesFile
    requires forall k :: 0 <= k < j && k < |m.rows| ==> m.rows[k] == SyncedRows(m.rows, pads, includeHotkeys)[k]
    ensures var t := SyncedRows(m.rows, pads, includeHotkeys);
      NestedFill(m, pads, includeHotkeys, j) == if m.rows == t then m else Saved(m.(rows := t))
    decreases BlankBinds(m.rows), 1, |m.rows| - j
  {
    var t := SyncedRows(m.rows, pads, includeHotkeys);
    if j >= Min(SLOT_COUNT, |m.rows|) {
      assert m.rows == t;
    } else if j + 1 !in pads || m.rows[j] == FillRow(m.rows[j], pads[j + 1], includeHotkeys) {
      NestedFillSkips(m, pads, includeHotkeys, j);
      SyncedRowAt(m.rows, pads, includeHotkeys, j);
      assert forall k :: 0 <= k < j + 1 && k < |m.rows| ==> m.rows[k] == t[k];
      NestedFillCollapses(m, pads, includeHotkeys, j + 1);
    } else {
      NestedFillWrites(m, pads, includeHotkeys, j);
      var s := Saved(m.(rows := t));
      SyncedRowAt(m.rows, pads, includeHotkeys, j);
      assert m.rows[j] != t[j];
      SyncedRowsIdempotent(m.rows, pads, includeHotkeys);
      NestedFillCollapses(s, pads, includeHotkeys, j + 1);
    }
  }

  /** The nested saves of SaveInternal end in the state of the one save the model takes. */
  lemma {:induction false} NestedSaveCollapses(m: Manager)
    ensures NestedSave(m) == Saved(m)
    decreases BlankBinds(m.rows), 2, 0
  {
    if !m.initializing && SyncRuns(m) {
      var pads := Profile1PadsOf(m.profilesFile);
      if |pads| > 0 {
        var loaded := m.(profilesFile := AfterLoad(m.profilesFile));
        LoadStable(m.profilesFile);
        NestedFillCollapses(loaded, pads, m.flags.midiAndHotkeys, 0);
        SyncedRowsIdempotent(m.rows, pads, m.flags.midiAndHotkeys);
        assert Synced(Synced(m)) == Synced(m);
      }
    }
  }

  /**
   * A link setter as the code runs it, with the saves nested in its sync,
   * ends where LinkChanged does: one save after the sync when a row was
   * written, then the auto-save request.
   */
  lemma LinkChangedCollapses(m: Manager, now: int)
    ensures LinkChanged(m, now) == AutoSaved(NestedSync(m), now)
  {
    if SyncRuns(m) {
      var pads := Profile1PadsOf(m.profilesFile);
      if |pads| > 0 {
        LoadStable(m.profilesFile);
        NestedFillCollapses(m.(profilesFile := AfterLoad(m.profilesFile)), pads, m.flags.midiAndHotkeys, 0);
      }
    }
  }

  // ---------------------------------------------------------------- the view model

  class ProfileManagerViewModel {
    /** The ProfileService the sync reads profile 1 from. */
    const profiles: ProfileService
    /** settings.json's profile-switch section; None is a JSON null. */
    var stored: Option<SwitchRecord>
    /** Settings.ProfileSwitch, the in-memory section. */
    var settingsSwitch: SwitchRecord
    var padsFullManual: bool
    var padsMidiSameAsProfile1: bool
    var padsMidiAndHotkeysSameAsProfile1: bool
    var activeProfileIndex: int
    var midiModifierBind: Option<string>
    var hotkeyModifier: Option<string>
    var isInitializing: bool
    /** The last auto-save time in ms; None is DateTime.MinValue. */
    var lastAutoSave: Option<int>
    var rows: seq<SlotRow>

    function Flags(): LinkFlags
      reads this
    {
      LinkFlags(padsFullManual, padsMidiSameAsProfile1, padsMidiAndHotkeysSameAsProfile1)
    }

    function State(): Manager
      reads this, profiles
    {
      Manager(stored, settingsSwitch, Flags(), activeProfileIndex, midiModifierBind, hotkeyModifier,
        isInitializing, lastAutoSave, rows, profiles.file)
    }

    /**
     * The constructor: loads the section, hydrates the fields without
     * saving, builds the 16 rows with SetInitialValues (which never saves),
     * and ends initialisation. The sync it calls at the end returns at once,
     * because initialisation is still on at that point.
     */
    constructor (stored: Option<SwitchRecord>, profiles: ProfileService)
      ensures State() == Opened(stored, old(profiles.file))
    {
      var rec := LoadedSwitch(stored);
      var flags := LoadedFlags(rec.padsMidiSameAsProfile1, rec.padsMidiAndHotkeysSameAsProfile1);
      var slots := rec.slots.value;
      var built: seq<SlotRow> := [];
      var i := 1;
      while i <= SLOT_COUNT
        invariant 1 <= i <= SLOT_COUNT + 1 && |built| == i - 1
        invariant forall k :: 0 <= k < i - 1 ==> built[k] == InitialRow(slots, k)
      {
        built := built + [InitialRow(slots, i - 1)];
        i := i + 1;
      }
      this.profiles := profiles;
      this.stored := stored;
      settingsSwitch := rec;
      activeProfileIndex := ClampProfile(rec.activeProfileIndex);
      midiModifierBind := rec.midiModifierBind;
      hotkeyModifier := if IsBlank(rec.hotkeyModifier) then Some("Ctrl+Shift") else rec.hotkeyModifier;
      padsFullManual := flags.fullManual;
      padsMidiSameAsProfile1 := flags.midi;
      padsMidiAndHotkeysSameAsProfile1 := flags.midiAndHotkeys;
      lastAutoSave := None;
      rows := built;
      isInitializing := false;
    }

    /**
     * SyncProfileSlotsFromProfile1PadsIfLocked. `wrote` says whether some
     * row's bind changed, that is, whether a row setter fired.
     */
    method SyncSlots() returns (wrote: bool)
      modifies this`rows, profiles
      ensures State() == Synced(old(State()))
      ensures wrote <==> rows != old(rows)
    {
      if padsFullManual || isInitializing {
        return false;
      }
      var lockMidi := padsMidiSameAsProfile1;
      var lockMidiAndHotkeys := padsMidiAndHotkeysSameAsProfile1;
      if lockMidi && lockMidiAndHotkeys {
        lockMidi := false;
      }
      if !lockMidi && !lockMidiAndHotkeys {
        return false;
      }
      var pads := profiles.GetPadsForProfile(1);
      if |pads| == 0 {
        return false;
      }
      var r0 := rows;
      rows := FillRows(rows, pads, lockMidiAndHotkeys);
      wrote := rows != r0;
    }

    /** The sync loop over rows 1..min(16, |rows|) that profile 1 has a pad for. */
    static method FillRows(rows: seq<SlotRow>, pads: map<int, PadSettings>, includeHotkeys: bool) returns (r: seq<SlotRow>)
      ensures r == SyncedRows(rows, pads, includeHotkeys)
    {
      r := rows;
      var i := 1;
      while i <= SLOT_COUNT && i <= |r|
        invariant 1 <= i && i - 1 <= |r| && |r| == |rows|
        invariant forall k :: 0 <= k < |r| ==>
          r[k] == (if k < i - 1 then SyncedRows(rows, pads, includeHotkeys)[k] else rows[k])
      {
        if i in pads {
          r := r[i - 1 := FillRow(r[i - 1], pads[i], includeHotkeys)];
        }
        i := i + 1;
      }
    }

    /** SaveInternal: reload the section, write the window's values and the rows' binds, persist, realign. */
    method SaveInternal()
      modifies this, profiles
      ensures State() == Saved(old(State()))
    {
      if isInitializing {
        return;
      }
      ghost var m0 := State();
      var rec := LoadedSwitch(stored);
      var links := SavedLinks(Flags());
      rec := rec.(activeProfileIndex := ClampProfile(activeProfileIndex), midiModifierBind := midiModifierBind,
                  hotkeyModifier := hotkeyModifier, padsMidiSameAsProfile1 := links.0, padsMidiAndHotkeysSameAsProfile1 := links.1);
      var _ := SyncSlots();
      ghost var s := State();
      assert s == Synced(m0);
      var slots := CopyBinds(rec.slots.value, rows);
      rec := rec.(slots := Some(slots));
      assert rec == SavedRecord(m0.stored, s);
      stored := Some(rec);
      settingsSwitch := rec;
      padsMidiSameAsProfile1 := rec.padsMidiSameAsProfile1;
      padsMidiAndHotkeysSameAsProfile1 := rec.padsMidiAndHotkeysSameAsProfile1;
      padsFullManual := !padsMidiSameAsProfile1 && !padsMidiAndHotkeysSameAsProfile1;
    }

    /** SaveInternal's copy loop over min(16, slots, rows) entries. */
    static method CopyBinds(slots: seq<ProfileSlotBind>, rows: seq<SlotRow>) returns (r: seq<ProfileSlotBind>)
      requires |slots| == SLOT_COUNT
      ensures r == CopiedBinds(slots, rows)
    {
      var count := Min(Min(SLOT_COUNT, |slots|), Min(SLOT_COUNT, |rows|));
      r := slots;
      var i := 0;
      while i < count
        invariant 0 <= i <= count && |r| == |slots|
        invariant forall k :: 0 <= k < |r| ==> r[k] == (if k < i then CopiedBinds(slots, rows)[k] else slots[k])
      {
        r := r[i := r[i].(midiBind := rows[i].midiBind, hotkeyBind := rows[i].hotkeyBind)];
        i := i + 1;
      }
    }

    /** RequestAutoSave at `now` (ms since an arbitrary epoch). */
    method RequestAutoSave(now: int)
      modifies this, profiles
      ensures State() == AutoSaved(old(State()), now)
    {
      if isInitializing {
        return;
      }
      if lastAutoSave.Some? && now - lastAutoSave.value < 200 {
        return;
      }
      lastAutoSave := Some(now);
      SaveInternal();
    }

    method SetPadsFullManual(value: bool, now: int)
      modifies this, profiles
      ensures State() == FullManualSet(old(State()), value, now)
    {
      if padsFullManual == value {
        return;
      }
      padsFullManual := value;
      if value {
        padsMidiSameAsProfile1 := false;
        padsMidiAndHotkeysSameAsProfile1 := false;
      }
      RequestAutoSave(now);
    }

    /** The end of both link setters: sync, save if a row was written, request an auto-save. */
    method AfterLinkChange(now: int)
      modifies this, profiles
      ensures State() == LinkChanged(old(State()), now)
    {
      var wrote := SyncSlots();
      if wrote {
        SaveInternal();
      }
      RequestAutoSave(now);
    }

    method SetPadsMidiSameAsProfile1(value: bool, now: int)
      modifies this, profiles
      ensures State() == MidiLinkSet(old(State()), value, now)
    {
      if padsMidiSameAsProfile1 == value {
        return;
      }
      padsMidiSameAsProfile1 := value;
      if value {
        padsMidiAndHotkeysSameAsProfile1 := false;
        padsFullManual := false;
      }
      AfterLinkChange(now);
    }

    method SetPadsMidiAndHotkeysSameAsProfile1(value: bool, now: int)
      modifies this, profiles
      ensures State() == MidiAndHotkeysLinkSet(old(State()), value, now)
    {
      if padsMidiAndHotkeysSameAsProfile1 == value {
        return;
      }
      padsMidiAndHotkeysSameAsProfile1 := value;
      if value {
        padsMidiSameAsProfile1 := false;
        padsFullManual := false;
      }
      AfterLinkChange(now);
    }

    method SetActiveProfileIndex(value: int, now: int)
      modifies this, profiles
      ensures State() == ActiveSet(old(State()), value, now)
    {
      var v := ClampProfile(value);
      if activeProfileIndex == v {
        return;
      }
      activeProfileIndex := v;
      RequestAutoSave(now);
    }

    /** The MidiModifierBind setter: a new value is auto-saved. */
    method SetMidiModifierBind(value: Option<string>, now: int)
      modifies this, profiles
      ensures State() == ModifierBindSet(old(State()), value, now)
      ensures old(midiModifierBind) == value ==> State() == old(State())
      ensures old(midiModifierBind) != value ==> State() == AutoSaved(old(State()).(midiModifierBind := value), now)
    {
      if midiModifierBind == value {
        return;
      }
      midiModifierBind := value;
      RequestAutoSave(now);
    }

    /** The HotkeyModifier setter: a new value is auto-saved. */
    method SetHotkeyModifier(value: Option<string>, now: int)
      modifies this, profiles
      ensures old(hotkeyModifier) == value ==> State() == old(State())
      ensures old(hotkeyModifier) != value ==> State() == AutoSaved(old(State()).(hotkeyModifier := value), now)
    {
      if hotkeyModifier == value {
        return;
      }
      hotkeyModifier := value;
      RequestAutoSave(now);
    }

    /** The learned-modifier callback: set the bind, then ask for one more auto-save. */
    method OnModifierLearned(bind: string, now: int)
      modifies this, profiles
      ensures State() == ModifierLearned(old(State()), bind, now)
      ensures State() == AutoSaved(ModifierBindSet(old(State()), Some(bind), now), now)
      ensures midiModifierBind == Some(bind)
    {
      SetMidiModifierBind(Some(bind), now);
      RequestAutoSave(now);
    }

    /** Row j's MidiBind setter, also reached by the row's learn callback. */
    method SetRowMidiBind(j: int, value: Option<string>)
      requires 0 <= j < |rows|
      modifies this, profiles
      ensures State() == RowMidiBindSet(old(State()), j, value)
    {
      if rows[j].midiBind == value {
        return;
      }
      rows := rows[j := rows[j].(midiBind := value)];
      if !isInitializing {
        SaveInternal();
      }
    }

    method SetRowHotkeyBind(j: int, value: Option<string>)
      requires 0 <= j < |rows|
      modifies this, profiles
      ensures State() == RowHotkeyBindSet(old(State()), j, value)
    {
      if rows[j].hotkeyBind == value {
        return;
      }
      rows := rows[j := rows[j].(hotkeyBind := value)];
      if !isInitializing {
        SaveInternal();
      }
    }

    /** Row j's Name setter: it only notifies and never saves. */
    method SetRowName(j: int, value: Option<string>)
      requires 0 <= j < |rows|
      modifies this`rows
      ensures rows == old(rows)[j := old(rows)[j].(name := value)]
    {
      if rows[j].name == value {
        return;
      }
      rows := rows[j := rows[j].(name := value)];
    }
  }
}
