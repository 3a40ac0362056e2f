// The persisted settings: per-pad settings, the global settings object with
// its pad dictionary, and the profile-switch settings with their 16 slots.
module Settings {
  import opened Base

  /** The persisted values of one pad. */
  datatype PadSettings = PadSettings(
    index: int,
    clipPath: Option<string>,
    startMs: int,
    endMs: int,
    inputSource: int,
    previewToMonitor: bool,
    isEchoMode: bool,
    isDropFolderMode: bool,
    padHotkey: Option<string>,
    midiTriggerDisplay: Option<string>,
    padName: Option<string>,
    midiLedActiveEnabled: bool,
    midiLedActiveValue: int,
    midiLedRunningEnabled: bool,
    midiLedRunningValue: int,
    midiLedClearEnabled: bool,
    midiLedClearValue: int,
    midiLedActiveRaw: Option<string>,
    midiLedRunningRaw: Option<string>,
    midiLedClearRaw: Option<string>,
    midiLedArmedRaw: Option<string>,
    uiActiveHex: Option<string>,
    uiRunningHex: Option<string>)

  /** PadSettings.CreateDefault: the property initialisers plus the given index. */
  function CreateDefault(index: int): (p: PadSettings)
    ensures p.index == index
    ensures p.midiLedActiveEnabled && p.midiLedActiveValue == 25
    ensures p.midiLedRunningEnabled && p.midiLedRunningValue == 127
    ensures p.midiLedClearEnabled && p.midiLedClearValue == 0
    ensures p.inputSource == 1 && p.previewToMonitor
    ensures !p.isEchoMode && !p.isDropFolderMode
    ensures p.clipPath.None? && p.startMs == 0 && p.endMs == 0
    ensures p.padHotkey.None? && p.midiTriggerDisplay.None? && p.padName.None?
    ensures p.midiLedActiveRaw.None? && p.midiLedRunningRaw.None? && p.midiLedClearRaw.None? && p.midiLedArmedRaw.None?
    ensures p.uiActiveHex.None? && p.uiRunningHex.None?
  {
    PadSettings(index, None, 0, 0, 1, true, false, false, None, None, None,
      true, 25, true, 127, true, 0, None, None, None, None, None, None)
  }

  /** What GetOrCreatePad hands back: the stored entry, or the default for that index. */
  function PadOrDefault(pads: map<int, PadSettings>, index: int): PadSettings
  {
    if index in pads then pads[index] else CreateDefault(index)
  }

  /** The dictionary after GetOrCreatePad(index). */
  function WithPad(pads: map<int, PadSettings>, index: int): map<int, PadSettings>
  {
    pads[index := PadOrDefault(pads, index)]
  }

  /**
   * GetOrCreatePad only ever adds the requested key: a present key leaves
   * the dictionary as it was, a missing one gets the default for that index,
   * and no other key is added, removed or changed; a second call changes
   * nothing more.
   */
  lemma WithPadEffect(pads: map<int, PadSettings>, index: int)
    ensures WithPad(pads, index).Keys == pads.Keys + {index}
    ensures index in pads ==> WithPad(pads, index) == pads
    ensures index !in pads ==> WithPad(pads, index)[index] == CreateDefault(index)
    ensures forall k :: k in pads ==> WithPad(pads, index)[k] == pads[k]
    ensures WithPad(WithPad(pads, index), index) == WithPad(pads, index)
  {
  }

  datatype ProfileMidiLinkMode = PerProfile | PadsMidiSameAsProfile1 | PadsMidiAndHotkeysSameAsProfile1

  /** One profile-switch slot: the bind that selects the profile and its display name. */
  datatype ProfileSlotBind = ProfileSlotBind(midiBind: Option<string>, hotkeyBind: Option<string>, name: Option<string>)

  const EMPTY_SLOT: ProfileSlotBind := ProfileSlotBind(None, None, None)
  const SLOT_COUNT: nat := 16

  /**
   * The slot list EnsureSlots leaves: a missing list counts as empty, a
   * short one is padded with fresh slots, a long one loses its tail.
   */
  function EnsuredSlots(slots: Option<seq<ProfileSlotBind>>): (r: seq<ProfileSlotBind>)
    ensures |r| == SLOT_COUNT
    ensures slots.None? ==> forall i :: 0 <= i < SLOT_COUNT ==> r[i] == EMPTY_SLOT
    ensures slots.Some? ==> forall i :: 0 <= i < Min(SLOT_COUNT, |slots.value|) ==> r[i] == slots.value[i]
    ensures slots.Some? ==> forall i :: |slots.value| <= i < SLOT_COUNT ==> r[i] == EMPTY_SLOT
  {
    var s := if slots.Some? then slots.value else [];
    if |s| < SLOT_COUNT then s + seq(SLOT_COUNT - |s|, _ => EMPTY_SLOT) else s[..SLOT_COUNT]
  }

  /** EnsureSlots is idempotent: a list of 16 comes back unchanged. */
  lemma EnsuredSlotsIdempotent(slots: Option<seq<ProfileSlotBind>>)
    ensures EnsuredSlots(Some(EnsuredSlots(slots))) == EnsuredSlots(slots)
  {
    var r := EnsuredSlots(slots);
    assert r[..SLOT_COUNT] == r;
  }

  class ProfileSwitchSettings {
    var activeProfileIndex: int
    var midiLinkMode: ProfileMidiLinkMode
    var midiModifierBind: Option<string>
    var padsMidiSameAsProfile1: bool
    var padsMidiAndHotkeysSameAsProfile1: bool
    var hotkeyModifier: Option<string>
    /** None stands for a JSON null, which the `??=` of EnsureSlots replaces. */
    var slots: Option<seq<ProfileSlotBind>>

    /** The property initialisers: profile 1, per-profile MIDI, "Ctrl+Shift", an empty slot list. */
    constructor ()
      ensures activeProfileIndex == 1 && midiLinkMode == PerProfile && midiModifierBind.None?
      ensures !padsMidiSameAsProfile1 && !padsMidiAndHotkeysSameAsProfile1
      ensures hotkeyModifier == Some("Ctrl+Shift") && slots == Some([])
    {
      activeProfileIndex := 1;
      midiLinkMode := PerProfile;
      midiModifierBind := None;
      padsMidiSameAsProfile1 := false;
      padsMidiAndHotkeysSameAsProfile1 := false;
      hotkeyModifier := Some("Ctrl+Shift");
      slots := Some([]);
    }

    /** EnsureSlots: pads the list with fresh slots up to 16, then cuts it at 16; nothing else changes. */
    method EnsureSlots()
      modifies this
      ensures slots == Some(EnsuredSlots(old(slots)))
      ensures activeProfileIndex == old(activeProfileIndex) && midiLinkMode == old(midiLinkMode)
      ensures midiModifierBind == old(midiModifierBind) && hotkeyModifier == old(hotkeyModifier)
      ensures padsMidiSameAsProfile1 == old(padsMidiSameAsProfile1)
      ensures padsMidiAndHotkeysSameAsProfile1 == old(padsMidiAndHotkeysSameAsProfile1)
    {
      var s := if slots.Some? then slots.value else [];
      ghost var s0 := s;
      while |s| < SLOT_COUNT
        invariant |s0| < SLOT_COUNT ==> |s| <= SLOT_COUNT
        invariant |s0| >= SLOT_COUNT ==> s == s0
        invariant |s| >= |s0| && s == s0 + seq(|s| - |s0|, _ => EMPTY_SLOT)
      {
        s := s + [EMPTY_SLOT];
      }
      if |s| > SLOT_COUNT {
        s := s[..SLOT_COUNT];
      }
      slots := Some(s);
    }
  }

  class GlobalSettings {
    var uiArmedInput1Hex: Option<string>
    var uiArmedInput2Hex: Option<string>
    var uiActiveHex: Option<string>
    var uiRunningHex: Option<string>
    var uiClearHex: Option<string>
    var dropWatchFolder: Option<string>
    var dropFolderEnabled: bool
    var audioFolders: seq<string>
    var midiArmedInput1Value: int
    var midiArmedInput2Value: int
    var pads: map<int, PadSettings>
    var profileSwitch: ProfileSwitchSettings?

    /** The property initialisers: the theme colours, dropping enabled, armed values 38 and 48, no pads and no folders. */
    constructor ()
      ensures uiArmedInput1Hex == Some("#FF4DB8") && uiArmedInput2Hex == Some("#4DA3FF")
      ensures uiActiveHex == Some("#3DFF8B") && uiRunningHex == Some("#00FF6A") && uiClearHex == Some("#5A5A5A")
      ensures dropWatchFolder.None? && dropFolderEnabled && audioFolders == []
      ensures midiArmedInput1Value == 38 && midiArmedInput2Value == 48
      ensures pads == map[] && profileSwitch == null
    {
      uiArmedInput1Hex := Some("#FF4DB8");
      uiArmedInput2Hex := Some("#4DA3FF");
      uiActiveHex := Some("#3DFF8B");
      uiRunningHex := Some("#00FF6A");
      uiClearHex := Some("#5A5A5A");
      dropWatchFolder := None;
      dropFolderEnabled := true;
      audioFolders := [];
      midiArmedInput1Value := 38;
      midiArmedInput2Value := 48;
      pads := map[];
      profileSwitch := null;
    }

    /**
     * GetOrCreatePad: the stored entry when the index is present, otherwise
     * the default for the index, which is stored under it. Only `pads` may
     * change, and only at `index`.
     */
    method GetOrCreatePad(index: int) returns (ps: PadSettings)
      modifies this`pads
      ensures ps == PadOrDefault(old(pads), index) && pads == WithPad(old(pads), index)
      ensures index in old(pads) ==> ps == old(pads)[index] && pads == old(pads)
      ensures index !in old(pads) ==> ps == CreateDefault(index)
    {
      if index in pads {
        ps := pads[index];
      } else {
        ps := CreateDefault(index);
        pads := pads[index := ps];
      }
    }
  }
}
