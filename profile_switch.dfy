// The main window's SwitchToProfile: stop every pad, save the pads into the
// profile being left, make the target active, bring its pads into the
// settings (with profile 1's trigger map laid over them when the link mode
// asks for it), and hydrate the pads again from what was saved.
module ProfileSwitching {
  import opened Base
  import opened Settings
  import PadModels
  import opened Profiles
  import opened ProfileRules
  import opened ProfileServices
  import opened MainWindowRules

  /** The hard stop of one pad: not busy, Loaded or Armed/Empty by its clip and echo mode, playhead at the start. */
  function StoppedForSwitch(v: PadModels.PadValues, fileExists: string -> bool): PadModels.PadValues
  {
    v.(isBusy := false,
       state := if HasFile(v.clipPath, fileExists) then PadModels.Loaded else if v.isEchoMode then PadModels.Armed else PadModels.Empty,
       playheadMs := v.startMs)
  }

  function StoppedAll(pads: seq<PadModels.PadValues>, fileExists: string -> bool): (r: seq<PadModels.PadValues>)
    ensures |r| == |pads|
    ensures forall i :: 0 <= i < |pads| ==> r[i] == StoppedForSwitch(pads[i], fileExists)
  {
    seq(|pads|, i requires 0 <= i < |pads| => StoppedForSwitch(pads[i], fileExists))
  }

  /** profiles.json after SavePadsToProfile(gs, index): the profile's pads replaced by the current ones. */
  function SavedPadsFile(f: StoreFile, current: map<int, PadSettings>, index: int): StoreFile
  {
    LoadedIsNormal(f);
    LookupNormal(Loaded(f), ClampProfile(index));
    var p := Lookup(Loaded(f), ClampProfile(index)).value;
    Serialized(Normalized(Updated(Loaded(f), p.(pads := Some(current)))))
  }

  /** profiles.json after SetActiveProfileIndex(index). */
  function ActiveSetFile(f: StoreFile, index: int): StoreFile
  {
    Serialized(Normalized(Loaded(f).(activeProfileIndex := ClampProfile(index))))
  }

  /**
   * The overlay the link flags ask for: None for no overlay, otherwise
   * whether hotkeys come along. With both flags set the MIDI-only flag is
   * dropped, so the one with hotkeys wins.
   */
  function OverlayChoice(sameMidi: bool, sameMidiAndHotkeys: bool): (r: Option<bool>)
    ensures r.None? <==> !sameMidi && !sameMidiAndHotkeys
    ensures r.Some? ==> r.value == sameMidiAndHotkeys
  {
    var lockMidi := sameMidi && !sameMidiAndHotkeys;
    if lockMidi || sameMidiAndHotkeys then Some(sameMidiAndHotkeys) else None
  }

  function OverlayOf(sw: ProfileSwitchSettings?): Option<bool>
    reads sw
  {
    OverlayChoice(sw != null && sw.padsMidiSameAsProfile1, sw != null && sw.padsMidiAndHotkeysSameAsProfile1)
  }

  /** The settings' pads after the switch to profile t, and the profiles.json left behind. */
  datatype Switched = Switched(pads: map<int, PadSettings>, file: StoreFile)

  function SwitchedSettings(f: StoreFile, current: map<int, PadSettings>, active: int, t: int, overlay: Option<bool>): Switched
  {
    AppliedAndOverlaid(ActiveSetFile(SavedPadsFile(f, current, active), t), t, overlay)
  }

  /** Steps 4 and 5 on profiles.json `f2`: profile t's pads into the settings, then the overlay. */
  function AppliedAndOverlaid(f2: StoreFile, t: int, overlay: Option<bool>): Switched
  {
    var applied := PadsOrEmpty(Lookup(Loaded(f2), t));
    if overlay.None? then Switched(applied, AfterLoad(f2))
    else OverlaidFromProfile1(AfterLoad(f2), applied, overlay.value)
  }

  /** OverlayPadMapFromProfile1 on profiles.json `f3` and the pads `applied`: seed, then overlay profile 1's pads. */
  function OverlaidFromProfile1(f3: StoreFile, applied: map<int, PadSettings>, includeHotkeys: bool): Switched
  {
    var seeded := SeedFile(f3, Some(applied));
    var src := Profile1Pads(Loaded(seeded));
    Switched(if |src| == 0 then applied else OverlaidOn(applied, src, src.Keys, includeHotkeys), AfterLoad(seeded))
  }

  /** Steps 2 to 5 of the switch: save the current pads, set the active profile, apply it, overlay. */
  method SwitchStore(svc: ProfileService, disk: GlobalSettings, active: int, t: int)
    requires 1 <= active <= PROFILE_COUNT && 1 <= t <= PROFILE_COUNT
    modifies svc, disk`pads
    ensures Switched(disk.pads, svc.file) == SwitchedSettings(old(svc.file), old(disk.pads), active, t, old(OverlayOf(disk.profileSwitch)))
  {
    ghost var f0 := svc.file;
    ghost var current := disk.pads;
    ghost var ov := OverlayOf(disk.profileSwitch);
    svc.SavePadsToProfile(disk, active, false);
    assert svc.file == SavedPadsFile(f0, current, active);
    svc.SetActiveProfileIndex(t);
    ghost var f2 := svc.file;
    assert f2 == ActiveSetFile(SavedPadsFile(f0, current, active), t);
    assert OverlayOf(disk.profileSwitch) == ov;
    ApplyAndOverlay(svc, disk, t);
    assert Switched(disk.pads, svc.file) == AppliedAndOverlaid(f2, t, ov);
  }

  /** Steps 4 and 5: ApplyProfileToSettings, then the overlay the link flags ask for. */
  method ApplyAndOverlay(svc: ProfileService, disk: GlobalSettings, t: int)
    requires 1 <= t <= PROFILE_COUNT
    modifies svc, disk`pads
    ensures Switched(disk.pads, svc.file) == AppliedAndOverlaid(old(svc.file), t, old(OverlayOf(disk.profileSwitch)))
  {
    ghost var f2 := svc.file;
    svc.ApplyProfileToSettings(disk, t);
    ghost var applied := disk.pads;
    assert applied == PadsOrEmpty(Lookup(Loaded(f2), t));
    var overlay := OverlayOf(disk.profileSwitch);
    if overlay.Some? {
      svc.OverlayPadMapFromProfile1(disk, overlay.value);
      assert Switched(disk.pads, svc.file) == OverlaidFromProfile1(AfterLoad(f2), applied, overlay.value);
    }
  }

  /**
   * SwitchToProfile. `disk` stands for settings.json (both of the switch's
   * loads read the same contents, and the save writes it back); `runtime`
   * is the window's GlobalSettings, whose pads are reloaded from it and
   * then hydrated.
   */
  method SwitchToProfile(newIndex: int, blocked: bool, active: int, svc: ProfileService, disk: GlobalSettings,
                         runtime: GlobalSettings, pads: seq<PadModels.PadValues>, fileExists: string -> bool, durationOf: string -> int)
    returns (newActive: int, newPads: seq<PadModels.PadValues>)
    requires 1 <= active <= PROFILE_COUNT
    requires runtime != disk
    modifies svc, disk`pads, runtime`pads
    ensures SwitchTarget(newIndex, active, blocked).None? ==>
      newActive == active && newPads == pads && svc.file == old(svc.file)
      && disk.pads == old(disk.pads) && runtime.pads == old(runtime.pads)
    ensures SwitchTarget(newIndex, active, blocked).Some? ==>
      var t := SwitchTarget(newIndex, active, blocked).value;
      var sw := SwitchedSettings(old(svc.file), old(disk.pads), active, t, old(OverlayOf(disk.profileSwitch)));
      && newActive == t
      && svc.file == sw.file
      && disk.pads == sw.pads
      && Hydration(newPads, runtime.pads) == HydrateAll(StoppedAll(pads, fileExists), sw.pads, fileExists, durationOf)
  {
    newActive, newPads := active, pads;
    var target := SwitchTarget(newIndex, active, blocked);
    if target.None? {
      return;
    }
    var t := target.value;
    newActive := t;
    var stopped := StoppedAll(pads, fileExists);
    ghost var f0, current := svc.file, disk.pads;
    ghost var ov := OverlayOf(disk.profileSwitch);
    SwitchStore(svc, disk, active, t);
    ghost var sw := SwitchedSettings(f0, current, active, t, ov);
    ghost var saved := disk.pads;
    assert saved == sw.pads;
    runtime.pads := disk.pads;
    newPads := HydratePads(stopped, runtime, fileExists, durationOf);
    assert disk.pads == saved;
  }

  /**
   * The switch hands back no playing pad: every pad ends Loaded when its
   * clip is present and Armed or Empty by echo mode otherwise, its playhead
   * at the start of its trim window. The 16 pads have distinct indices.
   */
  lemma SwitchStopsEverything(pads: seq<PadModels.PadValues>, settings: map<int, PadSettings>, fileExists: string -> bool, durationOf: string -> int)
    requires DistinctIndices(pads)
    ensures var h := HydrateAll(StoppedAll(pads, fileExists), settings, fileExists, durationOf);
      && |h.pads| == |pads|
      && forall i :: 0 <= i < |pads| ==>
        && h.pads[i].index == pads[i].index
        && h.pads[i].state != PadModels.Playing
        && h.pads[i].playheadMs == h.pads[i].startMs
        && (HasFile(PadOrDefault(settings, pads[i].index).clipPath, fileExists) <==> h.pads[i].state == PadModels.Loaded)
  {
    var stopped := StoppedAll(pads, fileExists);
    assert DistinctIndices(stopped);
    HydrateAllPads(stopped, settings, fileExists, durationOf);
    forall i | 0 <= i < |pads|
      ensures HydratedPad(stopped[i], PadOrDefault(settings, pads[i].index), fileExists, durationOf).state != PadModels.Playing
    {
      HydratedPadRules(stopped[i], PadOrDefault(settings, pads[i].index), fileExists, durationOf);
    }
  }

  /** SavePadsToProfile, loaded again: the profile holds the current pads and every other profile is as it was. */
  lemma SavedPadsLookup(f: StoreFile, current: map<int, PadSettings>, active: int, i: int)
    requires 1 <= active <= PROFILE_COUNT
    ensures var after := Loaded(SavedPadsFile(f, current, active));
      && PadsOrEmpty(Lookup(after, active)) == current
      && (i != active ==> Lookup(after, i) == Lookup(Loaded(f), i))
  {
    var s0 := Loaded(f);
    LoadedIsNormal(f);
    LookupNormal(s0, active);
    var p := Lookup(s0, active).value;
    UpdateThenLookup(s0, p.(pads := Some(current)), i);
    UpdateThenLookup(s0, p.(pads := Some(current)), active);
  }

  /** SetActiveProfileIndex, loaded again: the active index is the new one and every profile is as it was. */
  lemma ActiveSetLookup(f: StoreFile, t: int, i: int)
    requires 1 <= t <= PROFILE_COUNT
    ensures Loaded(ActiveSetFile(f, t)).activeProfileIndex == t
    ensures Lookup(Loaded(ActiveSetFile(f, t)), i) == Lookup(Loaded(f), i)
  {
    var s1 := Loaded(f);
    LoadedIsNormal(f);
    var s2 := s1.(activeProfileIndex := t);
    assert IsNormal(s2);
    NormalIdentity(s2);
    SaveLoadRoundTrip(s2);
  }

  /**
   * What the switch does to profiles.json before any overlay: the target is
   * the active profile, the profile being left holds the pads that were
   * current, and the target and every other profile keep what they stored.
   */
  lemma SwitchProfileContents(f: StoreFile, current: map<int, PadSettings>, active: int, t: int, i: int)
    requires 1 <= active <= PROFILE_COUNT && 1 <= t <= PROFILE_COUNT
    ensures var after := Loaded(ActiveSetFile(SavedPadsFile(f, current, active), t));
      && after.activeProfileIndex == t
      && PadsOrEmpty(Lookup(after, active)) == current
      && (i != active ==> Lookup(after, i) == Lookup(Loaded(f), i))
  {
    SavedPadsLookup(f, current, active, i);
    ActiveSetLookup(SavedPadsFile(f, current, active), t, i);
    ActiveSetLookup(SavedPadsFile(f, current, active), t, active);
  }

  /**
   * Switching away and straight back without an overlay: the pads that were
   * current when the first switch began come back into the settings.
   */
  lemma SwitchBackRestores(f: StoreFile, current: map<int, PadSettings>, active: int, t: int, elsewhere: map<int, PadSettings>)
    requires 1 <= active <= PROFILE_COUNT && 1 <= t <= PROFILE_COUNT && t != active
    ensures var there := SwitchedSettings(f, current, active, t, None);
      SwitchedSettings(there.file, elsewhere, t, active, None).pads == current
  {
    var f2 := ActiveSetFile(SavedPadsFile(f, current, active), t);
    SwitchProfileContents(f, current, active, t, active);
    var there := SwitchedSettings(f, current, active, t, None);
    LoadStable(f2);
    SwitchProfileContents(there.file, elsewhere, t, active, active);
  }
}
