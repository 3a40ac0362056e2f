// ProfileService: every operation loads profiles.json, works on the loaded
// store and saves it back when it changes something. `file` stands for the
// contents of profiles.json.
module ProfileServices {
  import opened Base
  import opened Text
  import opened Settings
  import opened Profiles
  import opened ProfileRules

  class ProfileService {
    var file: StoreFile

    constructor (file: StoreFile)
      ensures this.file == file
    {
      this.file := file;
    }

    /** SaveStore: normalises the store (the caller sees the normalised one) and writes it. */
    method SaveStore(s: ProfileStore) returns (normalized: ProfileStore)
      modifies this
      ensures normalized == Normalized(s) && file == Serialized(normalized)
    {
      normalized := NormalizeStore(s);
      file := Serialized(normalized);
    }

    /**
     * LoadStore: a missing or unreadable file, or one whose list holds a
     * null, gives a fresh store that is saved at once; a JSON null gives a
     * fresh store that is not saved; anything else is normalised in memory
     * and the file left as it is.
     */
    method LoadStore() returns (s: ProfileStore)
      modifies this
      ensures s == Loaded(old(file)) && file == AfterLoad(old(file))
      ensures IsNormal(s)
    {
      LoadedIsNormal(file);
      if RewritesOnLoad(file) {
        var initial := CreateFreshStore();
        s := SaveStore(initial);
      } else if file.content.None? {
        var initial := CreateFreshStore();
        s := NormalizeStore(initial);
      } else {
        s := NormalizeStore(StoreOf(file.content.value));
      }
    }

    /** GetActiveProfileIndex: the loaded store's active index, always in [1, 16]. */
    method GetActiveProfileIndex() returns (index: int)
      modifies this
      ensures index == Loaded(old(file)).activeProfileIndex && file == AfterLoad(old(file))
      ensures 1 <= index <= PROFILE_COUNT
    {
      var s := LoadStore();
      index := s.activeProfileIndex;
    }

    /** SetActiveProfileIndex: stores the clamped index. */
    method SetActiveProfileIndex(index: int)
      modifies this
      ensures file == Serialized(Normalized(Loaded(old(file)).(activeProfileIndex := ClampProfile(index))))
    {
      var s := LoadStore();
      s := s.(activeProfileIndex := ClampProfile(index));
      var _ := SaveStore(s);
    }

    /**
     * GetProfile: the profile with the clamped index. The loaded store
     * always has it, so the branch that creates a missing profile never
     * runs and nothing beyond the load is saved.
     */
    method GetProfile(index: int) returns (p: ProfileData)
      modifies this
      ensures Lookup(Loaded(old(file)), ClampProfile(index)) == Some(p)
      ensures p.profileIndex == ClampProfile(index) && p.pads.Some?
      ensures file == AfterLoad(old(file))
    {
      var s := LoadStore();
      var i := ClampProfile(index);
      LookupNormal(s, i);
      var pos := FirstPos(s.profiles.value, i).value;
      p := WithPads(s.profiles.value[pos]);
    }

    /** UpdateProfile: the clamped profile's name and pads replace the stored ones, and the store is saved. */
    method UpdateProfile(profile: ProfileData)
      modifies this
      ensures file == Serialized(Normalized(Updated(Loaded(old(file)), profile)))
    {
      var s := LoadStore();
      var q := WithPads(profile.(profileIndex := ClampProfile(profile.profileIndex)));
      var ps := s.profiles.value;
      var existing := FirstPos(ps, q.profileIndex);
      if existing.None? {
        ps := ps + [q];
      } else {
        ps := ps[existing.value := ps[existing.value].(name := q.name, pads := q.pads)];
      }
      var _ := SaveStore(s.(profiles := Some(ps)));
    }

    /** GetPadsForProfile: a copy of the profile's pads (empty when it has none). */
    method GetPadsForProfile(profileIndex: int) returns (pads: map<int, PadSettings>)
      modifies this
      ensures pads == PadsOrEmpty(Lookup(Loaded(old(file)), ClampProfile(profileIndex)))
      ensures file == AfterLoad(old(file))
    {
      var p := GetProfile(profileIndex);
      if p.pads.None? || |p.pads.value| == 0 {
        pads := map[];
      } else {
        pads := p.pads.value;
      }
    }

    /** EnsureSeedFromCurrentSettings: copies the current pads into an empty profile 1 and saves. */
    method EnsureSeedFromCurrentSettings(gs: GlobalSettings?)
      modifies this
      ensures file == SeedFile(old(file), if gs == null then None else Some(gs.pads))
    {
      ghost var f0 := file;
      var s := LoadStore();
      LookupNormal(s, 1);
      var ps := s.profiles.value;
      var pos := FirstPos(ps, 1).value;
      var p1 := WithPads(ps[pos]);
      if |p1.pads.value| == 0 && gs != null && |gs.pads| > 0 {
        ps := ps[pos := p1.(pads := Some(gs.pads))];
        assert ps == ProfilesOf(WithProfilePads(s, 1, gs.pads));
        var _ := SaveStore(s.(profiles := Some(ps)));
      }
    }

    /**
     * OverlayPadMapFromProfile1: after seeding, every pad of profile 1 lends
     * its trigger display (and hotkey with includeHotkeys) to the target's
     * pad of the same index, created by GetOrCreatePad when missing.
     */
    method OverlayPadMapFromProfile1(target: GlobalSettings?, includeHotkeys: bool)
      modifies this, (if target != null then {target} else {})`pads
      ensures target == null ==> file == old(file)
      ensures target != null ==>
        var seeded := SeedFile(old(file), Some(old(target.pads)));
        var src := Profile1Pads(Loaded(seeded));
        && file == AfterLoad(seeded)
        && target.pads == (if |src| == 0 then old(target.pads) else OverlaidOn(old(target.pads), src, src.Keys, includeHotkeys))
    {
      if target == null {
        return;
      }
      EnsureSeedFromCurrentSettings(target);
      var srcPads := GetPadsForProfile(1);
      if |srcPads| == 0 {
        return;
      }
      OverlayPads(target, srcPads, includeHotkeys);
    }

    /**
     * SyncProfileSwitchSlotsFromProfile1Pads: makes sure there are 16 slots,
     * seeds profile 1, then fills blank slot fields from profile 1's pads.
     */
    method SyncProfileSwitchSlotsFromProfile1Pads(gs: GlobalSettings?, includeHotkeys: bool)
      modifies this, gs, if gs != null then {gs.profileSwitch} else {}
      ensures gs == null ==> file == old(file)
      ensures gs != null ==>
        var seeded := SeedFile(old(file), Some(old(gs.pads)));
        var p1 := Profile1Pads(Loaded(seeded));
        var slots := EnsuredSlots(if old(gs.profileSwitch) == null then Some([]) else old(gs.profileSwitch.slots));
        && gs.profileSwitch != null
        && (old(gs.profileSwitch) != null ==> gs.profileSwitch == old(gs.profileSwitch))
        && file == AfterLoad(seeded)
        && gs.profileSwitch.slots == Some(if |p1| == 0 then slots else SyncedSlots(slots, p1, includeHotkeys))
      ensures gs != null ==> gs.pads == old(gs.pads)
    {
      if gs == null {
        return;
      }
      ghost var f0 := file;
      var sw := EnsureSwitch(gs);
      EnsureSeedFromCurrentSettings(gs);
      ghost var seeded := file;
      var p1Pads := GetPadsForProfile(1);
      assert p1Pads == Profile1Pads(Loaded(seeded));
      if |p1Pads| == 0 {
        return;
      }
      var slots := FillSlotsFromPads(sw.slots.value, p1Pads, includeHotkeys);
      sw.slots := Some(slots);
    }

    /**
     * SavePadsToProfile: the current pads become the profile's pads; with
     * preserve, pads the profile already stored keep its trigger display
     * and hotkey.
     */
    method SavePadsToProfile(gs: GlobalSettings?, profileIndex: int, preserveExistingMidiAndHotkeys: bool)
      modifies this
      ensures Lookup(Loaded(old(file)), ClampProfile(profileIndex)).Some?
      ensures var p := Lookup(Loaded(old(file)), ClampProfile(profileIndex)).value;
        var cloned := if gs != null then gs.pads else map[];
        var existing := p.pads.value;
        var pads := if preserveExistingMidiAndHotkeys && |existing| > 0 then PreservedOn(cloned, existing, existing.Keys) else cloned;
        p.pads.Some? && file == Serialized(Normalized(Updated(Loaded(old(file)), p.(pads := Some(pads)))))
    {
      ghost var f0 := file;
      var p := GetProfile(profileIndex);
      LoadStable(f0);
      var cloned := if gs != null then gs.pads else map[];
      if preserveExistingMidiAndHotkeys && |p.pads.value| > 0 {
        cloned := PreserveStored(cloned, p.pads.value);
      }
      p := p.(pads := Some(cloned));
      UpdateProfile(p);
    }

    /** ApplyProfileToSettings: the settings' pads become a copy of the profile's pads. */
    method ApplyProfileToSettings(gs: GlobalSettings, profileIndex: int)
      modifies this, gs`pads
      ensures gs.pads == PadsOrEmpty(Lookup(Loaded(old(file)), ClampProfile(profileIndex)))
      ensures file == AfterLoad(old(file))
    {
      var p := GetProfile(profileIndex);
      gs.pads := if p.pads.Some? then p.pads.value else map[];
    }
  }

  /** The `??=` that creates the profile-switch settings, followed by EnsureSlots. */
  method EnsureSwitch(gs: GlobalSettings) returns (sw: ProfileSwitchSettings)
    modifies gs, gs.profileSwitch
    ensures sw == gs.profileSwitch && gs.pads == old(gs.pads)
    ensures old(gs.profileSwitch) != null ==> sw == old(gs.profileSwitch)
    ensures old(gs.profileSwitch) == null ==> fresh(sw)
    ensures sw.slots == Some(EnsuredSlots(if old(gs.profileSwitch) == null then Some([]) else old(gs.profileSwitch.slots)))
  {
    if gs.profileSwitch == null {
      gs.profileSwitch := new ProfileSwitchSettings();
    }
    sw := gs.profileSwitch;
    sw.EnsureSlots();
  }

  /** One turn of the overlay loop: GetOrCreatePad then the two assignments extend the overlay by one key. */
  lemma OverlayStep(pads0: map<int, PadSettings>, src: map<int, PadSettings>, done: set<int>, k: int,
                    includeHotkeys: bool, before: map<int, PadSettings>, dst: PadSettings)
    requires done <= src.Keys && k in src && k !in done
    requires before == OverlaidOn(pads0, src, done, includeHotkeys)
    requires dst == PadOrDefault(before, k)
    ensures WithPad(before, k)[k := OverlayOne(dst, src[k], includeHotkeys)] == OverlaidOn(pads0, src, done + {k}, includeHotkeys)
  {
    assert dst == PadOrDefault(pads0, k);
  }

  /** The overlay loop: each pad of profile 1 through GetOrCreatePad, then its trigger display (and hotkey). */
  method OverlayPads(target: GlobalSettings, srcPads: map<int, PadSettings>, includeHotkeys: bool)
    modifies target`pads
    ensures target.pads == OverlaidOn(old(target.pads), srcPads, srcPads.Keys, includeHotkeys)
  {
    ghost var pads0 := target.pads;
    var remaining := srcPads.Keys;
    while exists k :: k in remaining
      invariant remaining <= srcPads.Keys
      invariant target.pads == OverlaidOn(pads0, srcPads, srcPads.Keys - remaining, includeHotkeys)
      decreases remaining
    {
      var padIndex :| padIndex in remaining;
      ghost var before := target.pads;
      var dst := target.GetOrCreatePad(padIndex);
      var src := srcPads[padIndex];
      target.pads := target.pads[padIndex := OverlayOne(dst, src, includeHotkeys)];
      OverlayStep(pads0, srcPads, srcPads.Keys - remaining, padIndex, includeHotkeys, before, dst);
      assert srcPads.Keys - (remaining - {padIndex}) == (srcPads.Keys - remaining) + {padIndex};
      remaining := remaining - {padIndex};
    }
  }

  /** The sync loop over slots 1..16 (and no further than the list goes). */
  method FillSlotsFromPads(slots0: seq<ProfileSlotBind>, p1Pads: map<int, PadSettings>, includeHotkeys: bool)
    returns (slots: seq<ProfileSlotBind>)
    ensures slots == SyncedSlots(slots0, p1Pads, includeHotkeys)
  {
    slots := slots0;
    var i := 1;
    while i <= SLOT_COUNT && i <= |slots|
      invariant 1 <= i <= SLOT_COUNT + 1 && i - 1 <= |slots| == |slots0|
      invariant forall j :: 0 <= j < i - 1 ==> slots[j] == SyncedSlots(slots0, p1Pads, includeHotkeys)[j]
      invariant forall j :: i - 1 <= j < |slots| ==> slots[j] == slots0[j]
    {
      if i in p1Pads {
        slots := slots[i - 1 := FillSlot(slots[i - 1], p1Pads[i], includeHotkeys)];
      }
      i := i + 1;
    }
  }

  /** The preserve loop: every stored pad that is also current gives back its trigger display and hotkey. */
  method PreserveStored(cloned0: map<int, PadSettings>, existing: map<int, PadSettings>) returns (cloned: map<int, PadSettings>)
    ensures cloned == PreservedOn(cloned0, existing, existing.Keys)
  {
    cloned := cloned0;
    var remaining := existing.Keys;
    while exists k :: k in remaining
      invariant PreservedSoFar(cloned, cloned0, existing, remaining)
      decreases remaining
    {
      var padIndex :| padIndex in remaining;
      var stored := existing[padIndex];
      ghost var before := cloned;
      if padIndex in cloned {
        cloned := cloned[padIndex := cloned[padIndex].(midiTriggerDisplay := stored.midiTriggerDisplay, padHotkey := stored.padHotkey)];
      }
      PreserveStep(before, cloned, cloned0, existing, remaining, padIndex);
      remaining := remaining - {padIndex};
    }
  }

  ghost predicate PreservedSoFar(cloned: map<int, PadSettings>, cloned0: map<int, PadSettings>,
                                 existing: map<int, PadSettings>, remaining: set<int>)
  {
    remaining <= existing.Keys && cloned == PreservedOn(cloned0, existing, existing.Keys - remaining)
  }

  lemma PreserveStep(before: map<int, PadSettings>, after: map<int, PadSettings>, cloned0: map<int, PadSettings>,
                     existing: map<int, PadSettings>, remaining: set<int>, k: int)
    requires PreservedSoFar(before, cloned0, existing, remaining) && k in remaining
    requires after == if k in before then
      before[k := before[k].(midiTriggerDisplay := existing[k].midiTriggerDisplay, padHotkey := existing[k].padHotkey)]
      else before
    ensures PreservedSoFar(after, cloned0, existing, remaining - {k})
  {
    assert existing.Keys - (remaining - {k}) == (existing.Keys - remaining) + {k};
  }
}
