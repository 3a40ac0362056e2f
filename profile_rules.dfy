// What ProfileService computes, as functions of the file's contents: the
// store a load yields, the file a save writes, a profile update, the
// profile-1 seed, the pad overlay, the slot fill and the preserve-on-save
// merge.
module ProfileRules {
  import opened Base
  import opened Text
  import opened Settings
  import opened Profiles

  /** profiles.json as ReadAllText and Deserialize see it; a `None` entry is a JSON null in the list. */
  datatype JsonStore = JsonStore(activeProfileIndex: int, profiles: Option<seq<Option<ProfileData>>>)

  /**
   * The file: absent, unreadable or not valid JSON (`Unreadable`, every
   * exception of the read and the parse), or JSON (`Json(None)` is the
   * literal `null`).
   */
  datatype StoreFile = Missing | Unreadable | Json(content: Option<JsonStore>)

  /** A null entry in the list makes NormalizeStore's `x.ProfileIndex` throw inside the try. */
  predicate HasNullEntry(j: JsonStore)
  {
    j.profiles.Some? && exists k :: 0 <= k < |j.profiles.value| && j.profiles.value[k].None?
  }

  function StoreOf(j: JsonStore): ProfileStore
    requires !HasNullEntry(j)
  {
    ProfileStore(j.activeProfileIndex,
      if j.profiles.None? then None
      else Some(seq(|j.profiles.value|, k requires 0 <= k < |j.profiles.value| => j.profiles.value[k].value)))
  }

  /** The file SaveStore writes for an (already normalised) store. */
  function Serialized(s: ProfileStore): StoreFile
  {
    Json(Some(JsonStore(s.activeProfileIndex,
      if s.profiles.None? then None
      else Some(seq(|s.profiles.value|, k requires 0 <= k < |s.profiles.value| => Some(s.profiles.value[k]))))))
  }

  /** Whether LoadStore falls back to a fresh store and saves it. */
  predicate RewritesOnLoad(f: StoreFile)
  {
    f.Missing? || f.Unreadable? || (f.Json? && f.content.Some? && HasNullEntry(f.content.value))
  }

  /** The store LoadStore returns. */
  function Loaded(f: StoreFile): ProfileStore
  {
    if RewritesOnLoad(f) then Normalized(FreshStore())
    else if f.content.None? then Normalized(FreshStore())
    else Normalized(StoreOf(f.content.value))
  }

  /** The file after LoadStore: rewritten with a fresh store on the fallback paths, otherwise untouched. */
  function AfterLoad(f: StoreFile): StoreFile
  {
    if RewritesOnLoad(f) then Serialized(Loaded(f)) else f
  }

  /** Every load yields a store in normal form. */
  lemma LoadedIsNormal(f: StoreFile)
    ensures IsNormal(Loaded(f))
  {
    if RewritesOnLoad(f) || f.content.None? {
      NormalizedIsNormal(FreshStore());
    } else {
      NormalizedIsNormal(StoreOf(f.content.value));
    }
  }

  /** Loading what SaveStore wrote gives back the normalised store, and does not rewrite the file. */
  lemma SaveLoadRoundTrip(s: ProfileStore)
    ensures !RewritesOnLoad(Serialized(Normalized(s)))
    ensures Loaded(Serialized(Normalized(s))) == Normalized(s)
    ensures AfterLoad(Serialized(Normalized(s))) == Serialized(Normalized(s))
  {
    var n := Normalized(s);
    var j := Serialized(n).content.value;
    NormalizedIsNormal(s);
    assert !HasNullEntry(j);
    assert StoreOf(j).profiles.value == n.profiles.value;
    NormalizedIdempotent(s);
  }

  /** A load followed by another load: the second one sees the same store and changes nothing more. */
  lemma LoadStable(f: StoreFile)
    ensures Loaded(AfterLoad(f)) == Loaded(f)
    ensures AfterLoad(AfterLoad(f)) == AfterLoad(f)
  {
    if RewritesOnLoad(f) {
      SaveLoadRoundTrip(FreshStore());
    }
  }

  /** The profile with index i, pad map filled in, as GetProfile returns it. */
  function Lookup(s: ProfileStore, i: int): Option<ProfileData>
  {
    var pos := FirstPos(ProfilesOf(s), i);
    if pos.Some? then Some(WithPads(ProfilesOf(s)[pos.value])) else None
  }

  /** A normal store has every profile 1..16. */
  lemma LookupNormal(s: ProfileStore, i: int)
    requires IsNormal(s) && 1 <= i <= PROFILE_COUNT
    ensures Lookup(s, i).Some? && Lookup(s, i).value.profileIndex == i && Lookup(s, i).value.pads.Some?
  {
  }

  function PadsOrEmpty(p: Option<ProfileData>): map<int, PadSettings>
  {
    if p.Some? && p.value.pads.Some? then p.value.pads.value else map[]
  }

  /** UpdateProfile on a loaded store: the clamped profile's name and pads replace the stored ones. */
  function Updated(s: ProfileStore, profile: ProfileData): ProfileStore
  {
    var q := WithPads(profile.(profileIndex := ClampProfile(profile.profileIndex)));
    var ps := ProfilesOf(s);
    var pos := FirstPos(ps, q.profileIndex);
    if pos.None? then s.(profiles := Some(ps + [q]))
    else s.(profiles := Some(ps[pos.value := ps[pos.value].(name := q.name, pads := q.pads)]))
  }

  /** FirstPos looks only at the indices. */
  lemma {:induction false} FirstPosSameIndices(a: seq<ProfileData>, b: seq<ProfileData>, i: int)
    requires |a| == |b| && forall k :: 0 <= k < |a| ==> a[k].profileIndex == b[k].profileIndex
    ensures FirstPos(a, i) == FirstPos(b, i)
  {
    if a != [] && a[0].profileIndex != i {
      FirstPosSameIndices(a[1..], b[1..], i);
    }
  }

  /**
   * An update, saved and loaded again, is what a later GetProfile of the
   * clamped index returns (its name and its pads, an absent map becoming
   * empty), and every other index still returns what it did before.
   */
  lemma UpdateThenLookup(s: ProfileStore, profile: ProfileData, i: int)
    requires IsNormal(s)
    ensures var after := Loaded(Serialized(Normalized(Updated(s, profile))));
      var c := ClampProfile(profile.profileIndex);
      && Lookup(after, c) == Some(ProfileData(c, profile.name, Some(if profile.pads.Some? then profile.pads.value else map[])))
      && (i != c ==> Lookup(after, i) == Lookup(s, i))
  {
    var c := ClampProfile(profile.profileIndex);
    var u := Updated(s, profile);
    UpdatedInPlace(s, profile);
    NormalIdentity(u);
    SaveLoadRoundTrip(u);
    FirstPosSameIndices(s.profiles.value, u.profiles.value, i);
    FirstPosSameIndices(s.profiles.value, u.profiles.value, c);
  }

  /** On a normal store the update rewrites the clamped profile in place, which keeps the store normal. */
  lemma UpdatedInPlace(s: ProfileStore, profile: ProfileData)
    requires IsNormal(s)
    ensures var c := ClampProfile(profile.profileIndex);
      var ps := s.profiles.value;
      var pos := FirstPos(ps, c).value;
      && Updated(s, profile).profiles == Some(ps[pos := ps[pos].(name := profile.name, pads := Some(if profile.pads.Some? then profile.pads.value else map[]))])
      && Updated(s, profile).activeProfileIndex == s.activeProfileIndex
      && IsNormal(Updated(s, profile))
  {
    var c := ClampProfile(profile.profileIndex);
    var ps := s.profiles.value;
    var u := Updated(s, profile);
    var pos := FirstPos(ps, c).value;
    var ups := u.profiles.value;
    assert ups == ps[pos := ps[pos].(name := profile.name, pads := Some(if profile.pads.Some? then profile.pads.value else map[]))];
    forall j | 1 <= j <= PROFILE_COUNT ensures HasIndex(ups, j) {
      assert HasIndex(ps, j);
      var k :| 0 <= k < |ps| && ps[k].profileIndex == j;
      assert ups[k].profileIndex == j;
    }
  }

  /** Profile 1's stored pad map, empty when absent. */
  function Profile1Pads(s: ProfileStore): map<int, PadSettings>
  {
    PadsOrEmpty(Lookup(s, 1))
  }

  /** EnsureSeedFromCurrentSettings seeds only when profile 1 has no pads and the settings have some. */
  predicate SeedApplies(s: ProfileStore, current: Option<map<int, PadSettings>>)
  {
    |Profile1Pads(s)| == 0 && current.Some? && |current.value| > 0
  }

  /** The store with profile i's pad map replaced. */
  function WithProfilePads(s: ProfileStore, i: int, pads: map<int, PadSettings>): ProfileStore
  {
    var ps := ProfilesOf(s);
    var pos := FirstPos(ps, i);
    if pos.None? then s else s.(profiles := Some(ps[pos.value := ps[pos.value].(pads := Some(pads))]))
  }

  /** The file after EnsureSeedFromCurrentSettings; `current` is None when there are no settings. */
  function SeedFile(f: StoreFile, current: Option<map<int, PadSettings>>): StoreFile
  {
    var s := Loaded(f);
    if SeedApplies(s, current) then Serialized(Normalized(WithProfilePads(s, 1, current.value)))
    else AfterLoad(f)
  }

  /**
   * Seeding copies the current pads into profile 1 exactly when profile 1
   * had none and the settings have some; otherwise profile 1 keeps its pads.
   * The other profiles are never touched.
   */
  lemma SeedEffect(f: StoreFile, current: Option<map<int, PadSettings>>, i: int)
    ensures var after := Loaded(SeedFile(f, current));
      && Profile1Pads(after) == (if SeedApplies(Loaded(f), current) then current.value else Profile1Pads(Loaded(f)))
      && (i != 1 ==> Lookup(after, i) == Lookup(Loaded(f), i))
  {
    LoadedIsNormal(f);
    if SeedApplies(Loaded(f), current) {
      SeededLookup(Loaded(f), current.value, i);
    } else {
      LoadStable(f);
    }
  }

  /** The seeded store, saved and loaded again: profile 1 holds the pads, the others are untouched. */
  lemma SeededLookup(s: ProfileStore, pads: map<int, PadSettings>, i: int)
    requires IsNormal(s)
    ensures var after := Loaded(Serialized(Normalized(WithProfilePads(s, 1, pads))));
      && Profile1Pads(after) == pads
      && (i != 1 ==> Lookup(after, i) == Lookup(s, i))
  {
    LookupNormal(s, 1);
    var p1 := Lookup(s, 1).value;
    var q := ProfileData(1, p1.name, Some(pads));
    var ps := s.profiles.value;
    var pos := FirstPos(ps, 1).value;
    assert WithProfilePads(s, 1, pads) == Updated(s, q) by {
      assert ps[pos].name == p1.name;
      assert ps[pos].(pads := Some(pads)) == ps[pos].(name := p1.name, pads := Some(pads));
    }
    UpdateThenLookup(s, q, i);
    UpdateThenLookup(s, q, 1);
  }

  /** One overlaid pad: the trigger display from profile 1, and the hotkey too when asked. */
  function OverlayOne(dst: PadSettings, src: PadSettings, includeHotkeys: bool): PadSettings
  {
    dst.(midiTriggerDisplay := src.midiTriggerDisplay,
         padHotkey := if includeHotkeys then src.padHotkey else dst.padHotkey)
  }

  /** The target pads after overlaying the keys in `done` from `src`, each through GetOrCreatePad. */
  function OverlaidOn(pads: map<int, PadSettings>, src: map<int, PadSettings>, done: set<int>, includeHotkeys: bool): map<int, PadSettings>
    requires done <= src.Keys
  {
    map k | k in pads.Keys + done :: if k in done then OverlayOne(PadOrDefault(pads, k), src[k], includeHotkeys) else pads[k]
  }

  /**
   * The overlay changes only the trigger display (and the hotkey with
   * includeHotkeys) of the pads profile 1 has, creating default pads for
   * the ones the target lacks; every other field and every other pad is
   * left as it was.
   */
  lemma OverlayEffect(pads: map<int, PadSettings>, src: map<int, PadSettings>, includeHotkeys: bool, k: int)
    ensures var r := OverlaidOn(pads, src, src.Keys, includeHotkeys);
      && r.Keys == pads.Keys + src.Keys
      && (k !in src ==> k in pads ==> r[k] == pads[k])
      && (k in src ==> r[k].midiTriggerDisplay == src[k].midiTriggerDisplay)
      && (k in src ==> r[k].padHotkey == (if includeHotkeys then src[k].padHotkey else PadOrDefault(pads, k).padHotkey))
      && (k in src ==> r[k].(midiTriggerDisplay := PadOrDefault(pads, k).midiTriggerDisplay,
                               padHotkey := PadOrDefault(pads, k).padHotkey) == PadOrDefault(pads, k))
  {
  }

  /** The trigger display, hotkey and name a slot gets from pad settings: only blank fields, only from non-blank values. */
  function FillSlot(slot: ProfileSlotBind, ps: PadSettings, includeHotkeys: bool): ProfileSlotBind
  {
    ProfileSlotBind(
      if IsBlank(slot.midiBind) && !IsBlank(ps.midiTriggerDisplay) then ps.midiTriggerDisplay else slot.midiBind,
      if includeHotkeys && IsBlank(slot.hotkeyBind) && !IsBlank(ps.padHotkey) then ps.padHotkey else slot.hotkeyBind,
      if IsBlank(slot.name) && !IsBlank(ps.padName) then ps.padName else slot.name)
  }

  /**
   * The slot fill never overwrites: a non-blank field stays, a blank one
   * takes the pad's value when that is not blank, the hotkey only with
   * includeHotkeys; a second fill from the same pad changes nothing.
   */
  lemma FillSlotNeverOverwrites(slot: ProfileSlotBind, ps: PadSettings, includeHotkeys: bool)
    ensures var r := FillSlot(slot, ps, includeHotkeys);
      && (!IsBlank(slot.midiBind) ==> r.midiBind == slot.midiBind)
      && (!IsBlank(slot.hotkeyBind) || !includeHotkeys ==> r.hotkeyBind == slot.hotkeyBind)
      && (!IsBlank(slot.name) ==> r.name == slot.name)
      && (IsBlank(slot.midiBind) && !IsBlank(ps.midiTriggerDisplay) ==> r.midiBind == ps.midiTriggerDisplay)
      && (includeHotkeys && IsBlank(slot.hotkeyBind) && !IsBlank(ps.padHotkey) ==> r.hotkeyBind == ps.padHotkey)
      && (IsBlank(slot.name) && !IsBlank(ps.padName) ==> r.name == ps.padName)
      && (IsBlank(r.midiBind) <==> IsBlank(slot.midiBind) && IsBlank(ps.midiTriggerDisplay))
      && FillSlot(r, ps, includeHotkeys) == r
  {
  }

  /** The slot list after the sync loop: slot i (1..16) filled from profile 1's pad i, when there is one. */
  function SyncedSlots(slots: seq<ProfileSlotBind>, pads: map<int, PadSettings>, includeHotkeys: bool): (r: seq<ProfileSlotBind>)
    ensures |r| == |slots|
  {
    seq(|slots|, j requires 0 <= j < |slots| =>
      if j < SLOT_COUNT && j + 1 in pads then FillSlot(slots[j], pads[j + 1], includeHotkeys) else slots[j])
  }

  /** The pads SavePadsToProfile stores when preserving, from the keys of `existing` merged so far. */
  function PreservedOn(cloned: map<int, PadSettings>, existing: map<int, PadSettings>, done: set<int>): map<int, PadSettings>
    requires done <= existing.Keys
  {
    map k | k in cloned :: if k in done then
      cloned[k].(midiTriggerDisplay := existing[k].midiTriggerDisplay, padHotkey := existing[k].padHotkey)
    else cloned[k]
  }

  /**
   * Preserve-on-save: the saved pads are exactly the current ones, except
   * that a pad the profile already stored keeps the stored trigger display
   * and hotkey; no pad of the profile alone comes back.
   */
  lemma PreservedEffect(cloned: map<int, PadSettings>, existing: map<int, PadSettings>, k: int)
    ensures var r := PreservedOn(cloned, existing, existing.Keys);
      && r.Keys == cloned.Keys
      && (k in cloned && k in existing ==>
            r[k].midiTriggerDisplay == existing[k].midiTriggerDisplay && r[k].padHotkey == existing[k].padHotkey
            && r[k].(midiTriggerDisplay := cloned[k].midiTriggerDisplay, padHotkey := cloned[k].padHotkey) == cloned[k])
      && (k in cloned && k !in existing ==> r[k] == cloned[k])
  {
  }
}
