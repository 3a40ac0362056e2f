// The main window's own rules around pads and profiles: hydrating the pads
// from the persisted settings, the MIDI pad-trigger debounce, and stepping
// and switching between the 16 profiles.
module MainWindowRules {
  import opened Base
  import opened Text
  import opened Settings
  import opened PadModels
  import opened PadControl
  import opened Locks

  // ------------------------------------------------------------------ hydration

  /** The clip counts as present only when the path is not blank and the file exists. */
  predicate HasFile(path: Option<string>, fileExists: string -> bool)
  {
    !IsBlank(path) && fileExists(path.value)
  }

  /**
   * One pad after HydratePadsFromSettings: the persisted values with their
   * safety rules (input source at least 1, echo off when drop-folder mode
   * is on, the trim window clamped into a present clip), the clip's
   * duration, a state that never overrides Playing, and the playhead
   * snapped to the start unless the pad is playing. `durationOf` is the
   * duration in ticks the audio library reads from a file.
   */
  function HydratedPad(v: PadValues, ps: PadSettings, fileExists: string -> bool, durationOf: string -> int): PadValues
  {
    var echo := ps.isEchoMode && !ps.isDropFolderMode;
    var hasFile := HasFile(ps.clipPath, fileExists);
    var duration := if hasFile then durationOf(ps.clipPath.value) else 0;
    var total := DivTrunc(duration, TICKS_PER_MS);
    var clampTrim := hasFile && total > 0;
    var end := if clampTrim && (ps.endMs <= 0 || ps.endMs > total) then total else ps.endMs;
    var start1 := if clampTrim && ps.startMs < 0 then 0 else ps.startMs;
    var start := if clampTrim && start1 > end then end else start1;
    var state :=
      if hasFile then (if v.state != Playing && v.state != Loaded then Loaded else v.state)
      else if v.state != Playing then (if echo then Armed else Empty)
      else v.state;
    v.(clipPath := ps.clipPath, startMs := start, endMs := end, padName := ps.padName,
       inputSource := InputSourceOf(if ps.inputSource <= 0 then 1 else ps.inputSource),
       previewToMonitor := ps.previewToMonitor, isDropFolderMode := ps.isDropFolderMode, isEchoMode := echo,
       clipDuration := duration, state := state, playheadMs := if state != Playing then start else v.playheadMs)
  }

  /** The stored pad after hydration: echo mode is cleared when drop-folder mode is also set. */
  function HydratedSettings(ps: PadSettings): PadSettings
  {
    if ps.isDropFolderMode && ps.isEchoMode then ps.(isEchoMode := false) else ps
  }

  /**
   * Hydration of one pad keeps what the window relies on: the input source
   * in [1, 2], never both echo and drop-folder mode, a trim window
   * 0 <= start <= end <= total inside a present clip of positive length (a
   * stored end that is <= 0 or beyond the clip becomes the clip's end, a
   * stored window that already fits is kept), Playing never overridden, a
   * present clip Loaded otherwise, an absent one Armed or Empty by echo
   * mode, and the playhead at the start of a pad that is not playing.
   */
  lemma HydratedPadRules(v: PadValues, ps: PadSettings, fileExists: string -> bool, durationOf: string -> int)
    ensures var r := HydratedPad(v, ps, fileExists, durationOf);
      && 1 <= r.inputSource <= 2
      && (1 <= ps.inputSource <= 2 ==> r.inputSource == ps.inputSource)
      && !(r.isEchoMode && r.isDropFolderMode)
      && r.isEchoMode == (ps.isEchoMode && !ps.isDropFolderMode)
      && r.index == v.index && r.clipPath == ps.clipPath && r.padName == ps.padName
      && (v.state == Playing <==> r.state == Playing)
      && (HasFile(ps.clipPath, fileExists) && v.state != Playing ==> r.state == Loaded)
      && (!HasFile(ps.clipPath, fileExists) && v.state != Playing ==> r.state == (if r.isEchoMode then Armed else Empty))
      && (r.state != Playing ==> r.playheadMs == r.startMs)
      && (!HasFile(ps.clipPath, fileExists) ==> r.clipDuration == 0 && r.startMs == ps.startMs && r.endMs == ps.endMs)
  {
  }

  /** The trim window after hydration of a present clip of positive length. */
  lemma HydratedTrimWindow(v: PadValues, ps: PadSettings, fileExists: string -> bool, durationOf: string -> int)
    requires HasFile(ps.clipPath, fileExists)
    requires DivTrunc(durationOf(ps.clipPath.value), TICKS_PER_MS) > 0
    ensures var r := HydratedPad(v, ps, fileExists, durationOf);
      var total := DivTrunc(durationOf(ps.clipPath.value), TICKS_PER_MS);
      && r.clipDuration == durationOf(ps.clipPath.value)
      && 0 <= r.startMs <= r.endMs <= total
      && (ps.endMs <= 0 || ps.endMs > total ==> r.endMs == total)
      && (0 < ps.endMs <= total ==> r.endMs == ps.endMs)
      && (0 <= ps.startMs <= r.endMs ==> r.startMs == ps.startMs)
  {
  }

  datatype Hydration = Hydration(pads: seq<PadValues>, settings: map<int, PadSettings>)

  /** The pads and the settings' pad dictionary after hydrating `pads` in order. */
  function HydrateAll(pads: seq<PadValues>, m: map<int, PadSettings>, fileExists: string -> bool, durationOf: string -> int): Hydration
  {
    if pads == [] then Hydration([], m)
    else
      var h := HydrateAll(pads[..|pads| - 1], m, fileExists, durationOf);
      var v := pads[|pads| - 1];
      var ps := PadOrDefault(h.settings, v.index);
      Hydration(h.pads + [HydratedPad(v, ps, fileExists, durationOf)], h.settings[v.index := HydratedSettings(ps)])
  }

  function Indices(pads: seq<PadValues>): set<int>
  {
    set i | 0 <= i < |pads| :: pads[i].index
  }

  predicate DistinctIndices(pads: seq<PadValues>)
  {
    forall i, j :: 0 <= i < j < |pads| ==> pads[i].index != pads[j].index
  }

  lemma IndicesSnoc(pads: seq<PadValues>)
    requires pads != []
    ensures Indices(pads) == Indices(pads[..|pads| - 1]) + {pads[|pads| - 1].index}
  {
    var init := pads[..|pads| - 1];
    forall k | k in Indices(pads)
      ensures k in Indices(init) + {pads[|pads| - 1].index}
    {
      var i :| 0 <= i < |pads| && pads[i].index == k;
      if i < |init| {
        assert init[i].index == k;
      }
    }
  }

  /** Hydration leaves the entry of an index none of the pads has as it was. */
  lemma {:induction false} HydrateAllElsewhere(pads: seq<PadValues>, m: map<int, PadSettings>, fileExists: string -> bool, durationOf: string -> int, k: int)
    requires k !in Indices(pads)
    ensures PadOrDefault(HydrateAll(pads, m, fileExists, durationOf).settings, k) == PadOrDefault(m, k)
  {
    if pads != [] {
      IndicesSnoc(pads);
      HydrateAllElsewhere(pads[..|pads| - 1], m, fileExists, durationOf, k);
    }
  }

  /**
   * Over pads with distinct indices (the window's 16), the dictionary gains
   * exactly the missing indices, each of the pads' entries has echo cleared
   * under drop-folder mode, and every other entry is left alone.
   */
  lemma {:induction false} HydrateAllSettings(pads: seq<PadValues>, m: map<int, PadSettings>, fileExists: string -> bool, durationOf: string -> int)
    requires DistinctIndices(pads)
    ensures var h := HydrateAll(pads, m, fileExists, durationOf);
      && h.settings.Keys == m.Keys + Indices(pads)
      && (forall i :: 0 <= i < |pads| ==> h.settings[pads[i].index] == HydratedSettings(PadOrDefault(m, pads[i].index)))
      && (forall k :: k in m && k !in Indices(pads) ==> h.settings[k] == m[k])
  {
    if pads != [] {
      var init := pads[..|pads| - 1];
      var v := pads[|pads| - 1];
      assert DistinctIndices(init);
      HydrateAllSettings(init, m, fileExists, durationOf);
      IndicesSnoc(pads);
      HydrateAllElsewhere(init, m, fileExists, durationOf, v.index);
    }
  }

  /**
   * Over pads with distinct indices, every pad is hydrated from its own
   * stored entry, or from the default for its index when it has none.
   */
  lemma {:induction false} HydrateAllPads(pads: seq<PadValues>, m: map<int, PadSettings>, fileExists: string -> bool, durationOf: string -> int)
    requires DistinctIndices(pads)
    ensures var h := HydrateAll(pads, m, fileExists, durationOf);
      && |h.pads| == |pads|
      && (forall i :: 0 <= i < |pads| ==> h.pads[i] == HydratedPad(pads[i], PadOrDefault(m, pads[i].index), fileExists, durationOf))
  {
    if pads != [] {
      var init := pads[..|pads| - 1];
      var v := pads[|pads| - 1];
      assert DistinctIndices(init);
      HydrateAllPads(init, m, fileExists, durationOf);
      IndicesSnoc(pads);
      HydrateAllElsewhere(init, m, fileExists, durationOf, v.index);
    }
  }

  /**
   * HydratePadsFromSettings over the pad values: each pad in turn through
   * GetOrCreatePad and the hydration rules, the stored echo flag cleared
   * under drop-folder mode. Only the settings' pad dictionary changes.
   */
  method HydratePads(pads: seq<PadValues>, gs: GlobalSettings, fileExists: string -> bool, durationOf: string -> int)
    returns (r: seq<PadValues>)
    modifies gs`pads
    ensures Hydration(r, gs.pads) == HydrateAll(pads, old(gs.pads), fileExists, durationOf)
  {
    r := [];
    var i := 0;
    while i < |pads|
      invariant 0 <= i <= |pads|
      invariant Hydration(r, gs.pads) == HydrateAll(pads[..i], old(gs.pads), fileExists, durationOf)
    {
      assert pads[..i + 1][..i] == pads[..i];
      var pad := pads[i];
      var ps := gs.GetOrCreatePad(pad.index);
      if ps.isDropFolderMode && ps.isEchoMode {
        gs.pads := gs.pads[pad.index := ps.(isEchoMode := false)];
      }
      r := r + [HydratedPad(pad, ps, fileExists, durationOf)];
      i := i + 1;
    }
    assert pads[..|pads|] == pads;
  }

  // ------------------------------------------------------------------ MIDI pad triggers

  /** Two MIDI triggers of one pad closer than 180 ms count as one press. */
  const PAD_DEBOUNCE_TICKS: int := 180 * TICKS_PER_MS

  predicate Debounced(last: map<int, int>, padIndex: int, now: int)
  {
    padIndex in last && now - last[padIndex] < PAD_DEBOUNCE_TICKS
  }

  /** A trigger gets past TriggerPadFromMidi's range check and debounce, and is then time-stamped. */
  predicate TriggerPasses(last: map<int, int>, padIndex: int, now: int)
  {
    1 <= padIndex <= 16 && !Debounced(last, padIndex, now)
  }

  /** The window's MIDI pad-trigger state and the controller and blocker it consults. */
  class MidiPadTrigger {
    /** _lastMidiPadUtc: the time, in ticks, of each pad's last trigger that passed the debounce. */
    var lastMidiPadUtc: map<int, int>
    var lastActivatedPadIndex: int
    const controller: PadActionController
    const blocker: UiInputBlocker

    constructor (controller: PadActionController, blocker: UiInputBlocker)
      ensures lastMidiPadUtc == map[] && lastActivatedPadIndex == -1
      ensures this.controller == controller && this.blocker == blocker
    {
      lastMidiPadUtc := map[];
      lastActivatedPadIndex := -1;
      this.controller := controller;
      this.blocker := blocker;
    }

    /**
     * TriggerPadFromMidi at time `now`: nothing outside pads 1..16 or within
     * 180 ms of the pad's last trigger; otherwise the trigger is stamped and,
     * unless UI input is blocked, the pad is remembered and activated.
     */
    method TriggerPadFromMidi(padIndex: int, now: int)
      requires controller.Valid()
      modifies this, controller
      ensures controller.Valid()
      ensures lastMidiPadUtc == if TriggerPasses(old(lastMidiPadUtc), padIndex, now) then old(lastMidiPadUtc)[padIndex := now] else old(lastMidiPadUtc)
      ensures var fires := TriggerPasses(old(lastMidiPadUtc), padIndex, now) && !blocker.IsBlocked();
        && controller.Abs() == (if fires then Activate(old(controller.Abs()), padIndex, now, None) else old(controller.Abs()))
        && lastActivatedPadIndex == (if fires then padIndex else old(lastActivatedPadIndex))
    {
      if padIndex < 1 || padIndex > 16 {
        return;
      }
      if padIndex in lastMidiPadUtc && now - lastMidiPadUtc[padIndex] < PAD_DEBOUNCE_TICKS {
        return;
      }
      lastMidiPadUtc := lastMidiPadUtc[padIndex := now];
      if blocker.IsBlocked() {
        return;
      }
      RememberLastActivatedPad(padIndex);
      controller.ActivatePad(padIndex, now, None);
    }

    method RememberLastActivatedPad(padIndex: int)
      modifies this
      ensures lastActivatedPadIndex == if 1 <= padIndex <= 16 then padIndex else old(lastActivatedPadIndex)
      ensures lastMidiPadUtc == old(lastMidiPadUtc)
    {
      if padIndex < 1 || padIndex > 16 {
        return;
      }
      lastActivatedPadIndex := padIndex;
    }
  }

  datatype Trigger = Trigger(pad: int, now: int)

  /** _lastMidiPadUtc after a run of triggers. */
  function StampsAfter(ts: seq<Trigger>): map<int, int>
  {
    if ts == [] then map[]
    else
      var last := StampsAfter(ts[..|ts| - 1]);
      var t := ts[|ts| - 1];
      if TriggerPasses(last, t.pad, t.now) then last[t.pad := t.now] else last
  }

  /** The triggers of a run that got past the range check and the debounce, in order. */
  function Passed(ts: seq<Trigger>): seq<Trigger>
  {
    if ts == [] then []
    else
      var t := ts[|ts| - 1];
      Passed(ts[..|ts| - 1]) + if TriggerPasses(StampsAfter(ts[..|ts| - 1]), t.pad, t.now) then [t] else []
  }

  /**
   * However the triggers arrive, those that pass are for pads 1..16 and any
   * two that pass for the same pad are at least 180 ms apart, in order.
   */
  lemma {:induction false} TriggerSpacing(ts: seq<Trigger>)
    ensures forall i :: 0 <= i < |Passed(ts)| ==> 1 <= Passed(ts)[i].pad <= 16
    ensures forall i, j :: 0 <= i < j < |Passed(ts)| && Passed(ts)[i].pad == Passed(ts)[j].pad ==>
      Passed(ts)[j].now - Passed(ts)[i].now >= PAD_DEBOUNCE_TICKS
    ensures forall i :: 0 <= i < |Passed(ts)| ==>
      Passed(ts)[i].pad in StampsAfter(ts) && Passed(ts)[i].now <= StampsAfter(ts)[Passed(ts)[i].pad]
  {
    if ts != [] {
      var init := ts[..|ts| - 1];
      TriggerSpacing(init);
    }
  }

  // ------------------------------------------------------------------ profiles

  const PROFILES: int := 16

  /** Ctrl-click on the profile squircle: the next profile, wrapping 16 to 1. */
  function NextProfile(active: int): int
  {
    var next := active + 1;
    if next > PROFILES then 1 else next
  }

  function StepProfile(active: int, k: nat): int
  {
    if k == 0 then active else NextProfile(StepProfile(active, k - 1))
  }

  /**
   * Stepping stays inside 1..16 and visits the profiles in cyclic order:
   * k clicks from profile i land on ((i - 1 + k) mod 16) + 1, so sixteen
   * clicks come back to where they started.
   */
  lemma {:induction false} StepProfileCycle(active: int, k: nat)
    requires 1 <= active <= PROFILES
    ensures StepProfile(active, k) == (active - 1 + k) % PROFILES + 1
    ensures 1 <= StepProfile(active, k) <= PROFILES
    ensures k == PROFILES ==> StepProfile(active, k) == active
  {
    if k > 0 {
      StepProfileCycle(active, k - 1);
    }
  }

  /**
   * SwitchToProfile's decision: nothing while switching is blocked;
   * otherwise the target clamped to [1, 16], and nothing when that is
   * already the active profile.
   */
  function SwitchTarget(newIndex: int, active: int, blocked: bool): (r: Option<int>)
    ensures r.Some? ==> 1 <= r.value <= PROFILES && r.value != active
    ensures r.None? <==> blocked || Clamp(newIndex, 1, PROFILES) == active
    ensures r.Some? && 1 <= newIndex <= PROFILES ==> r.value == newIndex
  {
    if blocked then None
    else
      var target := Clamp(newIndex, 1, PROFILES);
      if target == active then None else Some(target)
  }
}
