// PadActionController: what a pad activation does. The controller's state
// is abstracted as `Ctl` (the pads' values, the flags, the transition guard,
// the echo-commit blocks, the copy source and the events raised so far), the
// operations as functions on it, and the class's methods are proved to act
// as those functions. Clock readings are `now` in milliseconds. A Play or
// Stop event handler that activates a pad again before returning is the
// `nested` argument.
module PadControl {
  import opened Base
  import opened Text
  import opened PadModels

  /** The controller's events; pads are named by their position in the pad list. */
  datatype ControllerEvent =
    | PlayRequested(pad: nat)
    | StopRequested(pad: nat)
    | CommitFromBufferRequested(pad: nat)
    | PadCopied(source: nat, target: nat)

  datatype Ctl = Ctl(
    pads: seq<PadValues>,
    editMode: bool,
    copyHeld: bool,
    transitioning: set<int>,
    blockedUntil: map<int, int>,
    copySource: Option<nat>,
    raised: seq<ControllerEvent>)

  ghost predicate WellFormed(s: Ctl)
  {
    s.copySource.Some? ==> s.copySource.value < |s.pads|
  }

  /** GetPad: the pad at one-based position `padIndex`, if there is one. */
  function PadAt(s: Ctl, padIndex: int): (k: Option<nat>)
    ensures k.Some? <==> 1 <= padIndex <= |s.pads|
    ensures k.Some? ==> k.value == padIndex - 1
  {
    if padIndex <= 0 || padIndex > |s.pads| then None else Some(padIndex - 1)
  }

  /** CanStartEchoCommit. */
  predicate CanStartEchoCommit(p: PadValues)
  {
    p.isEchoMode && !p.isDropFolderMode && !p.isBusy && p.state != Playing
  }

  /** IsEchoCommitBlocked: a block is recorded for the pad's Index and has not expired. */
  predicate EchoCommitBlocked(s: Ctl, padIndex: int, now: int)
  {
    padIndex in s.blockedUntil && now < s.blockedUntil[padIndex]
  }

  /** BlockEchoCommit: block echo commits on the pad for `ms` from now; ignored for an Index <= 0. */
  function WithEchoBlock(s: Ctl, padIndex: int, ms: int, now: int): (r: Ctl)
    ensures padIndex > 0 ==> r.blockedUntil == s.blockedUntil[padIndex := now + ms]
    ensures padIndex <= 0 ==> r == s
    ensures r.pads == s.pads && r.raised == s.raised && r.transitioning == s.transitioning && r.copySource == s.copySource
  {
    if padIndex <= 0 then s else s.(blockedUntil := s.blockedUntil[padIndex := now + ms])
  }

  /** The state a pad is left in once it stops playing, or once a clip is copied onto it. */
  function IdleState(p: PadValues): PadState
  {
    if HasClip(p) then Loaded else Empty
  }

  function Rank(nested: Option<int>): nat
  {
    if nested.Some? then 1 else 0
  }

  /** ActivatePad. */
  function Activate(s: Ctl, padIndex: int, now: int, nested: Option<int>): (r: Ctl)
    requires WellFormed(s)
    ensures WellFormed(r) && |r.pads| == |s.pads|
    decreases Rank(nested), 2
  {
    match PadAt(s, padIndex)
    case None => s
    case Some(k) =>
      var p := s.pads[k];
      if s.editMode && s.copyHeld then CopyHandled(s, k)
      else if !HasClip(p) then
        if EchoCommitBlocked(s, p.index, now) then s
        else if CanStartEchoCommit(p) then s.(raised := s.raised + [CommitFromBufferRequested(k)])
        else s
      else if p.state == Playing then StopPad(s, k, now, nested)
      else PlayPad(s, k, now, nested)
  }

  /** Play: mark the pad Playing and busy under the transition guard, then raise PlayRequested. */
  function PlayPad(s: Ctl, k: nat, now: int, nested: Option<int>): (r: Ctl)
    requires WellFormed(s) && k < |s.pads|
    ensures WellFormed(r) && |r.pads| == |s.pads|
    decreases Rank(nested), 1
  {
    var p := s.pads[k];
    if p.state == Playing || p.index in s.transitioning then s
    else
      var s1 := s.(transitioning := s.transitioning + {p.index},
                   pads := s.pads[k := p.(state := Playing, isBusy := true)],
                   raised := s.raised + [PlayRequested(k)]);
      var s2 := Handled(s1, now, nested);
      s2.(transitioning := s2.transitioning - {p.index})
  }

  /** Stop: under the transition guard, raise StopRequested, then leave the pad idle and not busy. */
  function StopPad(s: Ctl, k: nat, now: int, nested: Option<int>): (r: Ctl)
    requires WellFormed(s) && k < |s.pads|
    ensures WellFormed(r) && |r.pads| == |s.pads|
    decreases Rank(nested), 1
  {
    var p := s.pads[k];
    if p.state != Playing || p.index in s.transitioning then s
    else
      var s1 := s.(transitioning := s.transitioning + {p.index}, raised := s.raised + [StopRequested(k)]);
      var s2 := Handled(s1, now, nested);
      var q := s2.pads[k];
      s2.(pads := s2.pads[k := q.(isBusy := false, state := IdleState(q))],
          transitioning := s2.transitioning - {p.index})
  }

  /** What the PlayRequested or StopRequested handler does: at most one further activation. */
  function Handled(s: Ctl, now: int, nested: Option<int>): (r: Ctl)
    requires WellFormed(s)
    ensures WellFormed(r) && |r.pads| == |s.pads|
    decreases Rank(nested), 0
  {
    if nested.Some? then Activate(s, nested.value, now, None) else s
  }

  /** CopyPad: the target takes the source's clip, duration and trim, and the matching idle state. */
  function CopyPad(src: PadValues, dst: PadValues): (r: PadValues)
    ensures r.clipPath == src.clipPath && r.clipDuration == src.clipDuration
    ensures r.startMs == src.startMs && r.endMs == src.endMs
  {
    var d := dst.(clipPath := src.clipPath, clipDuration := src.clipDuration, startMs := src.startMs, endMs := src.endMs);
    d.(state := IdleState(d))
  }

  /** HandleCopy. */
  function CopyHandled(s: Ctl, k: nat): (r: Ctl)
    requires WellFormed(s) && k < |s.pads|
    ensures WellFormed(r) && |r.pads| == |s.pads|
  {
    match s.copySource
    case None =>
      if !HasClip(s.pads[k]) then s
      else s.(copySource := Some(k), pads := s.pads[k := s.pads[k].(clipMod := CopySource)])
    case Some(src) =>
      if src == k then s
      else
        var target := CopyPad(s.pads[src], s.pads[k]).(clipMod := CopiedTarget);
        var ps := s.pads[k := target];
        s.(pads := ps[src := ps[src].(clipMod := CopySource)], raised := s.raised + [PadCopied(src, k)])
  }

  /** ClearCopyState: every copy mark is removed and the source is forgotten. */
  function CopyStateCleared(s: Ctl): (r: Ctl)
    ensures WellFormed(r) && |r.pads| == |s.pads|
  {
    s.(pads := seq(|s.pads|, j requires 0 <= j < |s.pads| => Unmark(s.pads[j])), copySource := None)
  }

  function Unmark(p: PadValues): PadValues
  {
    if p.clipMod == CopySource || p.clipMod == CopiedTarget then p.(clipMod := Unmarked) else p
  }

  function EditModeSet(s: Ctl, isEditMode: bool): (r: Ctl)
  {
    var s1 := s.(editMode := isEditMode);
    if !isEditMode then CopyStateCleared(s1) else s1
  }

  function CopyHeldSet(s: Ctl, held: bool): (r: Ctl)
  {
    var s1 := s.(copyHeld := held);
    if !held then CopyStateCleared(s1) else s1
  }

  /** The pad's values after ClearPad. */
  function Cleared(p: PadValues): PadValues
  {
    p.(clipPath := None, clipDuration := 0, startMs := 0, endMs := 0, playheadMs := 0, padName := None,
       inputSource := 1, previewToMonitor := false, clipMod := Unmarked, isBusy := false, isHoldArmed := false,
       state := Empty)
  }

  /** ClearPad: block echo commits for 650 ms, raise StopRequested, then reset the pad. */
  function PadCleared(s: Ctl, padIndex: int, now: int): (r: Ctl)
    requires WellFormed(s)
    ensures WellFormed(r) && |r.pads| == |s.pads|
  {
    match PadAt(s, padIndex)
    case None => s
    case Some(k) =>
      var s1 := WithEchoBlock(s, s.pads[k].index, 650, now);
      s1.(raised := s1.raised + [StopRequested(k)], pads := s1.pads[k := Cleared(s1.pads[k])])
  }

  // ---------------------------------------------------------------------
  // Properties of the specification
  // ---------------------------------------------------------------------

  /** Only Play, Stop and commit requests carry pad positions a pad click can raise. */
  predicate IsPlayStopOrCommit(e: ControllerEvent)
  {
    e.PlayRequested? || e.StopRequested? || e.CommitFromBufferRequested?
  }

  /** Activation ignores positions outside 1..pad count. */
  lemma ActivateOutOfRange(s: Ctl, padIndex: int, now: int, nested: Option<int>)
    requires WellFormed(s) && (padIndex <= 0 || padIndex > |s.pads|)
    ensures Activate(s, padIndex, now, nested) == s
  {
  }

  /**
   * With edit mode on and copy held, an activation only does copy handling:
   * it raises no Play, Stop or commit request and changes no pad's play state.
   */
  lemma CopyModeOnlyCopies(s: Ctl, padIndex: int, now: int, nested: Option<int>)
    requires WellFormed(s) && s.editMode && s.copyHeld
    ensures var r := Activate(s, padIndex, now, nested);
      r.transitioning == s.transitioning
      && (r.raised == s.raised || (exists a, b :: r.raised == s.raised + [PadCopied(a, b)]))
      && forall j :: 0 <= j < |s.pads| && j != padIndex - 1 ==> r.pads[j].state == s.pads[j].state
  {
    var r := Activate(s, padIndex, now, nested);
    if PadAt(s, padIndex).Some? {
      var k := padIndex - 1;
      if s.copySource.Some? && s.copySource.value != k {
        assert r.raised == s.raised + [PadCopied(s.copySource.value, k)];
      }
    }
  }

  /**
   * A pad with a blank clip never plays or stops: its activation raises a
   * commit request exactly when the pad is not blocked and the echo gate is
   * open, and changes nothing else.
   */
  lemma BlankPadOnlyCommits(s: Ctl, padIndex: int, now: int, nested: Option<int>)
    requires WellFormed(s) && !(s.editMode && s.copyHeld) && 1 <= padIndex <= |s.pads|
    requires !HasClip(s.pads[padIndex - 1])
    ensures var k := padIndex - 1; var p := s.pads[k];
      var commit := !EchoCommitBlocked(s, p.index, now) && CanStartEchoCommit(p);
      Activate(s, padIndex, now, nested) == (if commit then s.(raised := s.raised + [CommitFromBufferRequested(k)]) else s)
  {
  }

  /**
   * The toggle: a Playing pad with a clip is stopped and left Loaded and not
   * busy after StopRequested; any other pad with a clip becomes Playing and
   * busy before PlayRequested. Other pads are untouched and the guard is
   * empty again afterwards.
   */
  lemma Toggle(s: Ctl, padIndex: int, now: int)
    requires WellFormed(s) && !(s.editMode && s.copyHeld) && 1 <= padIndex <= |s.pads|
    requires HasClip(s.pads[padIndex - 1]) && s.pads[padIndex - 1].index !in s.transitioning
    ensures var k := padIndex - 1; var p := s.pads[k]; var r := Activate(s, padIndex, now, None);
      r.transitioning == s.transitioning && r.copySource == s.copySource && r.blockedUntil == s.blockedUntil
      && (p.state == Playing ==>
            r.pads == s.pads[k := p.(state := Loaded, isBusy := false)] && r.raised == s.raised + [StopRequested(k)])
      && (p.state != Playing ==>
            r.pads == s.pads[k := p.(state := Playing, isBusy := true)] && r.raised == s.raised + [PlayRequested(k)])
  {
  }

  /**
   * Re-entry: when the Play or Stop handler activates the same pad again,
   * the nested activation is ignored.
   */
  lemma NestedSameIgnored(s: Ctl, padIndex: int, now: int)
    requires WellFormed(s)
    ensures Activate(s, padIndex, now, Some(padIndex)) == Activate(s, padIndex, now, None)
  {
    match PadAt(s, padIndex)
    case None =>
    case Some(k) =>
      var p := s.pads[k];
      if !(s.editMode && s.copyHeld) && HasClip(p) && p.index !in s.transitioning {
        if p.state == Playing {
          var s1 := s.(transitioning := s.transitioning + {p.index}, raised := s.raised + [StopRequested(k)]);
          assert Handled(s1, now, Some(padIndex)) == Activate(s1, padIndex, now, None) == StopPad(s1, k, now, None) == s1;
        } else {
          var s1 := s.(transitioning := s.transitioning + {p.index},
                       pads := s.pads[k := p.(state := Playing, isBusy := true)],
                       raised := s.raised + [PlayRequested(k)]);
          assert s1.pads[k].state == Playing && HasClip(s1.pads[k]);
          assert Handled(s1, now, Some(padIndex)) == Activate(s1, padIndex, now, None) == StopPad(s1, k, now, None) == s1;
        }
      }
  }

  /** Without a re-entrant handler, an activation leaves the transition guard as it found it. */
  lemma GuardRestored(s: Ctl, padIndex: int, now: int)
    requires WellFormed(s)
    ensures Activate(s, padIndex, now, None).transitioning == s.transitioning
  {
    match PadAt(s, padIndex)
    case None =>
    case Some(k) =>
      var p := s.pads[k];
      if !(s.editMode && s.copyHeld) && HasClip(p) && p.index !in s.transitioning {
        assert (s.transitioning + {p.index}) - {p.index} == s.transitioning;
      }
  }

  /** Leaving edit mode or releasing copy removes every copy mark and forgets the source; nothing else changes. */
  lemma LeavingCopyClearsMarks(s: Ctl)
    ensures var r := EditModeSet(s, false);
      r.copySource.None? && |r.pads| == |s.pads| && !r.editMode
      && forall j :: 0 <= j < |s.pads| ==> r.pads[j] == s.pads[j].(clipMod := Unmarked)
    ensures var r := CopyHeldSet(s, false);
      r.copySource.None? && |r.pads| == |s.pads| && !r.copyHeld
      && forall j :: 0 <= j < |s.pads| ==> r.pads[j] == s.pads[j].(clipMod := Unmarked)
  {
  }

  /**
   * Copy mode: a first click on a pad with a clip selects it; a click on
   * another pad copies the clip and trim onto it and raises PadCopied, and
   * the source stays selected for further pastes.
   */
  lemma CopyPastes(s: Ctl, k: nat)
    requires WellFormed(s) && k < |s.pads| && s.copySource.Some? && s.copySource.value != k
    ensures var src := s.copySource.value; var r := CopyHandled(s, k);
      r.copySource == s.copySource && r.raised == s.raised + [PadCopied(src, k)]
      && r.pads[k].clipPath == s.pads[src].clipPath && r.pads[k].clipDuration == s.pads[src].clipDuration
      && r.pads[k].startMs == s.pads[src].startMs && r.pads[k].endMs == s.pads[src].endMs
      && r.pads[k].clipMod == CopiedTarget && r.pads[src].clipMod == CopySource
      && r.pads[k].state == (if HasClip(s.pads[src]) then Loaded else Empty)
      && forall j :: 0 <= j < |s.pads| && j != k && j != src ==> r.pads[j] == s.pads[j]
  {
  }

  /**
   * ClearPad resets the pad and blocks its echo commit: an activation of the
   * cleared pad within the next 650 ms raises no commit request and changes
   * nothing.
   */
  lemma ClearBlocksCommit(s: Ctl, padIndex: int, now: int, t: int, nested: Option<int>)
    requires WellFormed(s) && 1 <= padIndex <= |s.pads| && s.pads[padIndex - 1].index > 0
    requires now <= t < now + 650
    ensures var c := PadCleared(s, padIndex, now);
      c.pads[padIndex - 1] == Cleared(s.pads[padIndex - 1]) && c.raised == s.raised + [StopRequested(padIndex - 1)]
      && (!(c.editMode && c.copyHeld) ==> Activate(c, padIndex, t, nested) == c)
  {
    var c := PadCleared(s, padIndex, now);
    var k := padIndex - 1;
    assert c.pads[k].clipPath.None?;
    assert EchoCommitBlocked(c, c.pads[k].index, t);
  }

  // ---------------------------------------------------------------------
  // The controller object
  // ---------------------------------------------------------------------

  /**
   * The controller. Its pad list is held as the pads' property values, which
   * its methods replace one pad at a time.
   */
  class PadActionController {
    var pads: seq<PadValues>
    var isEditMode: bool
    var copyHeld: bool
    var transitioning: set<int>   // _transitioningPads, by pad Index
    var blockedUntil: map<int, int>
    var copySource: Option<nat>   // _copySource, by its position in the pad list
    var raised: seq<ControllerEvent>

    ghost predicate Valid()
      reads this
    {
      copySource.Some? ==> copySource.value < |pads|
    }

    ghost function Abs(): (s: Ctl)
      reads this
      requires Valid()
      ensures WellFormed(s)
    {
      Ctl(pads, isEditMode, copyHeld, transitioning, blockedUntil, copySource, raised)
    }

    constructor (pads: seq<PadValues>)
      ensures Valid() && Abs() == Ctl(pads, false, false, {}, map[], None, [])
    {
      this.pads := pads;
      isEditMode := false;
      copyHeld := false;
      transitioning := {};
      blockedUntil := map[];
      copySource := None;
      raised := [];
    }

    method SetEditMode(isEditMode: bool)
      requires Valid()
      modifies this
      ensures Valid() && Abs() == EditModeSet(old(Abs()), isEditMode)
    {
      this.isEditMode := isEditMode;
      if !isEditMode {
        ClearCopyState();
      }
    }

    method SetCopyHeld(held: bool)
      requires Valid()
      modifies this
      ensures Valid() && Abs() == CopyHeldSet(old(Abs()), held)
    {
      copyHeld := held;
      if !held {
        ClearCopyState();
      }
    }

    method BlockEchoCommit(padIndex: int, ms: int, now: int)
      requires Valid()
      modifies this
      ensures Valid() && Abs() == WithEchoBlock(old(Abs()), padIndex, ms, now)
    {
      if padIndex <= 0 {
        return;
      }
      blockedUntil := blockedUntil[padIndex := now + ms];
    }

    method ActivatePad(padIndex: int, now: int, nested: Option<int>)
      requires Valid()
      modifies this
      ensures Valid() && Abs() == Activate(old(Abs()), padIndex, now, nested)
      decreases Rank(nested), 2
    {
      if padIndex <= 0 || padIndex > |pads| {
        return;
      }
      var k := padIndex - 1;
      var pad := pads[k];
      if isEditMode && copyHeld {
        HandleCopy(k);
        return;
      }
      if IsBlank(pad.clipPath) {
        if pad.index in blockedUntil && now < blockedUntil[pad.index] {
          return;
        }
        if pad.isEchoMode && !pad.isDropFolderMode && !pad.isBusy && pad.state != Playing {
          raised := raised + [CommitFromBufferRequested(k)];
        }
        return;
      }
      if pad.state == Playing {
        Stop(k, now, nested);
      } else {
        Play(k, now, nested);
      }
    }

    method Play(k: nat, now: int, nested: Option<int>)
      requires Valid() && k < |pads|
      modifies this
      ensures Valid() && Abs() == PlayPad(old(Abs()), k, now, nested)
      decreases Rank(nested), 1
    {
      var pad := pads[k];
      if pad.state == Playing || pad.index in transitioning {
        return;
      }
      BeginPlay(k, pad);
      ghost var s1 := Abs();
      RunHandler(now, nested);
      ghost var s2 := Abs();
      assert s2 == Handled(s1, now, nested);
      transitioning := transitioning - {pad.index};
    }

    /** The part of Play before the handler runs: the guard taken, the pad Playing and busy, PlayRequested raised. */
    method BeginPlay(k: nat, pad: PadValues)
      requires Valid() && k < |pads| && pad == pads[k]
      modifies this
      ensures Valid()
      ensures Abs() == old(Abs()).(transitioning := old(transitioning) + {pad.index},
                                   pads := old(pads)[k := pad.(state := Playing, isBusy := true)],
                                   raised := old(raised) + [PlayRequested(k)])
    {
      transitioning := transitioning + {pad.index};
      var p := pad.(state := Playing);
      p := p.(isBusy := true);
      pads := pads[k := p];
      raised := raised + [PlayRequested(k)];
    }

    method Stop(k: nat, now: int, nested: Option<int>)
      requires Valid() && k < |pads|
      modifies this
      ensures Valid() && Abs() == StopPad(old(Abs()), k, now, nested)
      decreases Rank(nested), 1
    {
      var pad := pads[k];
      if pad.state != Playing || pad.index in transitioning {
        return;
      }
      transitioning := transitioning + {pad.index};
      raised := raised + [StopRequested(k)];
      RunHandler(now, nested);
      FinishStop(k, pad.index);
    }

    /** The part of Stop after the handler returns; the handler may have changed the pad, so it is read again. */
    method FinishStop(k: nat, padIndex: int)
      requires Valid() && k < |pads|
      modifies this
      ensures Valid()
      ensures var s := old(Abs()); var q := s.pads[k];
        Abs() == s.(pads := s.pads[k := q.(isBusy := false, state := IdleState(q))],
                    transitioning := s.transitioning - {padIndex})
    {
      var q := pads[k];
      q := q.(isBusy := false);
      q := q.(state := if !IsBlank(q.clipPath) then Loaded else Empty);
      pads := pads[k := q];
      transitioning := transitioning - {padIndex};
    }

    /** The PlayRequested or StopRequested handler, which may activate a pad. */
    method RunHandler(now: int, nested: Option<int>)
      requires Valid()
      modifies this
      ensures Valid() && Abs() == Handled(old(Abs()), now, nested)
      decreases Rank(nested), 0
    {
      if nested.Some? {
        ActivatePad(nested.value, now, None);
      }
    }

    method ClearPad(padIndex: int, now: int)
      requires Valid()
      modifies this
      ensures Valid() && Abs() == PadCleared(old(Abs()), padIndex, now)
    {
      if padIndex <= 0 || padIndex > |pads| {
        return;
      }
      var k := padIndex - 1;
      BlockEchoCommit(pads[k].index, 650, now);
      raised := raised + [StopRequested(k)];
      var p := pads[k];
      p := p.(clipPath := None, clipDuration := 0, startMs := 0, endMs := 0, playheadMs := 0);
      p := p.(padName := None, inputSource := 1, previewToMonitor := false, clipMod := Unmarked);
      p := p.(isBusy := false, isHoldArmed := false, state := Empty);
      pads := pads[k := p];
    }

    method ClearCopyState()
      requires Valid()
      modifies this
      ensures Valid() && Abs() == CopyStateCleared(old(Abs()))
    {
      var i := 0;
      while i < |pads|
        invariant 0 <= i <= |pads| == |old(pads)|
        invariant isEditMode == old(isEditMode) && copyHeld == old(copyHeld) && transitioning == old(transitioning)
        invariant blockedUntil == old(blockedUntil) && raised == old(raised) && copySource == old(copySource)
        invariant forall j :: 0 <= j < i ==> pads[j] == Unmark(old(pads)[j])
        invariant forall j :: i <= j < |pads| ==> pads[j] == old(pads)[j]
      {
        if pads[i].clipMod == CopySource || pads[i].clipMod == CopiedTarget {
          pads := pads[i := pads[i].(clipMod := Unmarked)];
        }
        i := i + 1;
      }
      copySource := None;
    }

    method HandleCopy(k: nat)
      requires Valid() && k < |pads|
      modifies this
      ensures Valid() && Abs() == CopyHandled(old(Abs()), k)
    {
      var clicked := pads[k];
      if copySource.None? {
        if IsBlank(clicked.clipPath) {
          return;
        }
        copySource := Some(k);
        pads := pads[k := clicked.(clipMod := CopySource)];
        return;
      }
      var src := copySource.value;
      if src == k {
        return;
      }
      var source := pads[src];
      var d := clicked.(clipPath := source.clipPath, clipDuration := source.clipDuration);
      d := d.(startMs := source.startMs, endMs := source.endMs);
      d := d.(state := if !IsBlank(d.clipPath) then Loaded else Empty);
      d := d.(clipMod := CopiedTarget);
      pads := pads[k := d];
      raised := raised + [PadCopied(src, k)];
      pads := pads[src := pads[src].(clipMod := CopySource)];
    }
  }
}
