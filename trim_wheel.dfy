// PadTrimWheelBehavior: in edit mode the mouse wheel over a pad's start or
// end marker moves that trim point by 50 ms per notch (100 ms with Shift),
// keeps it inside the clip and on its side of the other point, and writes
// the trim into the pad's settings entry.
module TrimWheel {
  import opened Base
  import opened Settings
  import PadModels
  import opened PadSettingsVm

  datatype TrimTarget = StartTarget | EndTarget

  /** The wheel's notch size: WPF reports 120 per notch. */
  const NOTCH: int := 120

  /** The step per notch in ms: 100 with either Shift key down, 50 otherwise. */
  function StepMs(shift: bool): int
  {
    if shift then 100 else 50
  }

  /** The ms the wheel moves by: whole notches (C# division truncates) times the step; None for less than a notch. */
  function WheelDeltaMs(delta: int, shift: bool): (r: Option<int>)
  {
    var steps := DivTrunc(delta, NOTCH);
    if steps == 0 then None else Some(steps * StepMs(shift))
  }

  /**
   * Less than one notch either way does nothing; otherwise the move is a
   * non-zero multiple of the step with the wheel's sign, one step per whole
   * notch.
   */
  lemma WheelDeltaFacts(delta: int, shift: bool)
    ensures WheelDeltaMs(delta, shift).None? <==> -NOTCH < delta < NOTCH
    ensures delta >= NOTCH ==> WheelDeltaMs(delta, shift) == Some(delta / NOTCH * StepMs(shift))
    ensures delta <= -NOTCH ==> WheelDeltaMs(delta, shift) == Some(-((-delta) / NOTCH) * StepMs(shift))
    ensures WheelDeltaMs(delta, shift).Some? ==>
      (WheelDeltaMs(delta, shift).value > 0 <==> delta > 0)
      && WheelDeltaMs(delta, shift).value % StepMs(shift) == 0
      && WheelDeltaMs(delta, shift).value != 0
  {
    var steps := DivTrunc(delta, NOTCH);
    if delta >= NOTCH {
      assert steps >= 1;
    } else if delta <= -NOTCH {
      assert steps <= -1;
    } else {
      assert steps == 0;
    }
    if steps != 0 {
      if shift {
        assert (steps * 100) % 100 == 0;
      } else {
        assert (steps * 50) % 50 == 0;
      }
    }
  }

  /** `(int)Math.Max(0, ClipDuration.TotalMilliseconds)` for a duration in ticks. */
  function MaxMs(clipDuration: int): (r: int)
    ensures r >= 0
    ensures clipDuration >= 0 ==> r == clipDuration / PadModels.TICKS_PER_MS
  {
    if clipDuration <= 0 then 0 else clipDuration / PadModels.TICKS_PER_MS
  }

  /** The new start: moved (an int sum), at least 0, at most the clip length when known, at most a set end. */
  function NextStart(w: Window, maxMs: int, deltaMs: int): (r: int)
    ensures r >= 0
    ensures maxMs > 0 ==> r <= maxMs
    ensures w.endMs > 0 ==> r <= w.endMs
  {
    var next := Max(0, ToInt32(w.startMs + deltaMs));
    var next1 := if maxMs > 0 then Min(maxMs, next) else next;
    if w.endMs > 0 && next1 > w.endMs then w.endMs else next1
  }

  /** The new end: moved, at least 0, at most the clip length when known, then raised to the start. */
  function NextEnd(w: Window, maxMs: int, deltaMs: int): (r: int)
    ensures r >= w.startMs && r >= 0
    ensures maxMs > 0 && w.startMs <= maxMs ==> r <= maxMs
  {
    var next := Max(0, ToInt32(w.endMs + deltaMs));
    var next1 := if maxMs > 0 then Min(maxMs, next) else next;
    if next1 < w.startMs then w.startMs else next1
  }

  /** ApplyTrimDelta: only the targeted point moves. */
  function Applied(w: Window, target: TrimTarget, maxMs: int, deltaMs: int): Window
  {
    match target
    case StartTarget => w.(startMs := NextStart(w, maxMs, deltaMs))
    case EndTarget => w.(endMs := NextEnd(w, maxMs, deltaMs))
  }

  /**
   * The bound the wheel keeps: both points at least 0, inside the clip when
   * its length is known, and the start not after a set (positive) end; an
   * end of 0 is the program's "to the end of the clip".
   */
  predicate WheelBounds(w: Window, maxMs: int)
  {
    && 0 <= w.startMs && 0 <= w.endMs
    && (w.endMs > 0 ==> w.startMs <= w.endMs)
    && (maxMs > 0 ==> w.startMs <= maxMs && w.endMs <= maxMs)
  }

  /** Every wheel move keeps the wheel's bound, whichever point it targets. */
  lemma AppliedKeepsBounds(w: Window, target: TrimTarget, maxMs: int, deltaMs: int)
    requires WheelBounds(w, maxMs)
    ensures WheelBounds(Applied(w, target, maxMs, deltaMs), maxMs)
  {
  }

  /**
   * For a clip of known length, a window with 0 <= start <= end <= length
   * and a positive end keeps that shape under every start move, and under
   * an end move that does not reach 0.
   */
  lemma AppliedKeepsTrimBounds(w: Window, target: TrimTarget, maxMs: int, deltaMs: int)
    requires maxMs > 0 && InBounds(w, maxMs)
    ensures target == StartTarget ==> InBounds(Applied(w, target, maxMs, deltaMs), maxMs)
    ensures target == EndTarget ==>
      (InBounds(Applied(w, target, maxMs, deltaMs), maxMs) <==> Applied(w, target, maxMs, deltaMs).endMs > 0)
  {
  }

  /**
   * The end can be wheeled down to 0 when the start is 0, and an end of 0
   * reads everywhere else as "the whole clip": one notch down from a 50 ms
   * end on a one-second clip leaves the end at 0.
   */
  lemma EndCanReachZero()
    ensures Applied(Window(0, 50), EndTarget, 1000, -50) == Window(0, 0)
    ensures ClampedTrim(Window(0, 0), 1000) == Window(0, 1000)
  {
  }

  /**
   * An end move down to or past the start stops at the start; with the
   * start at 0 that end is 0, which reads as "the whole clip".
   */
  lemma EndMoveStopsAtStart(w: Window, maxMs: int, deltaMs: int)
    requires 0 <= w.startMs && (maxMs <= 0 || w.startMs <= maxMs)
    requires IsInt32(w.endMs + deltaMs) && w.endMs + deltaMs <= w.startMs
    ensures Applied(w, EndTarget, maxMs, deltaMs) == w.(endMs := w.startMs)
    ensures w.startMs == 0 && maxMs > 0 ==> ClampedTrim(Applied(w, EndTarget, maxMs, deltaMs), maxMs) == Window(0, maxMs)
  {
  }

  /** Inside the bounds and without wrap-around, a move lands exactly where the wheel says. */
  lemma AppliedExact(w: Window, target: TrimTarget, maxMs: int, deltaMs: int)
    requires IsInt32(w.startMs + deltaMs) && IsInt32(w.endMs + deltaMs)
    ensures (target == StartTarget && 0 <= w.startMs + deltaMs && (maxMs <= 0 || w.startMs + deltaMs <= maxMs)
             && (w.endMs <= 0 || w.startMs + deltaMs <= w.endMs)) ==>
      Applied(w, target, maxMs, deltaMs) == w.(startMs := w.startMs + deltaMs)
    ensures (target == EndTarget && 0 <= w.endMs + deltaMs && (maxMs <= 0 || w.endMs + deltaMs <= maxMs)
             && w.startMs <= w.endMs + deltaMs) ==>
      Applied(w, target, maxMs, deltaMs) == w.(endMs := w.endMs + deltaMs)
  {
  }

  /** The pad's trim window. */
  function TrimOfPad(pad: PadModels.PadModel): Window
    reads pad
  {
    Window(pad.startMs, pad.endMs)
  }

  /** ApplyTrimDelta: writes the targeted point through the pad's setter. */
  method ApplyTrimDelta(pad: PadModels.PadModel, target: TrimTarget, deltaMs: int)
    modifies pad`startMs, pad`endMs, pad`changed
    ensures var w := Applied(old(TrimOfPad(pad)), target, MaxMs(pad.clipDuration), deltaMs);
      pad.Values() == old(pad.Values()).(startMs := w.startMs, endMs := w.endMs)
  {
    var maxMs := MaxMs(pad.clipDuration);
    var w := TrimOfPad(pad);
    if target == StartTarget {
      pad.SetStartMs(NextStart(w, maxMs, deltaMs));
    } else {
      pad.SetEndMs(NextEnd(w, maxMs, deltaMs));
    }
  }

  /**
   * OnPreviewMouseWheel: nothing unless the behaviour is active, the element
   * shows a pad and the wheel moved a whole notch; then the trim moves and,
   * when settings are wired in, the pad's settings entry takes the new trim
   * (writing settings.json is left out). `handled` is e.Handled.
   */
  method OnPreviewMouseWheel(isActive: bool, pad: PadModels.PadModel?, target: TrimTarget, delta: int, shift: bool,
                             global: GlobalSettings?, hasService: bool)
    returns (handled: bool)
    modifies pad, global
    ensures handled <==> isActive && pad != null && WheelDeltaMs(delta, shift).Some?
    ensures !handled ==> (pad != null ==> pad.Values() == old(pad.Values())) && (global != null ==> global.pads == old(global.pads))
    ensures handled ==>
      var w := Applied(old(TrimOfPad(pad)), target, MaxMs(old(pad.clipDuration)), WheelDeltaMs(delta, shift).value);
      pad.Values() == old(pad.Values()).(startMs := w.startMs, endMs := w.endMs)
      && (global != null && hasService ==>
            global.pads == old(global.pads)[pad.index := PadOrDefault(old(global.pads), pad.index).(startMs := w.startMs, endMs := w.endMs)])
      && (global != null && !hasService ==> global.pads == old(global.pads))
  {
    if !isActive || pad == null {
      return false;
    }
    var steps := DivTrunc(delta, NOTCH);
    if steps == 0 {
      return false;
    }
    var deltaMs := steps * StepMs(shift);
    ApplyTrimDelta(pad, target, deltaMs);
    if hasService && global != null {
      PersistTrim(pad, global);
    }
    handled := true;
  }

  /** PersistTrimIfPossible: the pad's entry (created if missing) takes the pad's current trim. */
  method PersistTrim(pad: PadModels.PadModel, global: GlobalSettings)
    modifies global`pads
    ensures global.pads == old(global.pads)[pad.index := PadOrDefault(old(global.pads), pad.index).(startMs := pad.startMs, endMs := pad.endMs)]
  {
    var ps := global.GetOrCreatePad(pad.index);
    global.pads := global.pads[pad.index := ps.(startMs := pad.startMs, endMs := pad.endMs)];
  }
}
