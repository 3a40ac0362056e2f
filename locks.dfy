// The two reference counts of the app: ProfileSwitchLock, which announces
// every change between locked and unlocked, and UiInputBlocker, whose
// releasers each give back their one unit at most once.
module Locks {

  /** The lock's count and the LockChanged notifications raised so far, oldest first. */
  datatype LockState = LockState(count: int, changes: seq<bool>)

  /** Acquire: one more holder; the first one announces `true`. */
  function AcquireStep(s: LockState): LockState
  {
    LockState(s.count + 1, s.changes + if s.count + 1 == 1 then [true] else [])
  }

  /** Release: ignored at zero; otherwise one holder fewer, and the last one announces `false`. */
  function ReleaseStep(s: LockState): LockState
  {
    if s.count <= 0 then s
    else LockState(s.count - 1, s.changes + if s.count - 1 == 0 then [false] else [])
  }

  class ProfileSwitchLock {
    var count: int
    /** The arguments LockChanged was raised with, oldest first. */
    var changes: seq<bool>

    constructor ()
      ensures count == 0 && changes == []
    {
      count := 0;
      changes := [];
    }

    function State(): LockState
      reads this
    {
      LockState(count, changes)
    }

    predicate IsLocked()
      reads this
    {
      count > 0
    }

    /** Acquire: counts one more holder, raises LockChanged(true) on 0 to 1, and hands out a releaser bound to this lock. */
    method Acquire(reason: string) returns (r: LockReleaser)
      modifies this
      ensures State() == AcquireStep(old(State()))
      ensures count == old(count) + 1
      ensures changes == old(changes) + (if old(count) == 0 then [true] else [])
      ensures fresh(r) && r.owner == this
    {
      count := count + 1;
      if count == 1 {
        changes := changes + [true];
      }
      r := new LockReleaser(this);
    }

    /** Release: a no-op at zero; otherwise one fewer, raising LockChanged(false) on 1 to 0. */
    method Release()
      modifies this
      ensures State() == ReleaseStep(old(State()))
      ensures old(count) <= 0 ==> count == old(count) && changes == old(changes)
      ensures old(count) > 0 ==> count == old(count) - 1
      ensures old(count) > 0 ==> changes == old(changes) + (if old(count) == 1 then [false] else [])
    {
      if count <= 0 {
        return;
      }
      count := count - 1;
      if count == 0 {
        changes := changes + [false];
      }
    }
  }

  class LockReleaser {
    var owner: ProfileSwitchLock?

    constructor (owner: ProfileSwitchLock)
      ensures this.owner == owner
    {
      this.owner := owner;
    }

    /**
     * Dispose: releases the owner once and forgets it, so any further
     * Dispose of the same releaser changes nothing.
     */
    method Dispose()
      modifies this, owner
      ensures owner == null
      ensures old(owner) != null ==> old(owner).State() == ReleaseStep(old(owner.State()))
    {
      if owner != null {
        owner.Release();
      }
      owner := null;
    }
  }

  // ---------------------------------------------------------------------
  // Whole histories. Releasers are numbered in the order Acquire handed
  // them out; a dispose names the releaser it is called on.

  datatype Op = AcquireOp | DisposeOp(releaser: nat)

  /** The releasers handed out so far, those still holding, and those already disposed. */
  datatype Handles = Handles(issued: nat, live: set<nat>, disposed: set<nat>)

  function HandlesAfter(ops: seq<Op>): Handles
  {
    if ops == [] then Handles(0, {}, {})
    else
      var h := HandlesAfter(ops[..|ops| - 1]);
      match ops[|ops| - 1]
      case AcquireOp => Handles(h.issued + 1, h.live + {h.issued}, h.disposed)
      case DisposeOp(r) => if r in h.live then Handles(h.issued, h.live - {r}, h.disposed + {r}) else h
  }

  /** How many Acquire calls the history holds. */
  function Acquires(ops: seq<Op>): nat
  {
    if ops == [] then 0
    else Acquires(ops[..|ops| - 1]) + if ops[|ops| - 1].AcquireOp? then 1 else 0
  }

  /** A dispose has an effect only the first time it is called on a releaser that was handed out. */
  predicate Effective(ops: seq<Op>, r: nat)
  {
    r in HandlesAfter(ops).live
  }

  /** The lock after a history: a dispose releases only through a releaser that still has its owner. */
  function LockAfter(ops: seq<Op>): LockState
  {
    if ops == [] then LockState(0, [])
    else
      var init := ops[..|ops| - 1];
      match ops[|ops| - 1]
      case AcquireOp => AcquireStep(LockAfter(init))
      case DisposeOp(r) => if Effective(init, r) then ReleaseStep(LockAfter(init)) else LockAfter(init)
  }

  /** The blocker's count after a history: each releaser decrements on its first dispose only. */
  function BlockCountAfter(ops: seq<Op>): int
  {
    if ops == [] then 0
    else
      var init := ops[..|ops| - 1];
      match ops[|ops| - 1]
      case AcquireOp => BlockCountAfter(init) + 1
      case DisposeOp(r) => if Effective(init, r) then BlockCountAfter(init) - 1 else BlockCountAfter(init)
  }

  /**
   * Every releaser handed out is either still holding or disposed, never
   * both; numbers are handed out in order, one per Acquire.
   */
  lemma {:induction false} HandlesInvariant(ops: seq<Op>)
    ensures var h := HandlesAfter(ops);
      && h.issued == Acquires(ops)
      && h.live !! h.disposed
      && (forall k :: k in h.live ==> k < h.issued)
      && (forall k :: k in h.disposed ==> k < h.issued)
      && h.issued == |h.live| + |h.disposed|
  {
    if ops != [] {
      HandlesInvariant(ops[..|ops| - 1]);
    }
  }

  /**
   * The lock over any history: its count is the number of releasers still
   * holding, so it is never negative; the notifications alternate, starting
   * with `true`; and an odd number of them has been raised exactly when the
   * lock is held, so the last one always says whether it is locked.
   */
  lemma {:induction false} LockTrace(ops: seq<Op>)
    ensures LockAfter(ops).count == |HandlesAfter(ops).live| >= 0
    ensures forall i :: 0 <= i < |LockAfter(ops).changes| ==> LockAfter(ops).changes[i] == (i % 2 == 0)
    ensures |LockAfter(ops).changes| % 2 == 1 <==> LockAfter(ops).count > 0
  {
    if ops != [] {
      var init := ops[..|ops| - 1];
      LockTrace(init);
      var s := LockAfter(init);
      var h := HandlesAfter(init);
      match ops[|ops| - 1]
      case AcquireOp =>
        HandlesInvariant(init);
        assert h.issued !in h.live;
      case DisposeOp(r) =>
        if r in h.live {
          assert |h.live - {r}| == |h.live| - 1;
        }
    }
  }

  /** An effective dispose always finds the lock held, so Release's guard against zero never fires. */
  lemma EffectiveDisposeFindsLockHeld(ops: seq<Op>, r: nat)
    requires Effective(ops, r)
    ensures LockAfter(ops).count > 0
    ensures LockAfter(ops + [DisposeOp(r)]).count == LockAfter(ops).count - 1
  {
    LockTrace(ops);
    assert (ops + [DisposeOp(r)])[..|ops|] == ops;
  }

  /**
   * Once every releaser handed out has been disposed, the lock is free
   * again and the last notification, if any, was `false`.
   */
  lemma LockBalanced(ops: seq<Op>)
    requires HandlesAfter(ops).live == {}
    ensures LockAfter(ops).count == 0
    ensures |LockAfter(ops).changes| % 2 == 0
    ensures |LockAfter(ops).changes| > 0 ==> !LockAfter(ops).changes[|LockAfter(ops).changes| - 1]
  {
    LockTrace(ops);
  }

  /** Disposing the same releaser a second time changes neither the lock nor the blocker. */
  lemma DisposeTwice(ops: seq<Op>, r: nat)
    ensures HandlesAfter(ops + [DisposeOp(r), DisposeOp(r)]) == HandlesAfter(ops + [DisposeOp(r)])
    ensures LockAfter(ops + [DisposeOp(r), DisposeOp(r)]) == LockAfter(ops + [DisposeOp(r)])
    ensures BlockCountAfter(ops + [DisposeOp(r), DisposeOp(r)]) == BlockCountAfter(ops + [DisposeOp(r)])
  {
    var once := ops + [DisposeOp(r)];
    assert (once + [DisposeOp(r)])[..|once|] == once;
    assert ops + [DisposeOp(r), DisposeOp(r)] == once + [DisposeOp(r)];
    assert once[..|ops|] == ops;
    assert !Effective(once, r);
  }

  /**
   * The blocker's count is the number of Acquire calls minus the number of
   * distinct releasers disposed, and so never negative.
   */
  lemma {:induction false} BlockerTrace(ops: seq<Op>)
    ensures BlockCountAfter(ops) == Acquires(ops) - |HandlesAfter(ops).disposed|
    ensures BlockCountAfter(ops) == |HandlesAfter(ops).live| >= 0
  {
    HandlesInvariant(ops);
    if ops != [] {
      var init := ops[..|ops| - 1];
      BlockerTrace(init);
      HandlesInvariant(init);
      var h := HandlesAfter(init);
      match ops[|ops| - 1]
      case AcquireOp =>
        assert h.issued !in h.live;
      case DisposeOp(r) =>
        if r in h.live {
          assert |h.live - {r}| == |h.live| - 1;
        }
    }
  }

  /** UiInputBlocker's static count; a single instance stands for the static class. */
  class UiInputBlocker {
    var blockCount: int

    constructor ()
      ensures blockCount == 0
    {
      blockCount := 0;
    }

    predicate IsBlocked()
      reads this
    {
      blockCount > 0
    }

    /** Acquire: one more block and a fresh, undisposed releaser. */
    method Acquire(reason: string) returns (r: BlockReleaser)
      modifies this
      ensures blockCount == old(blockCount) + 1
      ensures fresh(r) && !r.disposed && r.blocker == this
    {
      blockCount := blockCount + 1;
      r := new BlockReleaser(this);
    }

    /** Block: the older name of Acquire, with the same effect. */
    method Block(reason: string) returns (r: BlockReleaser)
      modifies this
      ensures blockCount == old(blockCount) + 1
      ensures fresh(r) && !r.disposed && r.blocker == this
    {
      r := Acquire(reason);
    }
  }

  class BlockReleaser {
    var disposed: bool
    const blocker: UiInputBlocker

    constructor (blocker: UiInputBlocker)
      ensures !disposed && this.blocker == blocker
    {
      this.disposed := false;
      this.blocker := blocker;
    }

    /** Dispose: gives back one block the first time, nothing afterwards. */
    method Dispose()
      modifies this, blocker
      ensures disposed
      ensures blocker.blockCount == old(blocker.blockCount) - (if old(disposed) then 0 else 1)
    {
      if disposed {
        return;
      }
      disposed := true;
      blocker.blockCount := blocker.blockCount - 1;
    }
  }
}
