/**
 * The Singularity scene (src/scenes/BigBang.jsx): a click on the point ignites the Big
 * Bang; once the store says it has exploded, the scene starts the ignition camera tween
 * once per mount (guarded by the `hasExploded` ref), and when that tween completes it
 * commits stage 1, but only if the store is still at stage 0.
 */
module BigBang {
  import opened Common
  import opened Store
  import Camera

  /** The ignition tween: the camera pulls back to z = 50 over 4 s. */
  const IgnitionTween: Camera.Tween := Camera.Tween(50, 4000, Camera.Power3Out)

  /** `handlePointerDown`: triggers the Big Bang only while it has not happened. */
  function PointerDown(s: State): (r: State)
    ensures r.isExploded
    ensures r.stage == s.stage && r.activeFactorId == s.activeFactorId && r.reversedFactors == s.reversedFactors
    ensures s.isExploded ==> r == s
  {
    if !s.isExploded then s.TriggerBang() else s
  }

  /**
   * The tween's `onComplete` as written: `setStage(1)` when the stage is still 0, otherwise
   * dropped. It looks at the stage only, never at `isExploded`.
   */
  function CommitAsWritten(s: State): (r: State)
    ensures s.stage == 0 ==> r.stage == 1
    ensures s.stage != 0 ==> r == s
    ensures r.isExploded == s.isExploded && r.activeFactorId == s.activeFactorId && r.reversedFactors == s.reversedFactors
  {
    if s.stage == 0 then s.SetStage(1) else s
  }

  /**
   * The corrected commit: dropped when a retreat has superseded the ignition,
   * i.e. when the stage has moved or the Big Bang has been undone in the meantime.
   */
  function Commit(s: State): (r: State)
    ensures StageInRange(s) ==> StageInRange(r)
    ensures Coherent(s) ==> Coherent(r)
    ensures s.stage == 0 && s.isExploded ==> r.stage == 1
    ensures !(s.stage == 0 && s.isExploded) ==> r == s
  {
    if s.stage == 0 && s.isExploded then s.SetStage(1) else s
  }

  /**
   * As written, the commit breaks the invariant "past stage 0 the Big Bang has happened":
   * ignite, retreat at stage 0 (which clears `isExploded` while the tween keeps running),
   * then the tween completes and lands on stage 1 unexploded.
   */
  lemma CommitAsWrittenBreaksCoherence()
    ensures Coherent(Initial.TriggerBang().PrevStage())
    ensures var s := CommitAsWritten(Initial.TriggerBang().PrevStage());
            s.stage == 1 && !s.isExploded && !Coherent(s)
    ensures Commit(Initial.TriggerBang().PrevStage()) == Initial
  {
  }

  /** The scene's refs: the `hasExploded` sentinel and whether the ignition tween is still running. */
  class Singularity {
    var hasExploded: bool
    var ignitionRunning: bool
    const store: GlobalStore

    /** A fresh mount: the ref starts false and no tween runs. */
    constructor (store: GlobalStore)
      ensures this.store == store && !hasExploded && !ignitionRunning
    {
      this.store := store;
      hasExploded := false;
      ignitionRunning := false;
    }

    /**
     * The effect on `isExploded`: starts the ignition tween only when the store has exploded and
     * the sentinel is unset, and sets the sentinel, which nothing resets during the mount.
     */
    method OnExplodedChanged() returns (started: bool)
      modifies this
      ensures started <==> store.isExploded && !old(hasExploded)
      ensures hasExploded == (old(hasExploded) || started)
      ensures ignitionRunning == (old(ignitionRunning) || started)
      ensures old(hasExploded) ==> !started
    {
      started := false;
      if store.isExploded && !hasExploded {
        hasExploded := true;
        ignitionRunning := true;
        started := true;
      }
    }

    /** The tween's `onComplete`, which gsap calls only for a running tween. */
    method OnIgnitionComplete()
      requires ignitionRunning
      modifies this, store
      ensures !ignitionRunning && hasExploded == old(hasExploded)
      ensures store.Snapshot() == CommitAsWritten(old(store.Snapshot()))
    {
      ignitionRunning := false;
      if store.stage == 0 {
        store.SetStage(1);
      }
    }

    method HandlePointerDown()
      modifies store
      ensures store.Snapshot() == PointerDown(old(store.Snapshot()))
    {
      if !store.isExploded {
        store.TriggerBang();
      }
    }
  }
}
