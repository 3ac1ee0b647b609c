/**
 * The `CameraTransition` component (src/App.jsx): on every change of stage it kills the
 * running tweens of the camera position and starts the tween authored for the
 * (previous stage, current stage) edge, if there is one. Positions are camera z values
 * in scene units, durations in milliseconds.
 */
module Camera {
  import opened Common

  datatype Ease = Power2Out | Power2InOut | Power3Out

  /** A tween of the camera's z towards `targetZ`. */
  datatype Tween = Tween(targetZ: int, durationMs: nat, ease: Ease)

  /** An authored edge: an optional jump of z before the tween, and the tween itself. */
  datatype Transition = Transition(preset: Option<int>, tween: Tween)

  /**
   * The decision table: exactly five authored edges, each between adjacent stages;
   * any other change (2 to 3, 3 to 2, 1 to 0, jumps) issues no tween.
   */
  function Edge(prev: int, cur: int): (r: Option<Transition>)
    ensures r.Some? <==> (prev, cur) in {(0, 1), (1, 2), (2, 1), (3, 4), (4, 3)}
    ensures r.Some? ==> cur == prev + 1 || cur == prev - 1
    ensures r.Some? && r.value.preset.Some? ==> prev >= 3 && cur >= 3
  {
    if prev == 0 && cur == 1 then Some(Transition(None, Tween(25, 1200, Power2Out)))
    else if cur == 2 && prev == 1 then Some(Transition(None, Tween(15, 1500, Power2InOut)))
    else if cur == 1 && prev == 2 then Some(Transition(None, Tween(25, 1200, Power2InOut)))
    else if cur == 4 && prev == 3 then Some(Transition(Some(80), Tween(25, 1500, Power2Out)))
    else if cur == 3 && prev == 4 then Some(Transition(Some(10), Tween(15, 1500, Power2Out)))
    else None
  }

  /** The edges as authored, one by one. */
  lemma AuthoredEdges()
    ensures Edge(0, 1) == Some(Transition(None, Tween(25, 1200, Power2Out)))
    ensures Edge(1, 2) == Some(Transition(None, Tween(15, 1500, Power2InOut)))
    ensures Edge(2, 1) == Some(Transition(None, Tween(25, 1200, Power2InOut)))
    ensures Edge(3, 4) == Some(Transition(Some(80), Tween(25, 1500, Power2Out)))
    ensures Edge(4, 3) == Some(Transition(Some(10), Tween(15, 1500, Power2Out)))
    ensures Edge(1, 0) == None && Edge(2, 3) == None && Edge(3, 2) == None && Edge(0, 4) == None
  {
  }

  /** The director's view: the last stage seen (`prevStageRef`), the camera z and its running tweens. */
  datatype CameraState = CameraState(prevStage: int, z: int, tweens: seq<Tween>)
  {
    /**
     * The effect run after a render with `stage`: a change kills every running tween, applies the
     * edge's preset and starts its tween, so at most one tween runs afterwards; an unchanged stage
     * leaves everything as it was. Either way the previous stage becomes the current one.
     */
    function OnStage(stage: int): (r: CameraState)
      ensures r.prevStage == stage
      ensures stage == prevStage ==> r == this
      ensures stage != prevStage ==> |r.tweens| <= 1
      ensures stage != prevStage ==>
                (r.tweens == [] <==> Edge(prevStage, stage).None?) &&
                (Edge(prevStage, stage).Some? ==> r.tweens == [Edge(prevStage, stage).value.tween])
      ensures r.z != z ==> Edge(prevStage, stage).Some? && Edge(prevStage, stage).value.preset == Some(r.z)
      ensures stage != prevStage && Edge(prevStage, stage).Some? && Edge(prevStage, stage).value.preset.Some? ==>
                r.z == Edge(prevStage, stage).value.preset.value
    {
      if stage == prevStage then this
      else
        match Edge(prevStage, stage)
        case None => CameraState(stage, z, [])
        case Some(Transition(preset, tween)) =>
          var z' := match preset case Some(p) => p case None => z;
          CameraState(stage, z', [tween])
    }
  }

  /** The component's ref and the camera position it animates. */
  class CameraDirector {
    var prevStage: int
    var z: int
    var tweens: seq<Tween>

    function Snapshot(): CameraState
      reads this
    {
      CameraState(prevStage, z, tweens)
    }

    /** Mounted with the store's stage and the canvas camera at z = 5. */
    constructor (stage: int)
      ensures Snapshot() == CameraState(stage, 5, [])
    {
      prevStage := stage;
      z := 5;
      tweens := [];
    }

    method OnStage(stage: int)
      modifies this
      ensures Snapshot() == old(Snapshot()).OnStage(stage)
    {
      if stage != prevStage {
        tweens := [];
        var edge := Edge(prevStage, stage);
        if edge.Some? {
          if edge.value.preset.Some? {
            z := edge.value.preset.value;
          }
          tweens := [edge.value.tween];
        }
      }
      prevStage := stage;
    }
  }
}
