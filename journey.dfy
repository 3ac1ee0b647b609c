/**
 * The whole journey as the page runs it (src/App.jsx with src/scenes/BigBang.jsx): the store,
 * the wheel handler's cooldown flag, the camera director, and the Singularity scene, which is
 * mounted exactly while the stage is 0 and gets a fresh `hasExploded` ref on every mount.
 *
 * After every store update the page re-renders and runs its effects in tree order: the camera
 * director first (a stage change kills every tween of the camera position, the ignition tween
 * included), then the Singularity's ignition effect.
 */
module Journey {
  import opened Common
  import opened Store
  import opened Factors
  import opened App
  import opened Camera
  import opened BigBang

  /** The Singularity scene: not mounted, or mounted with its `hasExploded` ref. */
  datatype Mount = Unmounted | Mounted(sentinel: bool)

  datatype World = World(store: State, scrolling: bool, camera: CameraState, singularity: Mount)

  /** The page as loaded: initial store, idle handler, camera at z = 5, Singularity mounted. */
  const Start: World := World(Initial, false, CameraState(0, 5, []), Mounted(false))

  /** A world after a step, and whether that step started the ignition tween. */
  datatype Effect = Effect(world: World, ignited: bool)

  /** Render with the new store `s` and run the effects. */
  function Settle(w: World, s: State): (r: Effect)
    ensures r.world.store == s && r.world.scrolling == w.scrolling
    ensures r.world.singularity.Mounted? <==> s.stage == 0
    ensures r.ignited <==> s.stage == 0 && s.isExploded && (w.singularity.Unmounted? || w.singularity == Mounted(false))
    ensures r.ignited ==> r.world.singularity == Mounted(true) && IgnitionTween in r.world.camera.tweens
  {
    var camera := w.camera.OnStage(s.stage);
    var mount := if s.stage != 0 then Unmounted else if w.singularity.Unmounted? then Mounted(false) else w.singularity;
    if mount == Mounted(false) && s.isExploded then
      Effect(World(s, w.scrolling, camera.(tweens := camera.tweens + [IgnitionTween]), Mounted(true)), true)
    else
      Effect(World(s, w.scrolling, camera, mount), false)
  }

  /** What the user or the clock can do next. */
  datatype Step =
    | Scroll(event: WheelEvent)
    | CooldownOver           // the handler's 1200 ms timer fires
    | IgnitionDone           // the ignition tween completes and calls its commit
    | ClickSingularity
    | Select(id: string)     // a click on a factor-bearing object
    | TogglePolarity         // the panel's toggle button
    | ClosePanel             // the panel's close button

  /** Which commit the ignition tween calls: the source's, or the corrected one. */
  datatype Guard = AsWritten | Corrected

  predicate Enabled(w: World, step: Step)
  {
    match step
    case CooldownOver => w.scrolling
    case IgnitionDone => IgnitionTween in w.camera.tweens
    case ClickSingularity => w.singularity.Mounted?
    case TogglePolarity => DetailPanel(w.store).Some?
    case ClosePanel => DetailPanel(w.store).Some?
    case _ => true
  }

  function Without(ts: seq<Tween>, t: Tween): seq<Tween>
  {
    if ts == [] then [] else (if ts[0] == t then [] else [ts[0]]) + Without(ts[1..], t)
  }

  function Apply(g: Guard, w: World, step: Step): Effect
  {
    match step
    case Scroll(e) =>
      var d := OnWheel(Debounce(w.store, w.scrolling), e);
      Settle(w.(scrolling := d.scrolling), d.store)
    case CooldownOver => Effect(w.(scrolling := false), false)
    case IgnitionDone =>
      var camera := w.camera.(z := IgnitionTween.targetZ, tweens := Without(w.camera.tweens, IgnitionTween));
      var s := if g == AsWritten then CommitAsWritten(w.store) else Commit(w.store);
      Settle(w.(camera := camera), s)
    case ClickSingularity => Settle(w, PointerDown(w.store))
    case Select(id) => Settle(w, w.store.SetActiveFactor(id))
    case TogglePolarity => Settle(w, w.store.ToggleReverse())
    case ClosePanel => Settle(w, w.store.ClearFactor())
  }

  /** The world after a run of steps, each enabled when it happens (or the last world reached). */
  function Run(g: Guard, w: World, steps: seq<Step>): World
    decreases |steps|
  {
    if steps == [] || !Enabled(w, steps[0]) then w else Run(g, Apply(g, w, steps[0]).world, steps[1..])
  }

  predicate Feasible(w: World, g: Guard, steps: seq<Step>)
    decreases |steps|
  {
    steps == [] || (Enabled(w, steps[0]) && Feasible(Apply(g, w, steps[0]).world, g, steps[1..]))
  }

  /** How many steps of the run start the ignition tween. */
  function Ignitions(g: Guard, w: World, steps: seq<Step>): nat
    decreases |steps|
  {
    if steps == [] || !Enabled(w, steps[0]) then 0
    else (if Apply(g, w, steps[0]).ignited then 1 else 0) + Ignitions(g, Apply(g, w, steps[0]).world, steps[1..])
  }

  /**
   * The camera and the Singularity agree with the last stage the camera saw: the Singularity is
   * mounted exactly at stage 0; the ignition tween runs only there, after the ref was set, and
   * alone; at stage 0 no other tween runs.
   */
  predicate SceneInv(w: World)
  {
    && (w.singularity.Mounted? <==> w.camera.prevStage == 0)
    && (IgnitionTween in w.camera.tweens ==> w.camera.prevStage == 0 && w.singularity == Mounted(true) && w.camera.tweens == [IgnitionTween])
    && (w.camera.prevStage == 0 ==> w.camera.tweens == [] || w.camera.tweens == [IgnitionTween])
  }

  /**
   * What every reachable world satisfies, whichever commit is used: the stage stays in 0..4;
   * the camera has seen the current stage; the scene invariant; while the Singularity's ref
   * is unset the Big Bang has not happened; and only registered factors have been toggled.
   */
  predicate Inv(w: World)
  {
    && StageInRange(w.store)
    && w.camera.prevStage == w.store.stage
    && SceneInv(w)
    && (w.singularity == Mounted(false) ==> !w.store.isExploded)
    && w.store.reversedFactors.Keys <= Registry.Keys
  }

  /** Rendering any in-range store from a world whose scene invariant holds yields an invariant world. */
  lemma SettleInv(w: World, s: State)
    requires SceneInv(w)
    requires StageInRange(s) && s.reversedFactors.Keys <= Registry.Keys
    ensures Inv(Settle(w, s).world)
    ensures Settle(w, s).world.store == s
  {
    var camera := w.camera.OnStage(s.stage);
    if s.stage != w.camera.prevStage {
      assert camera.tweens == [] || (|camera.tweens| == 1 && camera.tweens[0].targetZ != 50);
    }
  }

  lemma WithoutRemoves(ts: seq<Tween>, t: Tween)
    ensures ts == [t] ==> Without(ts, t) == []
  {
    if ts == [t] {
      assert ts[1..] == [];
    }
  }

  /** Every enabled step keeps the invariant; with the corrected commit it also keeps coherence. */
  lemma InvStep(g: Guard, w: World, step: Step)
    requires Inv(w) && Enabled(w, step)
    ensures Inv(Apply(g, w, step).world)
    ensures g == Corrected && Coherent(w.store) ==> Coherent(Apply(g, w, step).world.store)
  {
    match step
    case Scroll(e) => ScrollInv(g, w, e);
    case CooldownOver =>
    case IgnitionDone => IgnitionInv(g, w);
    case ClickSingularity => SettleInv(w, PointerDown(w.store));
    case Select(id) => SettleInv(w, w.store.SetActiveFactor(id));
    case TogglePolarity => ToggleInv(g, w);
    case ClosePanel => SettleInv(w, w.store.ClearFactor());
  }

  lemma ScrollInv(g: Guard, w: World, e: WheelEvent)
    requires Inv(w)
    ensures Inv(Apply(g, w, Scroll(e)).world)
    ensures Coherent(w.store) ==> Coherent(Apply(g, w, Scroll(e)).world.store)
  {
    var d := OnWheel(Debounce(w.store, w.scrolling), e);
    SettleInv(w.(scrolling := d.scrolling), d.store);
  }

  lemma IgnitionInv(g: Guard, w: World)
    requires Inv(w) && Enabled(w, IgnitionDone)
    ensures Inv(Apply(g, w, IgnitionDone).world)
    ensures g == Corrected && Coherent(w.store) ==> Coherent(Apply(g, w, IgnitionDone).world.store)
  {
    WithoutRemoves(w.camera.tweens, IgnitionTween);
    var camera := w.camera.(z := IgnitionTween.targetZ, tweens := Without(w.camera.tweens, IgnitionTween));
    var s := if g == AsWritten then CommitAsWritten(w.store) else Commit(w.store);
    SettleInv(w.(camera := camera), s);
  }

  lemma ToggleInv(g: Guard, w: World)
    requires Inv(w) && Enabled(w, TogglePolarity)
    ensures Inv(Apply(g, w, TogglePolarity).world)
    ensures Coherent(w.store) ==> Coherent(Apply(g, w, TogglePolarity).world.store)
  {
    assert w.store.activeFactorId.Some? && w.store.activeFactorId.value in Registry;
    SettleInv(w, w.store.ToggleReverse());
  }

  lemma StartInv()
    ensures Inv(Start) && Coherent(Start.store)
  {
  }

  /** Every world reachable from the start satisfies the invariant; with the corrected commit, also coherence. */
  lemma {:induction false} RunKeepsInv(g: Guard, w: World, steps: seq<Step>)
    requires Inv(w)
    ensures Inv(Run(g, w, steps))
    ensures g == Corrected && Coherent(w.store) ==> Coherent(Run(g, w, steps).store)
    decreases |steps|
  {
    if steps != [] && Enabled(w, steps[0]) {
      InvStep(g, w, steps[0]);
      RunKeepsInv(g, Apply(g, w, steps[0]).world, steps[1..]);
    }
  }

  /**
   * The commit's stage check never fails in the running page: any change of stage kills the
   * camera tweens, the ignition tween with them, before it can complete.
   */
  lemma CommitGuardAlwaysHolds(w: World)
    requires Inv(w) && Enabled(w, IgnitionDone)
    ensures w.store.stage == 0
  {
  }

  /**
   * At most one ignition per mount: over any run during which the Singularity stays mounted,
   * at most one step starts the ignition tween, and none once the ref is set.
   */
  lemma {:induction false} OneIgnitionPerMount(g: Guard, w: World, steps: seq<Step>)
    requires Inv(w)
    requires forall k :: 0 <= k <= |steps| ==> Run(g, w, steps[..k]).store.stage == 0
    ensures Ignitions(g, w, steps) <= 1
    ensures w.singularity == Mounted(true) ==> Ignitions(g, w, steps) == 0
    decreases |steps|
  {
    if steps != [] && Enabled(w, steps[0]) {
      var e := Apply(g, w, steps[0]);
      InvStep(g, w, steps[0]);
      assert steps[..1] == [steps[0]];
      assert Run(g, w, steps[..1]) == e.world by {
        assert steps[..1][1..] == [];
      }
      assert e.world.store.stage == 0;
      forall k | 0 <= k <= |steps[1..]|
        ensures Run(g, e.world, steps[1..][..k]).store.stage == 0
      {
        assert steps[..k + 1][0] == steps[0] && steps[..k + 1][1..] == steps[1..][..k];
        assert Run(g, w, steps[..k + 1]) == Run(g, e.world, steps[1..][..k]);
      }
      OneIgnitionPerMount(g, e.world, steps[1..]);
      assert e.ignited ==> e.world.singularity == Mounted(true);
      assert w.singularity == Mounted(true) ==> !e.ignited && e.world.singularity == Mounted(true);
    }
  }

  /** The scenario that reaches stage 1 with `isExploded` false when the commit is as written. */
  const IgniteThenRetreat: seq<Step> :=
    [Scroll(WheelEvent(10.0, false, false)), CooldownOver, Scroll(WheelEvent(-10.0, false, false)), IgnitionDone]

  /**
   * As written, scroll down (ignite), wait for the cooldown, scroll up (retreat at stage 0, which
   * clears `isExploded` but leaves the stage, so the tween survives), and the completing tween
   * commits stage 1 unexploded; with the corrected commit the page stays at the re-armed Singularity.
   */
  lemma StageOneUnexplodedReachable()
    ensures Feasible(Start, AsWritten, IgniteThenRetreat)
    ensures var w := Run(AsWritten, Start, IgniteThenRetreat);
            w.store.stage == 1 && !w.store.isExploded && !Coherent(w.store) && !OrbitControlsShown(w.store)
    ensures var w := Run(Corrected, Start, IgniteThenRetreat);
            w.store.stage == 0 && !w.store.isExploded && w.singularity == Mounted(true)
  {
  }

  /**
   * Re-igniting after a retreat within the same mount starts no second tween: the ref is
   * already set, so only the first scroll down ignites.
   */
  lemma ReignitionStartsNoTween()
    ensures var steps := [Scroll(WheelEvent(10.0, false, false)), CooldownOver,
                          Scroll(WheelEvent(-10.0, false, false)), CooldownOver,
                          Scroll(WheelEvent(10.0, false, false))];
            Ignitions(Corrected, Start, steps) == 1 && Ignitions(AsWritten, Start, steps) == 1 &&
            Run(AsWritten, Start, steps).store.isExploded && Run(AsWritten, Start, steps).camera.tweens == [IgnitionTween]
  {
  }
}
