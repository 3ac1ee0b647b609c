/**
 * The `App` component (src/App.jsx): the wheel handler that turns scroll events into
 * store transitions, the detail panel of the active factor, and the choice of the
 * mounted scene and of the orbit controls from the store's state.
 */
module App {
  import opened Common
  import opened Store
  import opened Factors

  // ---------------------------------------------------------------------------
  // Detail panel
  // ---------------------------------------------------------------------------

  /** `reversedFactors[activeFactorId] || false`. */
  function IsReversed(s: State): bool
  {
    Flag(s.reversedFactors, PropertyKey(s.activeFactorId))
  }

  /** What the factor panel shows: heading, body, "nature of the factor" text and toggle button text. */
  datatype Panel = Panel(title: string, description: string, influence: string, toggleLabel: string)

  /** The words in front of the target state's name on the toggle button ("Switch on "). */
  const TogglePrefix: string := "Включить "

  /**
   * The panel renders when `activeFactorId` is a non-empty id present in the registry
   * (`activeFactorId && FACTORS_DATA[activeFactorId]`); heading and body are the reversed
   * texts exactly when the factor is reversed; the influence text ignores reversal.
   */
  function DetailPanel(s: State): (r: Option<Panel>)
    ensures r.Some? <==> s.activeFactorId.Some? && s.activeFactorId.value != "" && s.activeFactorId.value in Registry
    ensures r.Some? ==>
              var f := Registry[s.activeFactorId.value];
              r.value.influence == f.influence &&
              (IsReversed(s) ==> r.value.title == f.reverseName && r.value.description == f.reverseDescription) &&
              (!IsReversed(s) ==> r.value.title == f.name && r.value.description == f.description)
  {
    match s.activeFactorId
    case None => None
    case Some(id) =>
      if id == "" then None
      else match Lookup(id)
        case None => None
        case Some(f) =>
          var rev := IsReversed(s);
          Some(Panel(
            if rev then f.reverseName else f.name,
            if rev then f.reverseDescription else f.description,
            f.influence,
            TogglePrefix + (if rev then f.name else f.reverseName)))
  }

  /**
   * The toggle button names the state it switches to: after `toggleReverse` the panel's
   * heading is the name the button announced, the influence text is unchanged, and
   * pressing it again restores the panel.
   */
  lemma ToggleButtonNamesNextState(s: State)
    requires DetailPanel(s).Some?
    ensures DetailPanel(s.ToggleReverse()).Some?
    ensures DetailPanel(s).value.toggleLabel == TogglePrefix + DetailPanel(s.ToggleReverse()).value.title
    ensures DetailPanel(s.ToggleReverse()).value.toggleLabel == TogglePrefix + DetailPanel(s).value.title
    ensures DetailPanel(s.ToggleReverse()).value.influence == DetailPanel(s).value.influence
    ensures DetailPanel(s.ToggleReverse().ToggleReverse()) == DetailPanel(s)
  {
  }

  /** Closing the panel, or moving one stage in either direction, hides it. */
  lemma PanelClosesOnNavigation(s: State)
    ensures DetailPanel(s.ClearFactor()).None?
    ensures DetailPanel(s.NextStage()).None?
    ensures DetailPanel(s.PrevStage()).None?
  {
  }

  /** Reopening a factor after closing its panel shows it in the polarity it was left in. */
  lemma ReopenShowsSamePolarity(s: State, id: string)
    requires id != "" && id in Registry
    ensures DetailPanel(s.SetActiveFactor(id).ToggleReverse().ClearFactor().SetActiveFactor(id)) ==
            DetailPanel(s.SetActiveFactor(id).ToggleReverse())
    ensures DetailPanel(s.SetActiveFactor(id).ToggleReverse()).value.title ==
            (if Flag(s.reversedFactors, id) then Registry[id].name else Registry[id].reverseName)
  {
  }

  // ---------------------------------------------------------------------------
  // Scene selection
  // ---------------------------------------------------------------------------

  datatype Scene = BigBangScene | CosmosScene | PlanetScene | MicroCosmosScene

  /** The scenes the four conditional elements mount for a stage. */
  function MountedScenes(stage: int): (r: set<Scene>)
    ensures 0 <= stage <= LastStage <==> |r| == 1
    ensures BigBangScene in r <==> stage == 0
    ensures CosmosScene in r <==> stage == 1
    ensures PlanetScene in r <==> stage == 2 || stage == 3
    ensures MicroCosmosScene in r <==> stage == 4
  {
    (if stage == 0 then {BigBangScene} else {}) +
    (if stage == 1 then {CosmosScene} else {}) +
    (if stage == 2 || stage == 3 then {PlanetScene} else {}) +
    (if stage == 4 then {MicroCosmosScene} else {})
  }

  /** Orbit controls are mounted once the Big Bang has happened, from stage 1 on. */
  function OrbitControlsShown(s: State): (r: bool)
    ensures r ==> s.isExploded
    ensures r ==> CosmosScene in MountedScenes(s.stage) || PlanetScene in MountedScenes(s.stage)
                  || MicroCosmosScene in MountedScenes(s.stage) || s.stage > LastStage
    ensures StageInRange(s) && Coherent(s) ==> (r <==> BigBangScene !in MountedScenes(s.stage))
  {
    s.isExploded && s.stage >= 1
  }

  // ---------------------------------------------------------------------------
  // Wheel handler
  // ---------------------------------------------------------------------------

  datatype WheelEvent = WheelEvent(deltaY: real, ctrlKey: bool, metaKey: bool)

  /** The cooldown after an accepted event, in milliseconds. */
  const CooldownMs: int := 1200

  function Abs(x: real): real { if x < 0.0 then -x else x }

  /** Minimum |deltaY| for an event to count: coarse scrolls only once past the Singularity. */
  function Threshold(stage: int): (t: real)
    ensures t == 5.0 || t == 80.0
    ensures t == 80.0 <==> stage >= 1
  {
    if stage >= 1 then 80.0 else 5.0
  }

  /** The store action an accepted event calls. */
  datatype Command = Ignite | Advance | Retreat

  /**
   * Forward scrolls ignite at an unexploded Singularity and advance otherwise; backward
   * scrolls retreat; a zero delta calls nothing.
   */
  function Dispatch(s: State, deltaY: real): (r: Option<Command>)
    ensures r == Some(Ignite) <==> deltaY > 0.0 && s.stage == 0 && !s.isExploded
    ensures r == Some(Advance) <==> deltaY > 0.0 && !(s.stage == 0 && !s.isExploded)
    ensures r == Some(Retreat) <==> deltaY < 0.0
    ensures r.None? <==> deltaY == 0.0
  {
    if deltaY > 0.0 then
      if s.stage == 0 && !s.isExploded then Some(Ignite) else Some(Advance)
    else if deltaY < 0.0 then Some(Retreat)
    else None
  }

  /** Runs the store action a command names; none of them touches the reversed flags. */
  function Perform(s: State, c: Option<Command>): (r: State)
    ensures c.None? ==> r == s
    ensures r.reversedFactors == s.reversedFactors
    ensures StageInRange(s) ==> StageInRange(r)
    ensures Coherent(s) ==> Coherent(r)
  {
    match c
    case None => s
    case Some(Ignite) => s.TriggerBang()
    case Some(Advance) => s.NextStage()
    case Some(Retreat) => s.PrevStage()
  }

  /** What the handler does with one event. */
  datatype Outcome =
    | ModifierHeld        // ctrl or meta: a zoom gesture, not navigation
    | BelowThreshold      // too small for the current stage
    | CoolingDown         // dropped while the cooldown flag is set
    | Accepted(command: Option<Command>)

  /**
   * The handler's decision, in the source's order: modifier keys, then the stage's
   * threshold (|deltaY| equal to it passes), then the cooldown flag.
   */
  function Classify(s: State, scrolling: bool, e: WheelEvent): (r: Outcome)
    ensures r == ModifierHeld <==> e.ctrlKey || e.metaKey
    ensures r == BelowThreshold <==> !e.ctrlKey && !e.metaKey && Abs(e.deltaY) < Threshold(s.stage)
    ensures r.Accepted? <==> !e.ctrlKey && !e.metaKey && Abs(e.deltaY) >= Threshold(s.stage) && !scrolling
    ensures r.Accepted? ==> r.command.Some? && r.command == Dispatch(s, e.deltaY)
  {
    if e.ctrlKey || e.metaKey then ModifierHeld
    else if Abs(e.deltaY) < Threshold(s.stage) then BelowThreshold
    else if scrolling then CoolingDown
    else Accepted(Dispatch(s, e.deltaY))
  }

  /** The store together with the handler's closure flag `isScrolling`. */
  datatype Debounce = Debounce(store: State, scrolling: bool)

  /** One wheel event: only an accepted event changes the store and arms the cooldown. */
  function OnWheel(d: Debounce, e: WheelEvent): (r: Debounce)
    ensures !Classify(d.store, d.scrolling, e).Accepted? ==> r == d
    ensures Classify(d.store, d.scrolling, e).Accepted? ==>
              r.scrolling && !d.scrolling && r.store == Perform(d.store, Dispatch(d.store, e.deltaY))
  {
    match Classify(d.store, d.scrolling, e)
    case Accepted(c) => Debounce(Perform(d.store, c), true)
    case _ => d
  }

  /** The 1200 ms timer clears the flag and nothing else. */
  function OnTimer(d: Debounce): (r: Debounce)
    ensures r.store == d.store && !r.scrolling
  {
    d.(scrolling := false)
  }

  /** The handler registered on `window`: its closure flag and the store it drives. */
  class WheelHandler {
    var isScrolling: bool
    const store: GlobalStore

    constructor (store: GlobalStore)
      ensures this.store == store && !isScrolling
    {
      this.store := store;
      isScrolling := false;
    }

    method HandleWheel(e: WheelEvent) returns (outcome: Outcome)
      modifies this, store
      ensures outcome == Classify(old(store.Snapshot()), old(isScrolling), e)
      ensures Debounce(store.Snapshot(), isScrolling) == OnWheel(Debounce(old(store.Snapshot()), old(isScrolling)), e)
    {
      if e.ctrlKey || e.metaKey {
        return ModifierHeld;
      }
      var threshold := Threshold(store.stage);
      if Abs(e.deltaY) < threshold {
        return BelowThreshold;
      }
      if isScrolling {
        return CoolingDown;
      }
      isScrolling := true;
      var command := Dispatch(store.Snapshot(), e.deltaY);
      if e.deltaY > 0.0 {
        if store.stage == 0 && !store.isExploded {
          store.TriggerBang();
        } else {
          store.NextStage();
        }
      } else if e.deltaY < 0.0 {
        store.PrevStage();
      }
      outcome := Accepted(command);
    }

    method TimerFired()
      modifies this
      ensures !isScrolling
    {
      isScrolling := false;
    }
  }

  /** A deltaY of 50 is ignored past the Singularity but counts at it; a deltaY exactly at the threshold counts. */
  lemma ThresholdExamples(s: State)
    ensures s.stage >= 1 ==> Classify(s, false, WheelEvent(50.0, false, false)) == BelowThreshold
    ensures s.stage == 0 ==> Classify(s, false, WheelEvent(50.0, false, false)).Accepted?
    ensures Classify(s, false, WheelEvent(-Threshold(s.stage), false, false)) == Accepted(Some(Retreat))
  {
  }

  // ---------------------------------------------------------------------------
  // The cooldown over time
  // ---------------------------------------------------------------------------

  /** What can happen next: a wheel event or the pending timer firing, each at a time in ms. */
  datatype Input = WheelAt(time: int, event: WheelEvent) | TimerAt(time: int)

  /** Handler state with the clock: the time of the last input and when the timer was armed. */
  datatype Clocked = Clocked(deb: Debounce, now: int, armedAt: int)

  /** Inputs come in time order, and the timer fires only while armed and not before its delay. */
  predicate CanHappen(c: Clocked, i: Input)
  {
    i.time >= c.now &&
    (i.TimerAt? ==> c.deb.scrolling && i.time >= c.armedAt + CooldownMs)
  }

  function Next(c: Clocked, i: Input): Clocked
  {
    match i
    case WheelAt(t, e) =>
      var accepted := Classify(c.deb.store, c.deb.scrolling, e).Accepted?;
      Clocked(OnWheel(c.deb, e), t, if accepted then t else c.armedAt)
    case TimerAt(t) => Clocked(OnTimer(c.deb), t, c.armedAt)
  }

  predicate Feasible(c: Clocked, inputs: seq<Input>)
    decreases |inputs|
  {
    inputs == [] || (CanHappen(c, inputs[0]) && Feasible(Next(c, inputs[0]), inputs[1..]))
  }

  /** The times of the events the handler accepts. */
  function AcceptTimes(c: Clocked, inputs: seq<Input>): seq<int>
    decreases |inputs|
  {
    if inputs == [] then []
    else
      var i := inputs[0];
      var first := if i.WheelAt? && Classify(c.deb.store, c.deb.scrolling, i.event).Accepted? then [i.time] else [];
      first + AcceptTimes(Next(c, i), inputs[1..])
  }

  /** Any two times in `a` are a full cooldown apart. */
  predicate Spaced(a: seq<int>)
  {
    forall i, j :: 0 <= i < j < |a| ==> a[i] + CooldownMs <= a[j]
  }

  /**
   * At most one transition per cooldown window: any two accepted events lie at least
   * 1200 ms apart, and while the flag is set nothing is accepted before the timer's delay.
   */
  lemma {:induction false} AcceptedEventsSpaced(c: Clocked, inputs: seq<Input>)
    requires Feasible(c, inputs)
    ensures Spaced(AcceptTimes(c, inputs))
    ensures forall t :: t in AcceptTimes(c, inputs) ==> t >= c.now
    ensures c.deb.scrolling ==> forall t :: t in AcceptTimes(c, inputs) ==> t >= c.armedAt + CooldownMs
    decreases |inputs|
  {
    if inputs != [] {
      var i := inputs[0];
      var next := Next(c, i);
      AcceptedEventsSpaced(next, inputs[1..]);
      var rest := AcceptTimes(next, inputs[1..]);
      if i.WheelAt? && Classify(c.deb.store, c.deb.scrolling, i.event).Accepted? {
        assert AcceptTimes(c, inputs) == [i.time] + rest;
        assert next.deb.scrolling && next.armedAt == i.time;
        var a := [i.time] + rest;
        forall p, q | 0 <= p < q < |a| ensures a[p] + CooldownMs <= a[q] {
          if p > 0 {
            assert a[p] == rest[p - 1] && a[q] == rest[q - 1];
          } else {
            assert a[q] == rest[q - 1] && a[q] in rest;
          }
        }
      } else {
        assert AcceptTimes(c, inputs) == rest;
      }
    }
  }

  /**
   * A burst of forward scrolls shorter than the cooldown, with no timer in between,
   * produces exactly one transition when the handler starts idle.
   */
  lemma {:induction false} BurstAcceptsOne(c: Clocked, inputs: seq<Input>)
    requires |inputs| > 0 && !c.deb.scrolling
    requires forall k :: 0 <= k < |inputs| ==>
               inputs[k].WheelAt? && inputs[k].event == WheelEvent(200.0, false, false)
    ensures |AcceptTimes(c, inputs)| == 1
  {
    assert Classify(c.deb.store, false, inputs[0].event).Accepted?;
    NoAcceptWhileCooling(Next(c, inputs[0]), inputs[1..]);
    assert AcceptTimes(c, inputs) == [inputs[0].time] + AcceptTimes(Next(c, inputs[0]), inputs[1..]);
  }

  /** The handler state after all the inputs. */
  function Run(c: Clocked, inputs: seq<Input>): Clocked
    decreases |inputs|
  {
    if inputs == [] then c else Run(Next(c, inputs[0]), inputs[1..])
  }

  /**
   * With the flag set and no timer firing, every wheel event is dropped, not queued:
   * nothing is accepted, the store does not change and the flag stays set.
   */
  lemma {:induction false} NoAcceptWhileCooling(c: Clocked, inputs: seq<Input>)
    requires c.deb.scrolling
    requires forall k :: 0 <= k < |inputs| ==> inputs[k].WheelAt?
    ensures AcceptTimes(c, inputs) == []
    ensures Run(c, inputs).deb == c.deb
    decreases |inputs|
  {
    if inputs != [] {
      assert !Classify(c.deb.store, c.deb.scrolling, inputs[0].event).Accepted?;
      NoAcceptWhileCooling(Next(c, inputs[0]), inputs[1..]);
    }
  }
}
