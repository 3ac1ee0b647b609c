# Constructor of Reality — a verified model of its navigation and state logic

"Constructor of Reality" is a scroll-driven 3D story in five stages: 0 the Singularity, 1 the
Cosmos, 2 Nature, 3 Civilisation and 4 Micro-consciousness. A global store holds the stage,
whether the Big Bang has happened, the factor whose detail panel is open and a per-factor
"reversed" flag. A wheel handler with a 1200 ms cooldown moves the story forward and back. A
camera director tweens the camera on each stage change. The Singularity scene ignites the Big
Bang and, when its camera tween completes, commits stage 1. The scenes carry small data
structures and helpers: a comet's bounded tail history, a seeded generator, "A / B" trigger
labels, a proximity network of neurons, building growth and per-layer click counters. A
maintenance script injects a font into `<Text>` tags.

This project models that core in Dafny and proves what the code promises about it. Each
source file becomes one module:

| module | file | models |
|---|---|---|
| `Store` | store.dfy | `useStore`: the state, each action as a function of the old state, and the class `GlobalStore` whose methods perform them in place |
| `Factors` | factors.dfy | `FACTORS_DATA`: the 33 factors and their texts |
| `App` | app.dfy | the detail panel, the stage-to-scene mapping, the orbit controls, the wheel handler (class `WheelHandler`), and the cooldown over timed input traces |
| `Camera` | camera.dfy | `CameraTransition`: the five authored edges and the class `CameraDirector` |
| `BigBang` | bigbang.dfy | the Singularity: pointer-down ignition, the `hasExploded` sentinel and the guarded commit (class `Singularity`) |
| `Journey` | journey.dfy | the page as a whole: store, cooldown flag, camera tweens and the Singularity's mount, stepped by scrolls, timers, tween completion and clicks |
| `Planet` | planet.dfy | the seeded generator (class `Generator`), the continent loop, trigger labels and trigger sets, rotation, building eras and the in-place building-scale update |
| `Cosmos` | cosmos.dfy | the comet (class `Comet` over its `tailPos` array), the `makeRays` buffer and the gravity ring |
| `MicroCosmos` | microcosmos.dfy | the neuron and link loops, and the abstraction and mutation nodes (class `Nodes`) |
| `SceneLayers` | scenelayers.dfy | `LAYERS_DATA`, `handleNodeClick` and its click counts (class `LayersView`) |
| `ReplaceFonts` | replacefonts.dfy | the `<Text …>` rewrite, its change flag and the script's loop over the files (class `Disk`) |
| `Common` | common.dfy | `Option`, `Min`, `Max` |

Four behaviours of the code that the model keeps as they are:
- `setStage` writes its argument as it is. It does not clamp to 0..4.
- The wheel threshold rejects an event only when `|deltaY|` is below the threshold
  (src/App.jsx:314), so an event whose `|deltaY|` equals 80 is accepted. The comment at
  src/App.jsx:312 says "deltaY > 80".
- `prevStage` at stage 0 clears `isExploded` as well, although the stage does not change.
- `toggleReverse` with no active factor writes the key `"null"`.

## Model

| member | source | states |
|---|---|---|
| Store.GlobalStore.constructor | src/store.js:11-16 | the store starts at stage 0, not exploded, with no active factor and no reversed factor; this state is in range and coherent |
| Store.PropertyKey | src/store.js:21 | indexing with an absent id uses the key "null", as JavaScript does with `obj[null]`; a present id is its own key (the definition; `Store.State.ToggleReverse` states what toggling through that key does) |
| Store.Flag | src/store.js:21 | a key that was never written reads as false; a written key reads as its stored value |
| Store.State.SetActiveFactor | src/store.js:17 | only the active factor changes, to the given id |
| Store.GlobalStore.SetActiveFactor | src/store.js:17 | the store's fields become exactly `State.SetActiveFactor` of the old fields |
| Store.State.ToggleReverse | src/store.js:18-23 | the flag under the active factor's key flips; that key is `"null"` when no factor is active; every other key keeps its presence and value; the key set grows by that key only; the other fields are unchanged |
| Store.GlobalStore.ToggleReverse | src/store.js:18-23 | the store's fields become exactly `State.ToggleReverse` of the old fields |
| Store.State.ClearFactor | src/store.js:25 | the active factor becomes null; the other fields, the reversed flags included, are unchanged |
| Store.GlobalStore.ClearFactor | src/store.js:25 | the store's fields become exactly `State.ClearFactor` of the old fields |
| Store.State.SetStage | src/store.js:27 | the stage becomes the argument unclamped; nothing else changes |
| Store.GlobalStore.SetStage | src/store.js:27 | the store's fields become exactly `State.SetStage` of the old fields |
| Store.State.NextStage | src/store.js:28-32 | the stage goes up by one, capped at 4, and stays in 0..4; the Big Bang is marked done, so the result is coherent; the panel closes; the reversed flags are kept |
| Store.GlobalStore.NextStage | src/store.js:28-32 | the store's fields become exactly `State.NextStage` of the old fields |
| Store.State.PrevStage | src/store.js:33-40 | the stage goes down by one, floored at 0, and stays in 0..4; `isExploded` holds afterwards iff the new stage is above 0 and it held before; coherence is preserved; the panel closes; the reversed flags are kept |
| Store.GlobalStore.PrevStage | src/store.js:33-40 | the store's fields become exactly `State.PrevStage` of the old fields |
| Store.State.TriggerBang | src/store.js:41 | only `isExploded` changes, to true; coherence is preserved |
| Store.GlobalStore.TriggerBang | src/store.js:41 | the store's fields become exactly `State.TriggerBang` of the old fields |
| Store.ToggleTwiceRestores | src/store.js:18-23 | toggling twice gives every key its original reading and keeps the active factor |
| Store.ClearFactorIdempotent | src/store.js:25 | closing the panel twice is the same as closing it once |
| Store.TriggerBangIdempotent | src/store.js:41 | triggering the Big Bang twice is the same as once |
| Store.MovesKeepFlags | src/store.js:25-41 | any sequence of next, prev, bang and clear keeps the reversed flags, keeps the stage in 0..4 and preserves "stage > 0 implies exploded" |
| Store.ReversalPersists | src/store.js:17-25 | a factor toggled, closed, navigated away from and back to, and reselected reads as the opposite of its original polarity |
| Store.PrevUndoesNext | src/store.js:28-40 | below stage 4, next then prev returns to the same stage and the same flags, with `isExploded` set iff that stage is above 0 |
| Store.NextUndoesPrev | src/store.js:28-40 | above stage 0 and exploded, prev then next restores the state with the panel closed |
| Store.IgniteRetreatScenario | src/store.js:28-41 | from the start: bang, then next reaches stage 1; prev returns to stage 0 unexploded; a further bang re-arms it |
| Factors.Lookup | src/App.jsx:12-251 | an entry is returned iff the id is registered, and the entry returned is the registered one |
| App.DetailPanel | src/App.jsx:427-450 | the panel renders iff the active id is non-empty and registered; the title and description come from the reverse fields iff the factor is reversed; the influence text ignores reversal |
| App.ToggleButtonNamesNextState | src/App.jsx:450 | the toggle button announces exactly the title shown after the toggle, in both directions; the influence text is unchanged; toggling twice restores the panel |
| App.PanelClosesOnNavigation | src/App.jsx:427 | after clear, next or prev, no panel renders |
| App.ReopenShowsSamePolarity | src/App.jsx:302 | closing and reopening a factor shows the polarity it was left in, which is the opposite of its original one |
| App.IsReversed | src/App.jsx:302 | whether the open factor is reversed, read through `Store.Flag` and `Store.PropertyKey` (no contract of its own; `App.DetailPanel`, `App.ReopenShowsSamePolarity` and `Planet.TriggerOpensPanel` state what it decides) |
| App.MountedScenes | src/App.jsx:370-373 | exactly one scene is mounted iff the stage is in 0..4; BigBang iff stage 0; Cosmos iff stage 1; Planet iff stage 2 or 3; MicroCosmos iff stage 4 |
| App.OrbitControlsShown | src/App.jsx:347 | the controls show only once the Big Bang has happened, and only when a scene past the Singularity is mounted; for an in-range, coherent state they show iff the BigBang scene is not mounted |
| App.Dispatch | src/App.jsx:319-327 | a positive delta ignites iff at an unexploded stage 0 and advances otherwise; a negative delta retreats; a zero delta calls nothing |
| App.Perform | src/App.jsx:320-327 | no command leaves the store as it was; no command touches the reversed flags; a stage in range and a coherent store stay so |
| App.Classify | src/App.jsx:306-318 | modifier keys drop the event; an event below the stage's threshold is dropped; otherwise the event is accepted iff the cooldown flag is clear, with the dispatched command |
| App.Threshold | src/App.jsx:313 | the wheel threshold is 5 or 80, and it is 80 exactly from stage 1 on |
| App.OnWheel | src/App.jsx:306-329 | a dropped event changes neither the store nor the flag; an accepted one performs its command and arms the flag |
| App.WheelHandler.constructor | src/App.jsx:305 | the closure flag starts clear |
| App.WheelHandler.HandleWheel | src/App.jsx:306-329 | returns the classification of the event; the store and the flag become exactly what `OnWheel` computes |
| App.WheelHandler.TimerFired | src/App.jsx:329 | the timer clears the flag |
| App.OnTimer | src/App.jsx:329 | the timer clears the scrolling flag and leaves the store as it was |
| App.ThresholdExamples | src/App.jsx:313-314 | a delta of 50 is dropped from stage 1 on and accepted at stage 0; a delta exactly at the threshold is accepted |
| App.AcceptedEventsSpaced | src/App.jsx:316-329 | over any feasible timed trace, any two accepted events are at least 1200 ms apart, and nothing is accepted before the armed timer's delay |
| App.NoAcceptWhileCooling | src/App.jsx:316 | while the flag is set and no timer fires, events are dropped, not queued: nothing is accepted and the state is unchanged |
| App.BurstAcceptsOne | src/App.jsx:316-317 | a burst of forward scrolls with no timer in between, starting idle, performs exactly one transition |
| Camera.Edge | src/App.jsx:263-292 | a tween exists iff the edge is one of 0→1, 1→2, 2→1, 3→4 or 4→3; edges join adjacent stages; a preset is only used between stages 3 and 4 |
| Camera.AuthoredEdges | src/App.jsx:263-292 | each edge's preset, target z, duration and ease are as authored; 1→0, 2→3, 3→2 and jumps issue none |
| Camera.CameraState.OnStage | src/App.jsx:259-295 | the previous stage always becomes the current one; an unchanged stage leaves everything alone; a change kills every tween and leaves only the edge's tween, if any; z moves only to an edge's preset, and a change along an edge with a preset (80 before 3→4, 10 before 4→3) sets z to it |
| Camera.CameraDirector.constructor | src/App.jsx:341 | the camera starts at z = 5 with no tween, and the ref holds the mounting stage |
| Camera.CameraDirector.OnStage | src/App.jsx:259-295 | the ref, z and tweens become exactly `CameraState.OnStage` of the old ones |
| BigBang.PointerDown | src/scenes/BigBang.jsx:76-80 | a click leaves the store exploded; it changes nothing else, and nothing at all if the store was already exploded |
| BigBang.Singularity.HandlePointerDown | src/scenes/BigBang.jsx:76-80 | the store becomes exactly `PointerDown` of the old store |
| BigBang.Singularity.constructor | src/scenes/BigBang.jsx:55 | a fresh mount starts with the sentinel unset and no ignition running |
| BigBang.Singularity.OnExplodedChanged | src/scenes/BigBang.jsx:57-73 | the tween starts iff the store is exploded and the sentinel was unset; the sentinel is then set and never cleared, so a set sentinel starts nothing |
| BigBang.CommitAsWritten | src/scenes/BigBang.jsx:65-69 | as written: stage 0 becomes stage 1, any other state is dropped unchanged, and `isExploded` is never consulted |
| BigBang.Singularity.OnIgnitionComplete | src/scenes/BigBang.jsx:65-69 | the ignition stops running; the store becomes `CommitAsWritten` of the old store |
| BigBang.CommitAsWrittenBreaksCoherence | src/scenes/BigBang.jsx:65-69 | bang, then prev at stage 0, is coherent; the commit as written then reaches stage 1 unexploded; the corrected commit returns the initial state |
| BigBang.Commit | src/scenes/BigBang.jsx:65-69 | corrected: commits stage 1 only at an exploded stage 0; keeps the stage range and coherence |
| Journey.SettleInv | src/App.jsx:254-298 | re-rendering any in-range store keeps the page invariant: the camera has seen the stage; the Singularity is mounted exactly at stage 0; the ignition tween runs only at stage 0 after the sentinel was set, and alone |
| Journey.InvStep | src/scenes/BigBang.jsx:57-73 | every enabled step keeps the page invariant; with the corrected commit every step also preserves coherence |
| Journey.ScrollInv | src/App.jsx:306-329 | a scroll keeps the invariant and preserves coherence under either commit |
| Journey.IgnitionInv | src/scenes/BigBang.jsx:65-69 | the ignition tween's completion keeps the invariant; under the corrected commit it preserves coherence |
| Journey.ToggleInv | src/store.js:18-23 | the panel's toggle keeps the invariant, and only registered factors are ever flagged |
| Journey.StartInv | src/store.js:11-16 | the page as loaded satisfies the invariant and coherence |
| Journey.Settle | src/App.jsx:254-298 | a re-render takes the new store as it is; the Singularity is mounted exactly at stage 0; the ignition tween starts iff the store is exploded at stage 0 and the mounted sentinel is unset, and then the sentinel is set and the tween is queued |
| Journey.RunKeepsInv | src/scenes/BigBang.jsx:57-73 | every reachable page satisfies the invariant; with the corrected commit, also coherence |
| Journey.CommitGuardAlwaysHolds | src/scenes/BigBang.jsx:67 | whenever the ignition tween can complete, the stage is 0, because any stage change has killed the tween |
| Journey.OneIgnitionPerMount | src/scenes/BigBang.jsx:55-59 | while the Singularity stays mounted, at most one step starts the ignition tween, and none once the sentinel is set |
| Journey.StageOneUnexplodedReachable | src/scenes/BigBang.jsx:65-69 | scroll down, cooldown, scroll up, tween completes: as written the page lands on stage 1 unexploded and without orbit controls; corrected, it stays at stage 0 |
| Journey.ReignitionStartsNoTween | src/scenes/BigBang.jsx:58 | igniting again after a retreat within the same mount starts no second tween |
| Planet.NextSeed | src/scenes/Planet.jsx:118 | the update keeps the seed in [0, 2^32) and is congruent to seed·1664525 + 1013904223 modulo 2^32 |
| Planet.UpdateIsExact | src/scenes/Planet.jsx:118 | every intermediate of the update is a non-negative integer below 2^53, so floating-point arithmetic computes it exactly |
| Planet.Unit | src/scenes/Planet.jsx:118 | the value handed out lies in [0, 1) |
| Planet.Generator.constructor | src/scenes/Planet.jsx:117 | the seed starts at 12345 |
| Planet.Generator.Random | src/scenes/Planet.jsx:118 | the seed becomes `NextSeed` of the old seed, and the result is the new seed scaled into [0, 1) |
| Planet.WrapCopies | src/scenes/Planet.jsx:141-143 | a copy at x+1024 iff x−r < 0, a copy at x−1024 iff x+r > 1024, and no other copy |
| Planet.AtMostOneCopy | src/scenes/Planet.jsx:121-143 | a blob with x in [0, 1024) and radius in [20, 80) gets at most one wrap copy |
| Planet.DrawContinents | src/scenes/Planet.jsx:121-144 | exactly 400 blobs; each has its centre on the texture, a radius in [20, 80), its wrap copies and at most one of them; deserts only in the desert bands; the seed stays 32-bit |
| Planet.Split | src/scenes/Planet.jsx:643 | `split` always yields at least one piece |
| Planet.FindFirst | src/scenes/Planet.jsx:643 | the search finds the first occurrence of the separator |
| Planet.JoinSplit | src/scenes/Planet.jsx:643 | joining the pieces of a split with the separator gives back the label |
| Planet.PiecesHaveNoSeparator | src/scenes/Planet.jsx:643 | no piece of a split contains the separator |
| Planet.LabelFor | src/scenes/Planet.jsx:642-644 | the text shown is a piece of the label or the whole label; it is never empty for a non-empty label; a label without " / " shows whole |
| Planet.NoSeparatorWithoutSlash | src/scenes/Planet.jsx:643 | a text without '/' contains no " / " |
| Planet.LabelHalves | src/scenes/Planet.jsx:642-644 | for "A / B" with non-empty, slash-free halves, the split is [A, B]; the trigger shows A, and B when reversed |
| Planet.TriggersAt | src/scenes/Planet.jsx:722-845 | 12 nature triggers at stage 2, 7 civilisation triggers at stage 3, none at other stages; every trigger's factor is registered |
| Planet.NatureLabelsWellFormed | src/scenes/Planet.jsx:724-795 | every nature label has two non-empty halves without a slash |
| Planet.CivilisationLabelsWellFormed | src/scenes/Planet.jsx:802-843 | every civilisation label has two non-empty halves without a slash |
| Planet.TriggerLabelsSplit | src/scenes/Planet.jsx:642-644 | every rendered trigger shows its front half, and its back half when its factor is reversed |
| Planet.TriggerOpensPanel | src/scenes/Planet.jsx:626 | clicking a rendered trigger opens the panel on its factor, in the polarity the trigger shows |
| Planet.RotationHalfTurns | src/scenes/Planet.jsx:660-661 | the rotation target is 0 iff stage 2, and a half turn otherwise |
| Planet.EraOf | src/scenes/Planet.jsx:84 | the era lies in 0..3 and is the floor of 4u |
| Planet.EraColor | src/scenes/Planet.jsx:89-91 | the colour is one of the four era colours, the future colour for any era other than 0, 1 and 2 |
| Planet.EraColorsDistinct | src/scenes/Planet.jsx:89-91 | different eras get different colours |
| Planet.GrowStep | src/scenes/Planet.jsx:524 | the grown scale is min(1, cur + 0.3·delta): at most 1, at most cur + 0.3·delta, and equal to one of the two |
| Planet.GrowthCapped | src/scenes/Planet.jsx:524 | for delta ≥ 0, growing never lowers a scale at most 1 and never passes 1 |
| Planet.GrownStaysBelowOne | src/scenes/Planet.jsx:501-524 | over any run of unreversed frames, a scale starting at most 1 (such as 0.01) never decreases and never exceeds 1 |
| Planet.RuinApproaches | src/scenes/Planet.jsx:521 | for frames of at most 2 s, the reversed step moves the scale towards 0.3·height without overshooting it |
| Planet.RuinStep | src/scenes/Planet.jsx:521 | the reversed step towards 0.3·height (no contract of its own; `Planet.RuinApproaches` states that frames of at most two seconds move it towards that target without overshooting) |
| Planet.ScaleStep | src/scenes/Planet.jsx:520-525 | a growing building moves up and never passes 1; for frames of at most two seconds a reversed one moves towards 0.3·height without overshooting it |
| Planet.UpdateScales | src/scenes/Planet.jsx:516-527 | each scale in the array is replaced, in place, by its reversed or unreversed step |
| Planet.InitialScales | src/scenes/Planet.jsx:501 | a fresh array with one scale of 0.01 per building |
| Cosmos.CometSpeed | src/scenes/Cosmos.jsx:770 | the speed is positive, and slower when reversed |
| Cosmos.Shift | src/scenes/Cosmos.jsx:777-778 | the new position goes in front; entry i+1 is the old entry i; the length grows by one below 200 and stays the same from 200 on |
| Cosmos.TrailHoldsRecent | src/scenes/Cosmos.jsx:777-778 | after any run of frames from a full history, the history is the run's positions newest first, then the old history, cut at 200 |
| Cosmos.Comet.constructor | src/scenes/Cosmos.jsx:762-766 | 200 entries at the origin, a zeroed buffer of 600 numbers that mirrors them, and angle 0 |
| Cosmos.Comet.Frame | src/scenes/Cosmos.jsx:769-781 | the angle advances by delta times the speed and never decreases for delta ≥ 0; the history is shifted by the new orbit position; the buffer again holds the history, three numbers per entry |
| Cosmos.WriteRay | src/scenes/Cosmos.jsx:291-296 | ray i is written at indices 6i..6i+5, and every other index is unchanged |
| Cosmos.MakeRays | src/scenes/Cosmos.jsx:286-298 | a buffer of 6·count numbers; ray i runs from the inner radius to the outer radius times its length factor along its direction, both ends at z = 0; 2·count vertices are reported |
| Cosmos.RingStep | src/scenes/Cosmos.jsx:575-586 | the opacity is clamped into [0, 0.2]; for delta ≥ 0 the scale stays in [1, 2.5]; it shrinks (grows when reversed) or jumps back to its band edge |
| Cosmos.RingStaysInBand | src/scenes/Cosmos.jsx:575-581 | from any scale in [1, 2.5], its initial 1 included, a run of frames with one polarity and delta ≥ 0 keeps the ring's scale in [1, 2.5] |
| MicroCosmos.Coordinate | src/scenes/MicroCosmos.jsx:20-22 | a coordinate from a draw in [0, 1) lies in [−10, 10) |
| MicroCosmos.BuildNeurons | src/scenes/MicroCosmos.jsx:18-24 | exactly 80 neurons; neuron i takes draws 3i, 3i+1 and 3i+2; all lie in the cube [−10, 10)³ |
| MicroCosmos.DistanceSymmetric | src/scenes/MicroCosmos.jsx:27 | distance is symmetric and zero from a neuron to itself |
| MicroCosmos.BuildLinks | src/scenes/MicroCosmos.jsx:25-32 | links join i < j only (no self-links); they are strictly increasing in (i, j), so no pair appears twice; a pair is linked iff closer than 6 |
| MicroCosmos.LinkRow | src/scenes/MicroCosmos.jsx:26-31 | the inner loop for neuron i extends a sorted, correct link list from the pairs before (i, 0) to those before (i+1, 0) |
| MicroCosmos.AbstractionStep | src/scenes/MicroCosmos.jsx:60-71 | for delta ≥ 0, y stays in [−10, 10]; it rises (sinks when reversed) or wraps to the opposite edge; a reversed node stops spinning |
| MicroCosmos.AbstractionStaysInBand | src/scenes/MicroCosmos.jsx:60-71 | over any run of frames and polarities with delta ≥ 0, y stays in [−10, 10] |
| MicroCosmos.MutationStep | src/scenes/MicroCosmos.jsx:74-90 | reversed: rotation x and y are 0 and the scale is (1, 1, 1), rotation z untouched; unreversed: the scale is (deform, deform2, deform) and the rotations never decrease for delta ≥ 0 |
| MicroCosmos.MutationFreezeIdempotent | src/scenes/MicroCosmos.jsx:76-80 | a reversed frame after a reversed frame changes nothing |
| MicroCosmos.Nodes.constructor | src/scenes/MicroCosmos.jsx:137-154 | the abstraction node starts at y = −5 without spin; the mutation node starts unrotated at unit scale |
| MicroCosmos.Nodes.Frame | src/scenes/MicroCosmos.jsx:60-90 | the nodes' fields become exactly `AbstractionStep` and `MutationStep` of the old ones |
| SceneLayers.LayersShape | src/components/SceneLayers.jsx:5-196 | five layers with ids 1..5, each with five nodes whose ids are "<layer>-<k>" for k = 1..5 |
| SceneLayers.FindLayer | src/components/SceneLayers.jsx:212 | a layer is found iff the id is in 1..5, and it is the layer with that id |
| SceneLayers.Count.Succ | src/components/SceneLayers.jsx:208 | a number goes up by one; NaN stays NaN |
| SceneLayers.Bumped | src/components/SceneLayers.jsx:208 | the bumped count is a number iff the layer already held a number, and then it is one more; a missing key gives NaN |
| SceneLayers.Click | src/components/SceneLayers.jsx:202-217 | the clicked node becomes active unless it already was, in which case none is; only the clicked layer's count changes, by one, however the node changed; the layer's colour and message are reported iff its count becomes 3 |
| SceneLayers.ClickTogglesActive | src/components/SceneLayers.jsx:203 | clicking the active node deactivates it, and clicking it again reactivates it |
| SceneLayers.ReportsAtMostOnce | src/components/SceneLayers.jsx:206-214 | counts only grow, so over any run of clicks a layer reports at most once, and never once its count has reached 3 |
| SceneLayers.NaNNeverReports | src/components/SceneLayers.jsx:208-211 | a layer whose count became NaN never reports |
| SceneLayers.ThirdClickReports | src/components/SceneLayers.jsx:211-214 | from the start, the first two clicks on a layer report nothing and the third reports its colour and message |
| SceneLayers.LayersView.constructor | src/components/SceneLayers.jsx:199-200 | no active node, and a count of 0 for each of layers 1..5 |
| SceneLayers.LayersView.HandleNodeClick | src/components/SceneLayers.jsx:202-217 | the state and the reported message are exactly what `Click` computes |
| ReplaceFonts.FirstGt | replace_fonts.mjs:18 | the first '>' at or after a position, or none |
| ReplaceFonts.Match | replace_fonts.mjs:18 | a match at the start of the text is a whole tag: `<Text`, a whitespace, at least one character other than '>', then '>' |
| ReplaceFonts.Tag | replace_fonts.mjs:18-22 | the result is a tag whose attributes contain "font="; a tag that already had it is kept; any other gets `font="/Roboto-Regular.ttf" ` in front of its original attributes |
| ReplaceFonts.InjectedTag | replace_fonts.mjs:21 | the rewritten text is a tag again, and its attributes begin with the font |
| ReplaceFonts.MatchTagText | replace_fonts.mjs:18 | a tag followed by anything matches exactly that tag |
| ReplaceFonts.NoGtUnchanged | replace_fonts.mjs:18 | a text without '>' holds no tag and is copied whole |
| ReplaceFonts.ShortUnchanged | replace_fonts.mjs:18 | a text of fewer than 8 characters is copied whole |
| ReplaceFonts.CopyPrefix | replace_fonts.mjs:18 | characters before the first '<' are copied as they are |
| ReplaceFonts.Rewrite | replace_fonts.mjs:18-22 | the global `<Text …>` replacement (no contract of its own; `ReplaceFonts.RewriteLength`, `ReplaceFonts.RewriteKeepsHead`, `ReplaceFonts.RewriteIdempotent` and `ReplaceFonts.UnchangedIsIdentity` state its properties) |
| ReplaceFonts.Changed | replace_fonts.mjs:16-20 | the `changed` flag (no contract of its own; `ReplaceFonts.ChangedIffDifferent` states that it is set iff the rewrite differs from the original, and `ReplaceFonts.RewriteLength` that it is set iff the rewrite is longer) |
| ReplaceFonts.RewriteKeepsHead | replace_fonts.mjs:18-22 | the rewrite never shortens the text and keeps its first five characters |
| ReplaceFonts.NoMatchPreserved | replace_fonts.mjs:18 | a position where no tag matches still matches none after the rest of the text is rewritten |
| ReplaceFonts.RewriteLength | replace_fonts.mjs:16-22 | the rewrite never shortens the text, and lengthens it iff the change flag is set |
| ReplaceFonts.UnchangedIsIdentity | replace_fonts.mjs:19 | with the change flag clear, the rewrite is the identity |
| ReplaceFonts.ChangedIffDifferent | replace_fonts.mjs:16-24 | the change flag is set iff the rewritten content differs from the original |
| ReplaceFonts.RewriteIdempotent | replace_fonts.mjs:18-22 | rewriting twice gives the same text as rewriting once |
| ReplaceFonts.SecondPassWritesNothing | replace_fonts.mjs:18-24 | a second pass sets no change flag |
| ReplaceFonts.Disk.constructor | replace_fonts.mjs:4-9 | the disk holds the given files |
| ReplaceFonts.ProcessFile | replace_fonts.mjs:12-27 | a missing file is skipped; an existing file is written iff a tag changed; afterwards its content is the rewrite of the old content |
| ReplaceFonts.AfterScript | replace_fonts.mjs:11-28 | the script never creates or removes files |
| ReplaceFonts.AfterScriptStep | replace_fonts.mjs:11-28 | processing one more path advances the script by one file; a file already processed has nothing left to change |
| ReplaceFonts.ReplaceFonts | replace_fonts.mjs:11-28 | the disk ends as every listed existing file rewritten; a path is reported written iff it is listed, exists and its original content needed a font |
| ReplaceFonts.RunScript | replace_fonts.mjs:4-28 | the shipped script over its four scene files: the disk ends as each existing one rewritten, and exactly the files that needed a font are written |
| ReplaceFonts.ScriptIdempotent | replace_fonts.mjs:11-28 | running the script again leaves the disk as it is, and no listed file needs rewriting |

## Left out

- Rendering is not modelled: three.js objects and materials, canvas texture drawing, gradients, colours of meshes, instanced meshes, OrbitControls behaviour, Suspense, the stage captions and the reload button.
- GSAP is reduced to "tween requested" records (target z, duration in ms, ease). Easing curves and intermediate positions are left out. Completion of the camera edge tweens is left out because nothing observes it; the ignition tween's completion is a step of its own.
- React scheduling is reduced to "after every store update, re-render and run the effects in tree order". Double-invoked updaters, batching and effect timing between frames are not modelled.
- `Math.random`, `Math.sin`, `Math.cos` and `state.clock` are not computed. The draws, directions, orbit positions and deformation factors are parameters, with ranges stated where the code relies on them.
- Floating point is not modelled: deltas, scales and positions are Dafny `real`. Float32 rounding in `tailPos`, the ray buffer and `currentScales` is not modelled.
- Wheel events with a NaN `deltaY` are not modelled.
- The handler's registration and removal on `window` is not modelled.
- The 1200 ms timer is a separate step; the traces state only its lower bound on timing.
- File-system access and the `console.log` of replace_fonts.mjs are not modelled. The file system is a map from path to content, and `path.join(process.cwd(), …)` is left to the caller.
- The particle loop and its velocity damping in BigBang.jsx are not modelled. They are per-frame floating-point animation with no stated contract.
- The orbits, pulses, birds, clouds and other per-frame animations of the scenes are not modelled, for the same reason.
- The rotation of the neural network, the `dominanta` node and the other MicroCosmos meshes are not modelled.
- The Planet's mountains, trees, animals and star data, the building heights and widths per era, and the ruins colour are not modelled.
- The `related` and `description` texts of the layer nodes are not modelled; only ids, titles, colours and messages are.
- ConceptNode.jsx, SceneHero.jsx, ParticleBackground.jsx and tailwind.config.js are not part of this model. They are presentation only.
- The store's `isFactorReversed`, `cameraTarget` and `setCameraTarget` are not modelled. Nothing reads them.
- JavaScript property keys that are prototype members (such as `"constructor"`) are not modelled: `Flag` treats every key that was never written as false.
- MicroCosmos.BuildLinks: a link records the two neurons' indices rather than their coordinate arrays. The test "distance < 6" is stated on squared distances (< 36), which is equivalent for non-negative distances.
- Planet.RuinStep: the reversed target is modelled as written, `0.3 · height` towards which a scale that is then multiplied by the height moves. Whether a ruin's drawn height was meant to be 0.3 of the full height is not modelled.
- Cosmos.MakeRays: the length factors `0.7 + Math.random() * 0.6` are a parameter, so their range [0.7, 1.3) is not stated.
- App.AcceptedEventsSpaced: real time is an integer count of milliseconds; timer drift is not modelled.
- SceneLayers.Click: layer ids are integers. JavaScript's coercion of other keys to strings is not modelled.

## Findings

| source | as written | input that shows it | evidently intended | confidence | as-written member | corrected member |
|---|---|---|---|---|---|---|
| src/scenes/BigBang.jsx:65-69 | The ignition tween's `onComplete` commits `setStage(1)` whenever the stage is still 0. It does not check `isExploded`. But `prevStage` at stage 0 clears `isExploded` without changing the stage, so the tween survives. | Scroll down at the Singularity (ignites), wait 1200 ms, scroll up (prevStage at stage 0 clears `isExploded`), then the 4 s tween completes. The page lands on stage 1 with `isExploded` false: no orbit controls, and the caption "scroll down to start" shows over the Cosmos. | The commit applies only while the Big Bang still stands: stage 0 and `isExploded`. Every reachable state then keeps "stage > 0 implies exploded". | not executed | BigBang.CommitAsWrittenBreaksCoherence | BigBang.Commit |
