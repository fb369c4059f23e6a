# DragonAR image-target and tap logic, in Dafny

This project models the control logic of `ViroActivityAR`, the one activity of
the DragonAR sample, which runs on the Viro AR engine. When the engine
recognises the logo picture in the camera feed, the activity poses and shows
the node linked with that picture. It then reveals the dragon model: a scale-in
animation followed by a short move. Finally it stops searching for the picture,
so the reveal happens once. Taps on the dragon drive a four-step cycle:

1. footsteps and a turn one way;
2. footsteps and a turn back;
3. a roar and a tilt;
4. a silent reset to the neutral pose.

The engine is not modelled. Every call the activity makes into it (set a
node's position, rotation, scale or visibility, commit an animation
transaction, play a sound, add or remove an image target, add a child node) is
recorded as an `Event` in a ghost log. `Scene.Replay` folds such a log into
what a node's properties converge to once all animations have run.

Files:

- `scene.dfy` (module `Scene`): vectors, node handles, image targets,
  transactions, events, and the `Replay` view of a node.
- `anchors.dfy` (module `Anchors`): the map from target id to (target, node)
  binding (`mTargetedNodesMap`) and the scene's set of searched targets. It
  holds the found/removed/updated handlers as functions and runs over
  arbitrary sequences of anchor callbacks.
- `taps.dfy` (module `TapResponder`): the click listener's counter and turn
  flags as functions, and the four-tap cycle.
- `activity.dfy` (module `Activity`): class `ViroActivityAR`. Its fields are
  `numTaps`, `turnedRight`, `turnedLeft`, the dragon model node, the target map
  and the searched-target set, plus the ghost log. It has one method per
  handler. Each method is proved to change its fields and the log exactly as
  the functions of `Anchors` and `TapResponder` say, so the lemmas about those
  functions hold of the class.

Two behaviours of the code are worth stating up front:

- `linkTargetWithNode` (ViroActivityAR.java:130) uses `HashMap.put`, so linking
  a second target with the same id silently replaces the first binding; there
  is no duplicate check (`Link`, `LinkOverwrites`).
- `turnedRight` starts false and is only ever cleared, so the branch at lines
  245-247 never runs; the two step taps of every cycle turn to yaw +0.25 and
  then to yaw -0.25 (`CounterInRange`, `StepTurnsAlternate`).

Vectors hold exact `real`s written with the source's decimal literals. The code
copies or zeroes vector components and never computes with them, so no
floating-point behaviour is involved.

## Model

All source paths are under `app/src/main/java/com/example/virosample/`.

| member | source | states |
|---|---|---|
| `Anchors.Link` | app/src/main/java/com/example/virosample/ViroActivityAR.java:128-131 | the pair is filed under the target's own id; any earlier entry for that id is replaced; every other entry is kept; all entries stay filed under their target's id |
| `Anchors.LinkOverwrites` | app/src/main/java/com/example/virosample/ViroActivityAR.java:128-131 | linking two targets with the same id keeps only the second binding: no duplicate error |
| `Activity.ViroActivityAR.LinkTargetWithNode` | app/src/main/java/com/example/virosample/ViroActivityAR.java:128-131 | the map becomes `Link` of the old map; the searched targets, tap fields and log are unchanged |
| `Activity.ViroActivityAR.constructor` | app/src/main/java/com/example/virosample/ViroActivityAR.java:97-120 | after scene creation: taps are (0, false, false); the logo target is searched for and linked with the group node; the log holds the setup calls (zero-scaled model under the hidden group, group under the root) |
| `Activity.ViroActivityAR.InitDragonModel` | app/src/main/java/com/example/virosample/ViroActivityAR.java:193-211 | the model node starts at scale (0,0,0), is added under the group node and becomes the dragon node |
| `Activity.ViroActivityAR.OnAnchorFound` | app/src/main/java/com/example/virosample/ViroActivityAR.java:146-168 | the registry becomes `AfterFound` of the old one; the log grows by exactly `FoundEffects`; tap state and dragon node are unchanged |
| `Activity.ViroActivityAR.OnAnchorRemoved` | app/src/main/java/com/example/virosample/ViroActivityAR.java:171-179 | the registry is unchanged; the log grows by exactly `RemovedEffects` (a hide of the bound node, or nothing) |
| `Activity.ViroActivityAR.OnAnchorUpdated` | app/src/main/java/com/example/virosample/ViroActivityAR.java:182-184 | the registry becomes `Handle` of the old one for an updated anchor and the log grows by `HandleEffects` of it; tap state and dragon node are unchanged (with `UpdatedIsIgnored`: nothing changes at all) |
| `Activity.ViroActivityAR.OnClick` | app/src/main/java/com/example/virosample/ViroActivityAR.java:215-255 | counter and flags become `NextTap` of the old ones; the log grows by exactly `TapEffects`; the counter stays in 0..3 |
| `Activity.ViroActivityAR.AnimateScale` | app/src/main/java/com/example/virosample/ViroActivityAR.java:353-368 | one committed transaction with the given duration and timing function, scaling the node, with a listener only when one is given |
| `Activity.ViroActivityAR.AnimateDragonVisible` | app/src/main/java/com/example/virosample/ViroActivityAR.java:378-380 | the reveal transaction: 500 ms, EaseInEaseOut, scale 0.09, no listener |
| `Anchors.UnknownIdIsIgnored` | app/src/main/java/com/example/virosample/ViroActivityAR.java:146-179 | a found, updated or removed anchor whose id is not in the map changes neither the map nor the searched targets and makes no engine call |
| `Anchors.UpdatedIsIgnored` | app/src/main/java/com/example/virosample/ViroActivityAR.java:182-184 | an updated anchor never changes the registry or calls the engine |
| `Anchors.FoundIsOneShot` | app/src/main/java/com/example/virosample/ViroActivityAR.java:146-168 | once an id has been found, another found anchor with that id changes nothing and calls nothing |
| `Anchors.FoundConsumesOnlyItsTarget` | app/src/main/java/com/example/virosample/ViroActivityAR.java:165-167 | a found registered id leaves the map and its target leaves the searched set; every other binding and searched target is kept; when every binding is filed under its own id, the removed target is the one whose id is the anchor's, and that stays so afterwards |
| `Anchors.FoundPosesBoundNode` | app/src/main/java/com/example/virosample/ViroActivityAR.java:152-156 | after a found registered id, the bound node is visible and has rotation (0, anchor yaw, 0); its position is the anchor's unless it is the dragon node itself |
| `Anchors.FoundReveals` | app/src/main/java/com/example/virosample/ViroActivityAR.java:157-162 | a found registered id commits exactly two transactions: scale the dragon to 0.09 over 500 ms, EaseInEaseOut, no listener; then move it to (0,0,-0.19) over 300 ms. The dragon ends at that scale and position. An unregistered id commits none |
| `Anchors.RemovedHidesAndKeeps` | app/src/main/java/com/example/virosample/ViroActivityAR.java:171-179 | a removed anchor for a registered id hides the bound node and keeps its binding |
| `Anchors.ConsumedOnce` | app/src/main/java/com/example/virosample/ViroActivityAR.java:146-168 | along any callback sequence, each id is consumed at most once, and only if it was registered at the start; the ids left registered are exactly those never consumed |
| `Anchors.RevealsOfOneCallback` | app/src/main/java/com/example/virosample/ViroActivityAR.java:146-184 | one callback issues the dragon's reveal transaction once if it is a found registered id, otherwise never |
| `Anchors.RevealsMatchConsumed` | app/src/main/java/com/example/virosample/ViroActivityAR.java:157-167 | along any callback sequence, the number of reveal transactions equals the number of consumed ids |
| `Anchors.FoundInRunIsConsumed` | app/src/main/java/com/example/virosample/ViroActivityAR.java:146-168 | a found callback anywhere in a run, for an id registered when the run began, gets that id consumed (at that callback or an earlier one) |
| `Anchors.ConsumedComesFromFound` | app/src/main/java/com/example/virosample/ViroActivityAR.java:146-168 | every consumed id is carried by some found callback of the run |
| `Anchors.AtMostOneRevealPerTarget` | app/src/main/java/com/example/virosample/ViroActivityAR.java:146-168 | along any callback sequence, the dragon is revealed at most as many times as there were linked targets |
| `Activity.SessionFromSetup` | app/src/main/java/com/example/virosample/ViroActivityAR.java:104-168 | after scene creation and any anchor callbacks, with "found" meaning some found callback carries the logo's id: the logo's binding is gone exactly when found; the group node is visible exactly when found; the dragon has scale 0 before and 0.09 after; the reveal is issued exactly once if found and never otherwise |
| `Activity.LogoConsumption` | app/src/main/java/com/example/virosample/ViroActivityAR.java:119-168 | with only the logo linked, a run consumes the logo's id exactly when one of its found callbacks carries that id, and consumes exactly one id then and none otherwise |
| `Activity.SingleTargetRun` | app/src/main/java/com/example/virosample/ViroActivityAR.java:146-179 | while at most the one target is linked, every callback keeps the group node shown exactly when the target is gone, and the dragon's scale at 0 before and 0.09 after |
| `TapResponder.PhaseStep` | app/src/main/java/com/example/virosample/ViroActivityAR.java:217-253 | from each of the four reachable states a tap moves to the next state of the cycle and responds as `CycleResponse` says |
| `TapResponder.ReachableTapStates` | app/src/main/java/com/example/virosample/ViroActivityAR.java:58-60 | after n taps from (0, false, false): the counter is n mod 4, `turnedRight` is false, and `turnedLeft` holds exactly when the counter is 1 |
| `TapResponder.CounterInRange` | app/src/main/java/com/example/virosample/ViroActivityAR.java:217-224 | after any number of taps the counter is in 0..3 and `turnedRight` is still false |
| `TapResponder.TapResponseCycle` | app/src/main/java/com/example/virosample/ViroActivityAR.java:217-251 | tap n+1 gives the cycle entry n mod 4: steps and yaw +0.25 over 700 ms; steps and yaw -0.25 over 700 ms; roar and tilt (-0.25,0,0) over 350 ms; no sound and rotation (0,0,0) over 350 ms. Four taps later the state repeats, so tap 5 behaves like tap 1 |
| `TapResponder.SoundUnlessReset` | app/src/main/java/com/example/virosample/ViroActivityAR.java:218-239 | a tap plays a sound exactly when it is not the fourth of its cycle |
| `TapResponder.StepTurnsAlternate` | app/src/main/java/com/example/virosample/ViroActivityAR.java:240-251 | the two step taps of a cycle play the steps cue at full volume without looping, and turn to opposite yaws, +0.25 then -0.25 |

## Left out

- Activity and view lifecycle (`onCreate`'s view startup, `onStart` to
  `onDestroy`) and the no-op tracking and ambient-light callbacks: platform
  plumbing with no logic. The constructor starts where `onRenderCreate` runs.
- `initSceneLights`, `preloadDragonColorTextures` and the asynchronous
  `loadModel` callbacks. They build lights, a shadow surface, materials and
  textures, or log a failure. Their engine calls are not in the setup log.
- `getBitmapFromAssets`: asset I/O. The logo bitmap is represented by its
  asset name `"logo.png"`.
- `animateColorPickerClicked` is never called, because the colour-picker code
  is commented out. The `Runnable` passed to `animateScale` is therefore only
  recorded as whether a listener was attached (`hasListener`); what it runs is
  not modelled.
- Registering the click listener (`setClickListener`) and the no-op
  `onClickState`. `OnClick` takes the tapped node as a parameter.
- The `ARNode` argument of the anchor callbacks, which the code never reads.
- The engine's animation timing and interpolation, and audio playback. A
  transaction is recorded with its duration, curve and changes. `Replay` takes
  the values a node converges to, not the values it passes through.
- Sound objects: creating a `Sound`, `setVolume(1.0f)`, `setLoop(false)` and
  `play()` are recorded as one `PlaySound` event.
- The `mColorChooserGroupNode` field, which the code never uses.
- Activity.ViroActivityAR.OnClick: the counter is an unbounded `int` instead of
  Java's 32-bit `int`. Wrap-around would need 2^31 - 1 taps without a reset,
  and `Valid()` keeps the counter in 0..3. `Valid()` does not include the
  turn-flag pattern: the flags' reachable values are proved for runs from the
  initial state (`ReachableTapStates`).
- Scene.TimingFunction: has only `EaseInEaseOut`, so `AnimateScale` cannot be
  given the other curves Viro's `AnimationTimingFunction` offers. Every call
  in the code passes `EaseInEaseOut` (ViroActivityAR.java:379, 383).
