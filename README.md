# Twisty donut racer: steering state machine and mesh flattening

This project models the parts of the racer that have exact behaviour:

- **The steering state machine.** A car sits on a Moebius strip. Its
  position has two axes: lateral, across the strip, and vertical, which
  side of the strip. Each axis has a `current` value and a `target`
  value. A key gate, `acceptKeys`, stands in front of the key handler.
  - Once per frame, each `current` moves a fixed step toward its
    `target`: 0.025 on the lateral axis, 0.05 on the vertical axis. It
    stays put when it is within 0.001 of the target.
  - When the gate is closed, a key press is dropped.
  - Otherwise the handler closes the gate and looks at the key. Right
    arrow (39) lowers the lateral target by 0.5, floored at -1. Left
    arrow (37) raises it by 0.5, capped at 1. Down arrow (40) negates the
    vertical target. Any other key changes no target.
  - A timer reopens the gate 100 ms later.

  The source has two copies of this machine:
  - `src/webgl.js` mutates a module-level object in place.
  - The React component in `src/Canvas.js` builds change records and
    merges them into its state.
- **Mesh flattening.** `trianglesToWebglObject` (`src/utils.js`) and its
  inlined copy in `car()` (`src/Car.js`) turn a list of flat-shaded
  triangles and one RGBA colour into an interleaved vertex array. Each
  vertex takes ten numbers: position xyz, then the triangle's normal xyz,
  then the colour rgba.

All numbers are Dafny `real`s, which are exact rationals.

Files:

- `motion.dfy`, module `Motion`: the steering machine as pure
  transitions.
  - Transitions: `Advance`, `Animate`, `HandleKey` and `ReenableKeys`.
  - `Run` applies a sequence of events, each a frame, a key press or a
    re-enable.
  - `Inv` is the invariant of every reachable state.
  - The convergence lemmas cover frames with no key presses.
- `webgl.dfy`, module `WebGL`: the `gameState` object of `src/webgl.js`.
  - It is a class whose two `Position` objects have their fields
    overwritten in place.
  - Each method is proved to make exactly the corresponding `Motion`
    transition.
- `canvas.dfy`, module `Canvas`: the component variant.
  - `AnimatePositions` and `KeyDownUpdate` compute change records from the
    state.
  - The class `Component` holds the state and replaces it as `setState`
    does.
  - Refinement lemmas show that the component makes the same transitions
    as `Motion`, over any event sequence.
- `mesh.dfy`, module `Mesh`: the specification `Flatten` and the
  nested-loop method `TrianglesToWebglObject`, which is proved equal to
  it. Lemmas cover order, length and the slot layout.
- `car.dfy`: two modules.
  - `CarShape` holds the car's nine-triangle table and `Car()`, whose
    inlined loops are proved to give the same array as
    `Mesh.TrianglesToWebglObject` with the car colour
    (`CarMatchesConversion`). Lemmas give its size and per-vertex layout.
  - `ObstacleShape` holds the one-triangle obstacle of `src/Obstacle.js`
    as a concrete input.

The `setTimeout` callback is modelled as the explicit transition
`ReenableKeys`, with no timing attached.

### Convergence and key codes

- The step rule at src/webgl.js:121-130 does not settle from every
  start. Let `step` be 0.025 (lateral) or 0.05 (vertical).
  - A gap strictly between 0.001 and `step - 0.001` overshoots, then
    swings back, forever. `Motion.OffGridOscillates` shows this for a
    gap of 0.01 on the lateral axis.
  - A gap in [`step - 0.001`, `step`) overshoots once. It then stops
    inside the deadband, up to 0.001 away from the target.
    `Motion.OvershootSettles` shows this for a gap of 0.0245 on the
    lateral axis.
- Convergence (`Motion.Converges`) is therefore proved for states that
  satisfy the reachable-state invariant `Motion.Inv`:
  - the lateral `current` is a multiple of 0.025 in [-1, 1];
  - the lateral `target` is one of -1, -0.5, 0, 0.5, 1;
  - the vertical `current` is a multiple of 0.05 in [-1, 1];
  - the vertical `target` is -1 or 1.

  Every state reached from the initial one satisfies it
  (`Motion.ReachableInv`). From such a state an axis lands exactly on its
  target after |target - current| / step frames and stays there.
- Both handlers use the same codes: 39 lowers the lateral target and 37
  raises it (src/webgl.js:146-155, src/Canvas.js:101-110).

## Model

| member | source | states |
|---|---|---|
| `Motion.Advance` | src/webgl.js:121-130 | One frame on one axis. `current` rises by exactly `step` iff it is below `target - 0.001`. It falls by exactly `step` iff it is above `target + 0.001`. It is unchanged iff it is inside the deadband. `target` never changes. |
| `Motion.Animate` | src/webgl.js:120-131 | The lateral axis advances with step 0.025 and the vertical axis with step 0.05, each on its own. Both targets and `acceptKeys` are unchanged. |
| `Motion.ShiftDown` | src/webgl.js:146-150 | The new lateral target is `max(t - 0.5, -1)`: at least -1, at least `t - 0.5`, and equal to one of the two. |
| `Motion.ShiftUp` | src/webgl.js:151-155 | The new lateral target is `min(t + 0.5, 1)`: at most 1, at most `t + 0.5`, and equal to one of the two. |
| `Motion.HandleKey` | src/webgl.js:137-159 | A closed gate changes nothing. An accepted key closes the gate and never changes either `current`. Key 39 gives `ShiftDown` of the lateral target. Key 37 gives `ShiftUp`. Key 40 negates the vertical target and leaves the lateral one alone. Any other code changes nothing but the gate. |
| `Motion.ReenableKeys` | src/webgl.js:142-144 | The timer callback opens the gate and leaves both axes unchanged. |
| `Motion.FlipTwiceRestores` | src/webgl.js:156-157 | Two accepted down-arrow presses, with a re-enable between them, restore the original state, apart from the closed gate. |
| `Motion.ThreePressesSaturate` | src/webgl.js:146-155 | From lateral target 0, three accepted right presses end at -1 and three accepted left presses end at 1. |
| `Motion.InitialInv` | src/webgl.js:8-18 | The initial state satisfies the invariant. |
| `Motion.AdvanceStaysOnGrid` | src/webgl.js:121-130 | Take an axis whose `current` and `target` are multiples of its step and lie in [-1, 1]. After one frame, `current` is still such a multiple and still in [-1, 1]. It never passes the target: starting at or below it, it ends at or below it, and starting at or above it, it ends at or above it. |
| `Motion.AnimatePreservesInv` | src/webgl.js:120-131 | A frame preserves the invariant. |
| `Motion.HandleKeyPreservesInv` | src/webgl.js:137-159 | A key press preserves the invariant. The lanes stay in {-1, -0.5, 0, 0.5, 1} and the vertical target stays in {-1, 1}. |
| `Motion.RunPreservesInv` | src/webgl.js:120-159 | Any sequence of frames, key presses and re-enables preserves the invariant. |
| `Motion.ReachableInv` | src/webgl.js:8-159 | Every state reachable from the initial state satisfies the invariant. |
| `Motion.FramesAdvanceAxes` | src/webgl.js:120-131 | `n` frames advance each axis `n` times, independently of the other axis, and keep the gate. |
| `Motion.ReachesTargetExactly` | src/webgl.js:120-131 | If the gap is exactly `n` steps and a step is wider than the deadband, `n` frames end exactly on the target. |
| `Motion.SettledStays` | src/webgl.js:120-131 | An axis at its target stays there for any number of frames. |
| `Motion.ConvergesOnGrid` | src/webgl.js:120-131 | On a common grid, the gap is exactly `StepsToGo` steps. Any number of frames from `StepsToGo` on leaves `current == target`. |
| `Motion.DeadbandStays` | src/webgl.js:121-130 | An axis inside the deadband does not move, for any number of frames. |
| `Motion.TwoCycleRepeats` | src/webgl.js:121-130 | If two steps bring an axis back to where it started, every even number of steps does too. |
| `Motion.OffGridTwoSteps` | src/webgl.js:121-125 | From 0 toward 0.01, one lateral step lands on 0.025, which is outside the deadband, and the next step returns to 0. |
| `Motion.OffGridOscillates` | src/webgl.js:121-125 | Start at current 0 and target 0.01. After every even number of frames the axis is back at the start, and after every odd number it is outside the deadband, so it never settles. |
| `Motion.OvershootSettles` | src/webgl.js:121-125 | From 0 toward 0.0245, one lateral step lands on 0.025. That is inside the deadband, and every later frame leaves the axis there, off its target. |
| `Motion.Converges` | src/webgl.js:118-131 | From any state satisfying the invariant, with no key presses, each axis equals its target once the number of frames reaches the gap divided by the step. |
| `WebGL.GameState.constructor` | src/webgl.js:8-18 | The state object starts with keys accepted, lateral 0/0 and vertical 1/1. |
| `WebGL.GameState.AnimateLateralPosition` | src/webgl.js:120-131 | The in-place update leaves the object holding `Motion.Animate` of its old value. |
| `WebGL.GameState.HandleKeyDown` | src/webgl.js:137-159 | The in-place update leaves the object holding `Motion.HandleKey` of its old value. |
| `WebGL.GameState.ReenableKeys` | src/webgl.js:142-144 | The timer callback leaves the object holding `Motion.ReenableKeys` of its old value. |
| `Canvas.AnimatePositions` | src/Canvas.js:57-73 | Returns copies of both axes in which only `current` can differ. Each copy follows `Motion.Advance`: step 0.025 laterally, 0.05 vertically, deadband 0.001. |
| `Canvas.NextFrame` | src/Canvas.js:46-48 | A frame increments `ticks` by exactly 1, applies exactly one animation step to each axis, and keeps `acceptKeys`. |
| `Canvas.KeyDownUpdate` | src/Canvas.js:86-115 | With the gate closed, no update is submitted; with it open, one always is. The update has `acceptKeys` false and both `current` values unchanged. Key 39 gives `max(t - 0.5, -1)` and key 37 gives `min(t + 0.5, 1)`; neither touches the vertical target. Key 40 negates the vertical target. Other codes leave both axes as they were. |
| `Canvas.FrameRefinesAnimate` | src/Canvas.js:46-48 | The component's frame update makes the same transition as `animateLateralPosition` in src/webgl.js. |
| `Canvas.KeyRefinesHandleKey` | src/Canvas.js:86-115 | The component's key handler makes the same transition as `handleKeyDown` in src/webgl.js and leaves `ticks` alone. |
| `Canvas.ReenableRefines` | src/Canvas.js:95-99 | The component's timer callback makes the same transition as the one in src/webgl.js. |
| `Canvas.RunRefines` | src/Canvas.js:44-115 | Over any event sequence, the component holds the state that `Motion.Run` computes, and `ticks` has grown by the number of frames. |
| `Canvas.ReachableComponentInv` | src/Canvas.js:7-22 | Every component state reachable from the initial one satisfies `Motion.Inv`. |
| `Canvas.Component.constructor` | src/Canvas.js:7-22 | The component starts at tick 0, keys accepted, lateral 0/0 and vertical 1/1. |
| `Canvas.Component.Tick` | src/Canvas.js:44-54 | One frame callback replaces the state with `NextFrame` of the old state. |
| `Canvas.Component.HandleKeyDown` | src/Canvas.js:86-115 | The submitted update is merged into the state. With the gate closed the state is unchanged. |
| `Canvas.Component.ReenableKeys` | src/Canvas.js:95-99 | The timer callback sets `acceptKeys` and nothing else. |
| `Mesh.FlattenAppend` | src/utils.js:5-12 | Converting `t1 + t2` gives the conversion of `t1` followed by the conversion of `t2`. Triangles are emitted in input order. |
| `Mesh.TriangleVerticesAt` | src/utils.js:6-11 | A well-formed triangle gives 30 numbers. Record `j` is point `j`, then the normal, then the colour. |
| `Mesh.FlattenLength` | src/utils.js:4-13 | For well-formed triangles and a 4-component colour, the array has 30 numbers per triangle. |
| `Mesh.FlattenAt` | src/utils.js:5-12 | Vertex `k = 3i + j` occupies numbers [10k, 10k+10) and is point `j` of triangle `i`, with that triangle's normal and the colour. |
| `Mesh.VertexLayout` | src/utils.js:6-10 | Slots [10k, 10k+3) hold `triangles[i].coordinates[j]`. Slots [10k+3, 10k+6) hold `triangles[i].normal`. Slots [10k+6, 10k+10) hold the colour. |
| `Mesh.TrianglesToWebglObject` | src/utils.js:3-17 | The nested loops produce exactly `Flatten(triangles, color)`. An empty list gives an empty array. |
| `CarShape.CarWellFormed` | src/Car.js:51-114 | The table has 9 triangles. Each has a 3-component normal and three 3-component points. |
| `CarShape.CarSize` | src/Car.js:51-127 | The car's array has 270 numbers, a multiple of 10, so the draw count `length / 10` is exactly 27 whole vertices. |
| `CarShape.CarVertex` | src/Car.js:115-124 | For vertex `k < 27`, the position is point `k % 3` of triangle `k / 3`. The normal is that triangle's normal. The colour is (0.05, 0.05, 0.9, 1.0). |
| `CarShape.Car` | src/Car.js:50-128 | The inlined loops give exactly `Flatten(table, [0.05, 0.05, 0.9, 1.0])`. That is what `Mesh.TrianglesToWebglObject` (src/utils.js) returns for the same table. |
| `CarShape.CarMatchesConversion` | src/Car.js:115-127 | Running the inlined loops of `car()` and the general routine of src/utils.js:3-17 on the car's table and colour gives the same shape, and that shape is `Flatten(table, [0.05, 0.05, 0.9, 1.0])`. |
| `ObstacleShape.ObstacleShapeLayout` | src/Obstacle.js:9-20 | The one-triangle obstacle converts to 30 numbers, 3 vertices. Each vertex has height 0.06, normal (0, 0, 1) and the obstacle colour. |

## Left out

- Surface transform (`transformCar`, `transformOntoMoebius`): built from
  sine, cosine, degree conversion and an external 4x4 matrix library that
  is not part of this model. Nothing about it is exact.
- Rendering: perspective and camera, transform and light uniforms, buffer
  binding, attribute pointers, draw calls, and shader compile and link.
  These are foreign graphics calls. The colour attribute's size of 3 at
  src/webgl.js:226 is therefore not modelled either. The draw count
  `vertices.length / 10` is modelled as `Mesh.DrawCount`.
- The 100 ms timer: time is not modelled. The callback is the explicit
  transition `ReenableKeys`, which may occur at any point in an event
  sequence.
- Frame loop and React lifecycle: `requestAnimationFrame`,
  `componentDidMount` and `componentDidUpdate`. One callback is one
  `Frame` event or one `Component.Tick` call.
- Canvas.Component.Tick: the source's functional `setState` reads the
  animation from `this.state`, not from the pending state `p`. The model
  has no pending updates, so the two are the same state.
- Window sizing: the component's `window` state and `resize`.
- Floating point: `Float32Array` rounding and the drift of repeated 0.025
  steps in doubles. Numbers are exact reals.
- Mesh.TrianglesToWebglObject: points and normals are always sequences.
  JavaScript's `concat` would also accept a bare number where a point is
  expected. The layout lemmas assume well-formed input (3 points of 3
  components, a 3-component normal, a 4-component colour).
- src/Engine/Car.js: it holds the same nine-triangle table and converts it
  with `trianglesToWebglObject`. The model keeps one copy of the table.
  That file imports its `trianglesToWebglObject` from `./utils/geometry`,
  which is not part of this model; the model assumes it is the routine of
  src/utils.js.
- The `moebius` strip shape and the `./utils/geometry` module are not part
  of this model.
