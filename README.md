# Camera orbit and scene builders of the three.js demos

This project models the few pieces of decision logic in two browser scene
scripts built on a WebGL scene-graph library:

- **The keyboard camera orbit** of the basic architecture scene
  (`updateKeyboard`). Each frame, the first held key of left, right, down and
  up moves the camera. Left and right rotate (x, z). Down rotates (y, z) while
  y > 5. Up does nothing at or above height 49.9. Below height 1 it snaps to
  the home pose (0, 50, 0). Otherwise it rotates (y, z) back. The camera is a
  class `Camera` with fields `x`, `y`, `z`. `Step` updates them in place and is
  specified by the pure transition function `Next`. The cosine and sine of
  the rotation speed are opaque reals `c` and `s`. Lemmas that need a true
  rotation assume `c * c + s * s == 1`.
- **The floor grid loop**, which both scripts run. From i = -lines, in steps
  of `step`, while i <= lines, it pushes (-lines, 0, i), (lines, 0, i),
  (i, 0, -lines) and (i, 0, lines) onto a geometry's vertex list.
  `basicFloorGrid` first replaces a missing or zero `lines`, `steps` or
  `gridColor` with 20, 2 or 0xFFFFFF.
- **The windmill blades**: the fixed table of 7 vertices and 10 faces of one
  blade, and the blades object. That object gets a hub and then three blades
  that share one geometry, at 0, 120 and 240 degrees.

Modules: `Scene` has the scene-graph values, plus the `Geometry` and
`Object3D` classes whose lists the scripts grow in place. `Grid` has the
shared grid loop and its specification. `Windmills` and `BasicArchitecture`
follow the two scripts.

The camera's height is not confined to [5, 50]. The code checks the height
only before it rotates, so one down step from just above 5 can end below it
(`DownCanUndershootFloor`). One up press does not always raise the camera
either. Between heights 1 and 49.9, up lowers the camera exactly when
z·sin θ < y·(1 − cos θ) (`UpLowersIff`). For any angle θ strictly between 0
and 180 degrees, that holds in particular whenever z ≤ 0
(`UpLowersWhenZNotPositive`, with the instance `UpCanLower`). The upper bound
does hold. Every frame either keeps the distance from the origin or snaps to
the home pose. So from the start pose, for any sequence of key presses, one
set of keys per frame, the camera stays on the sphere of radius 50 and its
height never exceeds 50 (`RunOnSphere`, `RunFromHomeBelowTop`).

## Model

| member | source | states |
|---|---|---|
| `BasicArchitecture.Camera.constructor` | app/scripts/basic-architecture.js:29 | the camera starts at the home pose (zoomX, zoomY, zoomZ) |
| `BasicArchitecture.Camera.Step` | app/scripts/basic-architecture.js:73-108 | one frame's update of the position in place equals `Next` of the old position for the held keys |
| `BasicArchitecture.KeyPrecedence` | app/scripts/basic-architecture.js:80-106 | at most one branch acts, with precedence left > right > down > up; lower keys held together with a higher one change nothing |
| `BasicArchitecture.NoKeyNoMove` | app/scripts/basic-architecture.js:80-106 | with no direction key held the position is unchanged |
| `BasicArchitecture.YawKeepsHeight` | app/scripts/basic-architecture.js:80-87 | left and right leave y unchanged |
| `BasicArchitecture.YawKeepsRadius` | app/scripts/basic-architecture.js:81-86 | if c² + s² = 1, left and right preserve x² + z² |
| `BasicArchitecture.LeftRightInverse` | app/scripts/basic-architecture.js:80-87 | if c² + s² = 1, a left step then a right step (or right then left) restores the position exactly |
| `BasicArchitecture.DownGuard` | app/scripts/basic-architecture.js:88-93 | down at y ≤ 5 changes nothing; above 5 it keeps x and rotates (y, z) |
| `BasicArchitecture.UpAtTopNoMove` | app/scripts/basic-architecture.js:94-95 | up at y ≥ zoomY − 0.1 changes nothing |
| `BasicArchitecture.UpSnapsHome` | app/scripts/basic-architecture.js:94-100 | up at y < 1 sets the position to exactly (0, 50, 0), whatever x and z were |
| `BasicArchitecture.UpRotates` | app/scripts/basic-architecture.js:101-104 | up at 1 ≤ y < zoomY − 0.1 keeps x and rotates (y, z) the other way from down |
| `BasicArchitecture.UpUndoesDown` | app/scripts/basic-architecture.js:88-104 | if c² + s² = 1 and both guards let the rotations through, a down step followed by an up step restores the position |
| `BasicArchitecture.DownCanUndershootFloor` | app/scripts/basic-architecture.js:88-93 | the down guard does not clamp: with a rotation of about 0.02 rad, from the point (10/7, 36/7, 348/7) on the radius-50 sphere (height ≈ 5.14) one down step ends below 5 |
| `BasicArchitecture.UpCanLower` | app/scripts/basic-architecture.js:101-104 | with a rotation of about 0.02 rad, from (0, 30, −40) on the radius-50 sphere one up step lowers the camera |
| `BasicArchitecture.UpLowersIff` | app/scripts/basic-architecture.js:94-104 | at 1 ≤ y < zoomY − 0.1, up lowers the camera if and only if z·s < y·(1 − c) |
| `BasicArchitecture.UpLowersWhenZNotPositive` | app/scripts/basic-architecture.js:94-104 | for s > 0 and c < 1 (an angle strictly between 0 and 180 degrees), up at 1 ≤ y < zoomY − 0.1 with z ≤ 0 always lowers the camera |
| `BasicArchitecture.PitchKeepsRadius` | app/scripts/basic-architecture.js:90-103 | if c² + s² = 1, the down and up rotations keep x and y² + z² |
| `BasicArchitecture.RotationsKeepRadius` | app/scripts/basic-architecture.js:81-103 | if c² + s² = 1, each of the four rotation formulas keeps x² + y² + z² |
| `BasicArchitecture.StepKeepsRadiusOrSnaps` | app/scripts/basic-architecture.js:80-106 | if c² + s² = 1, every frame either keeps x² + y² + z² or lands on the home pose |
| `BasicArchitecture.RunOnSphere` | app/scripts/basic-architecture.js:80-106 | if c² + s² = 1, from any position at distance 50 from the origin, any sequence of frames, each with its own held keys, ends at distance 50 |
| `BasicArchitecture.RunFromHomeBelowTop` | app/scripts/basic-architecture.js:29-106 | if c² + s² = 1, from the start pose, after any sequence of frames with any keys held in each, the camera is at distance 50 from the origin and its height is at most zoomY = 50 |
| `BasicArchitecture.HoldLeftKeepsRadius` | app/scripts/basic-architecture.js:80-83 | if c² + s² = 1, holding left for any number of frames keeps y and x² + z² |
| `BasicArchitecture.HoldLeftThenRight` | app/scripts/basic-architecture.js:80-87 | if c² + s² = 1, n left frames followed by n right frames return to the start |
| `BasicArchitecture.HoldRightThenLeft` | app/scripts/basic-architecture.js:80-87 | if c² + s² = 1, n right frames followed by n left frames return to the start |
| `BasicArchitecture.HoldDownBelowFloor` | app/scripts/basic-architecture.js:88-93 | holding down at y ≤ 5 never moves the camera, for any number of frames |
| `BasicArchitecture.InitFloorGrid` | app/scripts/basic-architecture.js:40-51 | the scene's grid (extent 20, step 2, white) has exactly 84 vertices, all on y = 0 within [−20, 20] |
| `Grid.AppendGrid` | app/scripts/basic-architecture.js:44-49 | the stepping loop appends exactly the grid's vertices to the geometry in order and leaves its faces alone |
| `Grid.GridFrom` | app/scripts/basic/windmills.js:44-49 | the loop appends a multiple of 4 vertices, none exactly when it starts past `lines`, and every vertex lies on y = 0 with x, z in [−lines, lines] |
| `Grid.GridFromCount` | app/scripts/basic/windmills.js:44-49 | a loop starting at i makes ⌊(lines − i)/step⌋ + 1 passes of 4 vertices, or none if i > lines |
| `Grid.GridVerticesCount` | app/scripts/basic/windmills.js:44-49 | the full grid holds 4·(⌊2·lines/step⌋ + 1) vertices, or none for negative lines |
| `Grid.GridFromRow` | app/scripts/basic/windmills.js:45-48 | pass k runs with i = start + k·step and appends (−lines,0,i), (lines,0,i), (i,0,−lines), (i,0,lines) in that order |
| `Windmills.OrDefault` | app/scripts/basic/windmills.js:39-41 | a missing or zero argument becomes the default, any other value is kept, and the result is never zero when the default is not |
| `Windmills.BasicFloorGrid` | app/scripts/basic/windmills.js:38-51 | after defaults, the line pieces hold exactly the grid vertices, 4·(⌊2·lines/steps⌋ + 1) of them, all on y = 0 within [−lines, lines], in the resolved colour |
| `Windmills.BladeTableWellFormed` | app/scripts/basic/windmills.js:61-77 | the blade table has 7 vertices and 10 faces, and every face index is in 0..6 |
| `Windmills.BladeGeometry` | app/scripts/basic/windmills.js:58-81 | a fresh geometry holding exactly the blade table's vertices and faces, in order, and well formed |
| `Windmills.WindmillBladesObject3D` | app/scripts/basic/windmills.js:84-101 | a fresh object with 4 children: the hub first, then three blades sharing one fresh blade geometry at 0, 120 and 240 degrees |
| `Scene.Geometry.PushVertex` | app/scripts/basic-architecture.js:45-48 | a push appends one vertex at the end and leaves the faces alone |
| `Scene.Geometry.PushFace` | app/scripts/basic/windmills.js:68-77 | a push appends one face at the end and leaves the vertices alone |
| `Scene.Object3D.Add` | app/scripts/basic/windmills.js:90 | adding appends one child at the end |

## Left out

- Trigonometry and `degToRad` (app/scripts/basic/windmills.js:53-55): cosine and sine are opaque parameters, and angles stay in whole degrees.
- Floating-point rounding: positions are exact reals, so the inverse and radius lemmas hold exactly here and only approximately in the browser.
- `BasicArchitecture.Camera.Step` does not model `camera.lookAt(scene.position)` (app/scripts/basic-architecture.js:107), which is a library call that orients the camera and does not move it.
- Rendering, the renderer and camera set-up, `OrbitControls`, the keyboard-state object, `requestAnimationFrame`, resize listeners, lights and the frame drivers. The keys held in a frame are four booleans passed to `Step`. `updateScene` renders before it updates the camera (app/scripts/basic-architecture.js:112-113), so each frame shows the position from before that frame's keys.
- `addPillars` (app/scripts/basic-architecture.js:56-70): its loop bound `totalPillars` is never assigned, so the loop never runs, and it calls a `calc` module that is not part of this model.
- `rotateWindmillBlades` (app/scripts/basic/windmills.js:112-115): it uses the clock delta in floating point, and its only call is commented out.
- `windmillHubMesh` and `initializeScene` in the windmill script: they are library constructors and assembly, with no decisions in them.
- `computeFaceNormals` and `computeVertexNormals` (app/scripts/basic/windmills.js:78-79), and material construction: these are library calls.
- `Windmills.BasicFloorGrid` takes integer arguments only. JavaScript numbers may be fractional, and NaN is also falsy. The model requires that the resolved extent is negative or the resolved step is positive. Otherwise the JavaScript loop never ends.
- `BasicArchitecture.InitFloorGrid` models the grid colour `'white'` as the number 0xFFFFFF.
- The dippy-bird demo: it only assembles a scene and chains tweens from an external library.
