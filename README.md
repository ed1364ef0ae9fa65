# Virtual tour viewer: look-and-click controller

This project models the interaction logic of a browser 360° panorama viewer.
The viewer comes in three near-identical variants, one per script, each with
the same pointer controller:

- **mousedown** starts a drag and records where the press happened.
- **mousemove** turns the camera while dragging. Yaw and pitch change by the
  pointer delta times 0.005. Pitch is clamped to [-π/2, π/2] and roll is set
  to 0.
- **mouseup** ends the drag. If the pointer moved strictly less than 5 pixels
  from the press, the release is a click and is handed to a hit test.

In `script.js` and `teste.js` a click on the single icon advances the current
panorama index modulo the number of images (four). In `testee.js` the first
object the click's ray hits is looked up among the marker sprites, and that
marker's text is shown.

Modules:

- `Look` (look.dfy): the shared controller. It has value types, pure step
  functions (`Press`, `Release`, `Move`, and `Run` over event sequences) with
  their lemmas. Class `Look.Controller` holds the four mutable globals of the
  source as fields: `isDragging`, `previousMousePosition`,
  `mouseDownPosition` and the camera `rotation`. Each handler updates them in
  place and is proved against the step functions.
- `Gallery` (gallery.dfy): the modular image-index advance and its cycle
  properties.
- `Markers` (markers.dfy): marker sprites as objects compared by identity,
  building the `sprites` list from the mark points, and the `find` lookup.
- `Script`, `Teste`, `Testee` (script.dfy, teste.dfy, testee.dfy): one `Tour`
  class per source file. Each holds that file's constants and state and its
  three handlers.
- `Wrappers` (wrappers.dfy): an `Option` type for "an action fired, carrying
  this value".

Modelling choices:

- Angles are `real`. `HalfPi` is 1.5707963267948966, the shortest decimal
  that prints as the browser's `Math.PI / 2`; the proofs only use that it is
  positive.
- Pointer coordinates are `int`.
- The test `Math.sqrt(dx*dx + dy*dy) < 5` is modelled as `dx*dx + dy*dy < 25`.
  `Look.ClickIffDistanceBelowThreshold` proves the two agree for the
  non-negative square root.
- The raycaster's answer is an input to mouseup. For the icon variants it is
  a `bool`. For the marker variant it is the sequence of hit objects, nearest
  first.
- `loadTexture(i)` becomes the out-parameter `load == Some(i)`.
  `showModal(info)` becomes the out-parameter `shown == Some(info)`.

## Model

| member | source | states |
|---|---|---|
| Look.ClampPitch | script.js:141 | the clamped pitch always lies in [-π/2, π/2], and a pitch already in range is kept |
| Look.ClampIsNearest | script.js:141 | the clamp is a hard floor and ceiling: it returns the point of the range nearest the requested pitch, the upper bound above it and the lower bound below it |
| Look.ClickIffDistanceBelowThreshold | script.js:106-112 | for the non-negative distance d with d² = dx² + dy², the squared test says click exactly when d < 5 |
| Look.ThresholdDistanceIsDrag | script.js:108-112 | the threshold is strict: a release at distance exactly 5 (3-4-5, or 5-0) is a drag, and one at distance √18 is a click |
| Look.IsClick | script.js:106-112 | the `distance < dragThreshold` test: a release where the press was is a click, and a click moved less than 5 pixels along each axis |
| Look.Initial | script.js:89-91 | start-up state: not dragging, both positions (0,0), and the pitch within range |
| Look.Press | script.js:95-101 | mousedown sets dragging and puts both the previous and the press position at the event point, leaving the rotation alone |
| Look.Release | script.js:109 | mouseup clears dragging whatever the release was, and changes no other state |
| Look.Move | script.js:131-146 | a move never changes the dragging flag or the press position; while dragging the pitch ends in range and the previous position becomes the event point; while idle nothing changes |
| Look.Step | script.js:95-146 | one handler call: only a press moves the press position, dragging holds exactly after a press or a move during a drag, and an in-range pitch stays in range |
| Look.Run | script.js:95-146 | handling events in order: without a press, the press position stays put and an idle controller stays idle |
| Look.MoveAll | script.js:131-146 | a run of moves never changes the dragging flag or the press position |
| Look.RunKeepsPitchInRange | script.js:131-146 | after any sequence of down, up and move events the pitch stays in [-π/2, π/2] |
| Look.MoveAllKeepsPitch | script.js:139-142 | after any sequence of moves the pitch stays in [-π/2, π/2] |
| Look.MoveAllWhileIdle | script.js:131-132 | moves while not dragging change no state at all |
| Look.MoveAllTelescopes | script.js:133-144 | within a drag, the total yaw change of a run of moves is -(last.x - previous.x)·0.005; the pointer ends at the last move and the press position is untouched |
| Look.DragTurnsFromPressPoint | script.js:95-144 | over a drag started by a press at d, the yaw turns by -(last.x - d.x)·0.005 and the pitch stays in range |
| Look.PressDragReleaseScenario | script.js:95-146 | press at (100,100), move to (150,130), release there: not a click, yaw -0.25, pitch clamped after -0.15, no longer dragging |
| Look.Controller.constructor | script.js:89-91 | initial state: not dragging, both positions (0,0), camera unrotated |
| Look.Controller.MouseDown | script.js:95-101 | sets dragging and both positions to the event point; its frame leaves the rotation untouched |
| Look.Controller.MouseUp | script.js:104-112 | clears dragging and returns click exactly when the squared distance from the press point is below 25 |
| Look.Controller.MouseMove | script.js:131-146 | no-op unless dragging; otherwise yaw -= dx·0.005, pitch := clamp(pitch - dy·0.005), roll := 0, previous := event point; the pitch invariant is kept |
| Gallery.Next | script.js:121 | the advanced index is always a valid index, below the image count |
| Gallery.Advance | script.js:119-122 | repeated clicks on the icon: zero clicks keep the index, and the result is a valid index whenever the start is or at least one click happened |
| Gallery.NextWraps | script.js:121 | from an index in range the advance is the successor, except that the last index wraps to 0 |
| Gallery.AdvanceWraps | script.js:119-122 | k ≤ n clicks from index i land on i + k, or i + k - n once past the end |
| Gallery.FullCycle | script.js:121 | n clicks return any index to itself; from 0 the first n clicks visit 0, 1, …, n-1, so each index exactly once |
| Script.Tour.constructor | script.js:30-36 | start-up: index 0 of the four images, controller in its initial state |
| Script.Tour.MouseDown | script.js:95-101 | starts the drag at the event point; index and rotation unchanged |
| Script.Tour.MouseUp | script.js:104-128 | always ends the drag; a click hitting the icon sets the index to (i+1) mod 4 and requests its texture; a drag or a miss leaves the index unchanged and requests nothing; the index stays in [0, 4) |
| Script.Tour.MouseMove | script.js:131-146 | turns the camera as the controller's move; the press position and index are unchanged |
| Teste.Tour.constructor | teste.js:22-23 | start-up: index 0 of this file's four images, controller in its initial state |
| Teste.Tour.MouseDown | teste.js:74-80 | starts the drag at the event point; index and rotation unchanged |
| Teste.Tour.MouseUp | teste.js:82-97 | always ends the drag; a click hitting the icon advances the index modulo 4 and requests its texture; a drag or a miss leaves it unchanged; the index stays in range |
| Teste.Tour.MouseMove | teste.js:99-112 | no-op unless dragging, otherwise the clamped yaw/pitch update; the press position is unchanged |
| Markers.Sprite.constructor | testee.js:70-72 | a new sprite sits at the mark's position with scale (50, 50, 1) |
| Markers.BuildSprites | testee.js:68-75 | one entry per mark, in the marks' order, each with that mark's text and a fresh sprite at its position with scale (50, 50, 1); no sprite is shared |
| Markers.HitOnSpritesSelectsOne | testee.js:98-103 | when the ray, cast only at the listed sprites, hits anything, exactly one text is selected: that of the first entry holding the nearest hit |
| Markers.Find | testee.js:100 | returns nothing exactly when no entry holds the object, and otherwise an entry of the list holding it |
| Markers.FindFirst | testee.js:100 | the entry returned is the first in list order that holds the object |
| Markers.Selected | testee.js:98-104 | no hits means no text; a text produced belongs to an entry holding the nearest hit; a nearest hit that is one of the sprites always produces a text |
| Markers.SelectedShowsMarkInfo | testee.js:64-103 | with the sprites built from the marks, a click whose nearest hit is mark j's sprite shows exactly mark j's text |
| Testee.Tour.constructor | testee.js:64-81 | start-up: two fresh sprites at the mark positions carrying their texts, controller in its initial state |
| Testee.Tour.MouseDown | testee.js:82-88 | starts the drag at the event point; rotation unchanged |
| Testee.Tour.MouseUp | testee.js:89-106 | always ends the drag; a drag release shows nothing; a click shows the text selected for the nearest hit, at most one; a click whose hits are among the sprites and not empty shows exactly one text; a click whose nearest hit is mark j's sprite shows mark j's text |
| Testee.Tour.MouseMove | testee.js:107-120 | no-op unless dragging, otherwise the clamped yaw/pitch update; the press position is unchanged |

## Left out

- Scene, camera, renderer, lights, sphere and end-cap geometry: construction of library objects with no logic of their own. The camera is reduced to its rotation.
- Texture loading: `loadTexture` is modelled only as the request `load == Some(index)` returned by mouseup. The start-up load of image 0 and the asynchronous completion that swaps the texture are not modelled.
- Raycasting and the conversion of the click to normalised device coordinates: floating-point geometry in the rendering library. Its result is an input to mouseup.
- `showModal`: DOM construction and the close button. It is modelled only as the text returned by mouseup.
- The `animate` render loop and, in `testee.js`, starting it from the texture callback: UI scheduling.
- IEEE-754 rounding of the yaw/pitch arithmetic, `NaN` inputs to `Math.min`/`Math.max`, and the exact value of `Math.PI`: angles are exact reals.
- Event-listener registration on `window`: each handler is a method, called once per event.
- The `{x, y}` position objects, which the source updates one coordinate at a time, are values here. Nothing else refers to them, so no aliasing is lost.
- Gallery.Next: requires a non-empty image list. In the source the list is a fixed four-entry literal, so the empty case cannot happen.
