# Lava lamp: a verified model of the frame engine

This project models the frame-update and interaction engine of a p5.js "lava
lamp" sketch (`sketch.js`), with the drawing calls removed. The sketch keeps
one global `lamp` record (centre, size, drag flag and drag offset) and a
`blobs` array, and updates both in place:

- `setup` and `windowResized` size the canvas for the phone (at most 600 by
  720) and fit the lamp to it. The lamp is 55% of the canvas, rounded and
  clamped to 160..240 wide and 280..420 high, centred at (w/2, 0.55 h).
- Each frame runs a loop over the blobs (`drawLampGlassAndContents`).
  - Buoyancy lowers `vy` by 0.0045 and a sine wobble adds `0.06·sin(…)` to `vx`.
  - The blob then moves by its velocity, clamped to ±1.2 per axis.
  - It is drawn as a halo and a core at that position.
  - Then the bounds inside the glass run. The glass is 70% of the lamp's width
    and its full height. Horizontally the code only reflects `vx` by −0.9.
    Vertically it puts the blob on the crossed edge and reflects `vy` by −0.7.
- Every 360th frame one blob is appended while there are fewer than 10.
- While the pointer is pressed inside the glass rectangle, the lamp is
  captured and follows the pointer at a fixed offset. The touch handlers
  forward to the mouse handlers.

The model has two layers.

- In the value layer (modules `Geometry`, `Drag`, `Physics`, `Population`,
  `Render`) every rule is a function. The lemmas state what the rules
  guarantee.
- In the state layer (module `LavaLamp`), the classes `Lamp`, `Blob` and
  `Sketch` carry the mutable fields of the script. Their methods change them
  in place, in the script's order. Each method's postcondition ties the new
  state to the value-layer function of the old state.

Inputs the verifier cannot see are parameters:

- the viewport size (`window.innerWidth`/`innerHeight`);
- `Math.sin`, as a function `sin: real -> real` bounded by [−1, 1];
- each `random(lo, hi)`, as the uniform draw `u ∈ [0, 1)` in
  `u·(hi − lo) + lo` (a `Draws` record per blob);
- `frameCount`.

Numbers are `real`. `Math.round` is `floor(v + 0.5)`, and p5's `constrain` is
`max(min(n, hi), lo)`.

Some behaviour of the code is easy to mistake, and the model keeps it as written:

- There is no horizontal position clamp, so blobs are not kept inside the glass
  horizontally. `Physics.NoHorizontalClamp` exhibits a blob that stays outside.
- The x and y velocities are not clamped; only the per-frame move is.
- There is no per-blob dragging, no damping when the lamp is grabbed and no
  release impulse.
- A press inside the glass while already dragging re-captures the lamp with
  the new offset. A press outside leaves the capture and its offset as they
  were.

## Model

| member | source | states |
|---|---|---|
| Geometry.Round | sketch.js:14-15 | Math.round gives the integer n with n − 0.5 ≤ v < n + 0.5 (halves round up) |
| Geometry.RoundUnique | sketch.js:14-15 | that integer is unique: any m within half a unit (halves up) equals Round(v) |
| Geometry.RoundMonotone | sketch.js:14-15 | rounding is monotone |
| Geometry.Constrain | sketch.js:14-15 | constrain lands in [lo, hi], is the identity inside, lo below and hi above |
| Geometry.CanvasSizeForPhone | sketch.js:40-45 | canvas w = min(innerWidth, 600), h = min(0.9·innerHeight, 720): w ≤ 600, h ≤ 720, each equal to the viewport value or to the cap |
| Geometry.LampWidth | sketch.js:14 | 160 ≤ lamp.w ≤ 240; it equals round(0.55·w) when that is in range, else the nearer bound |
| Geometry.LampHeight | sketch.js:15 | 280 ≤ lamp.h ≤ 420; it equals round(0.55·h) when that is in range, else the nearer bound |
| Geometry.LampSizeMonotone | sketch.js:14-15 | a larger canvas never gives a smaller lamp |
| Geometry.Fit | sketch.js:14-17 | after sizing, w = LampWidth(canvas w) and h = LampHeight(canvas h), so the size is in range; x is half the canvas width, y = 0.55·h, and the drag flag and offset are untouched |
| Geometry.FitIdempotent | sketch.js:34-37 | refitting to the same canvas changes nothing |
| Geometry.FitForgetsPosition | sketch.js:34-37 | the fitted lamp does not depend on where it was dragged, only on the canvas and the drag fields |
| Geometry.InitialLampInRange | sketch.js:3 | the declared lamp record already has its size in range and is not dragging |
| Geometry.GlassOf | sketch.js:86 | the glass is centred on the lamp; within range it is 112..168 wide and 280..420 high |
| Geometry.PointInLamp | sketch.js:184-188 | the hit test on the glass rectangle; specified by PointInLampIff and PointInLampTranslates |
| Geometry.PointInLampIff | sketch.js:184-188 | pointInLamp holds exactly when abs(px − x) < 0.35·w and abs(py − y) < h/2 (an open rectangle) |
| Geometry.PointInLampTranslates | sketch.js:184-188 | the hit test depends only on the pointer's offset from the lamp centre |
| Drag.Press | sketch.js:164-170 | a press never moves or resizes the lamp; a hit sets dragging and an offset with lamp + offset = pointer; a miss changes nothing |
| Drag.Move | sketch.js:171-176 | while dragging, lamp centre + offset = pointer, and size, flag and offset are kept; not dragging, a move is a no-op |
| Drag.Release | sketch.js:177 | release clears dragging and changes nothing else |
| Drag.Apply | sketch.js:164-182 | one pointer event, mouse or forwarded touch: it never resizes the lamp, a release always ends dragging, and a drag or release on a lamp not being dragged changes nothing |
| Drag.RunKeepsSize | sketch.js:164-177 | no sequence of pointer events changes w or h, so the size range is preserved |
| Drag.DragFollowsPointer | sketch.js:171-176 | over any run of moves while dragging, the lamp sits at the last pointer minus the captured offset, and the offset and flag are kept |
| Drag.PressThenDrags | sketch.js:164-176 | after a hit and any drags, the pointer is still inside the lamp, and dragging back to the press point restores the original position |
| Drag.RepressResetsOffset | sketch.js:164-170 | pressing again inside while dragging re-captures with the new offset |
| Drag.ReleasedIgnoresDrags | sketch.js:171-177 | after release, any run of moves leaves the lamp unchanged |
| Drag.ReleaseIdempotent | sketch.js:177 | releasing twice is releasing once |
| Physics.WobbleArg | sketch.js:111 | the sine argument frameCount·0.02 + phase; its use is specified by Integrate and LavaLamp.Sketch.StepBlobs |
| Physics.ClampSpeed | sketch.js:113-114 | the move per axis is in [−1.2, 1.2]: the velocity itself inside that band, the nearer bound outside |
| Physics.Integrate | sketch.js:110-114 | vy drops by exactly 0.0045; vx gains exactly 0.06·wobble, hence at most 0.06 when −1 ≤ wobble ≤ 1; x and y move by the clamped new velocity (at most 1.2); radius, phase and alpha are kept |
| Physics.IntegrateMovesWithVelocity | sketch.js:113-114 | the move goes in the direction of the new velocity and no further than it |
| Physics.VelocityNotClamped | sketch.js:110-114 | the stored velocity is not clamped: vx = 3 stays 3 while x moves by 1.2 |
| Physics.ResolveX | sketch.js:125-127 | outside [−gw/2 + r, gw/2 − r], vx becomes −0.9·vx; inside, nothing changes; x is never changed |
| Physics.ResolveY | sketch.js:126-129 | vertical bounds change only y and vy |
| Physics.ResolveYContains | sketch.js:126-129 | if r ≤ gh/2, afterwards gy − gh/2 + r ≤ y ≤ gy + gh/2 − r; a crossed edge becomes y exactly, with vy = −0.7·vy; a blob inside is unchanged |
| Physics.ResolveYIdempotent | sketch.js:128-129 | when r ≤ gh/2, resolving the vertical bounds twice is resolving them once |
| Physics.ResolveXNotIdempotent | sketch.js:127 | horizontal handling flips vx each time a blob outside is resolved (vx 1, then −0.9, then 0.81) |
| Physics.ResolveBounds | sketch.js:125-129 | the bounds step never moves x and keeps r, phase and alpha; vx is either kept or reflected by −0.9; specified further by ResolveYContains and BoundsDissipate |
| Physics.AxesIndependent | sketch.js:125-129 | the axes are resolved independently; the order of the x and y handling does not matter |
| Physics.BoundsDissipate | sketch.js:125-129 | for every blob, of any radius, bounces never increase abs(vx) or abs(vy), and bounds never move x |
| Physics.Step | sketch.js:108-130 | one loop iteration keeps r, phase and alpha and moves x by at most 1.2; specified by StepContract (which with r ≤ gh/2 pins vx, x, and y and vy both inside and at a crossed edge) and RunStepsBounds |
| Physics.StepContract | sketch.js:108-130 | one frame adds 0.06·wobble to vx and then reflects it by −0.9 outside the band; x moves by exactly the clamped vx, so it moves at most 1.2; vy drops by 0.0045 and y keeps the integrated value when inside; past the top or bottom edge y is put on that edge and vy becomes −0.7·(vy − 0.0045); the blob ends vertically inside. All of this when r ≤ gh/2 |
| Physics.NoHorizontalClamp | sketch.js:125-127 | there is no horizontal clamp: a blob at x = 100 in a 112-wide glass stays at 100, outside the band |
| Physics.RunStepsBounds | sketch.js:108-130 | when r ≤ gh/2, over n frames a blob drifts at most 1.2·n horizontally, keeps r, phase and alpha, and after at least one frame is vertically inside |
| Physics.Random | sketch.js:67-73 | p5's random(lo, hi) as u·(hi − lo) + lo; specified by RandomInRange and RandomCovers |
| Physics.RandomInRange | sketch.js:67-73 | random(lo, hi) = u·(hi − lo) + lo with u ∈ [0, 1) lies in [lo, hi) |
| Physics.RandomCovers | sketch.js:67-73 | every value in [lo, hi) is the result of some draw u ∈ [0, 1) |
| Physics.Spawn | sketch.js:63-74 | makeBlob on the current lamp; specified by SpawnInRange, SpawnCovers and SpawnInsideY |
| Physics.SpawnInRange | sketch.js:63-74 | a new blob has x in lamp.x ± 0.30·w, y in lamp.y ± 0.35·h, 18 ≤ r < 42, vx in [−0.35, 0.35), vy in [−0.55, 0.15), phase in [0, 2π), alpha in [110, 170) |
| Physics.SpawnCovers | sketch.js:63-74 | conversely, every blob in those ranges is produced by some draws |
| Physics.SpawnInsideY | sketch.js:63-68 | a new blob starts vertically inside the glass when the lamp size is in range, because 0.35·h + 42 ≤ 0.5·h for h ≥ 280 |
| Population.InitialBlobCount | sketch.js:24 | setup makes 5 blobs when the canvas is narrower than 380, otherwise 8; never more than 10 |
| Population.SpawnsAt | sketch.js:133 | the spawn test frameCount % 360 = 0; specified through NextCount and IntervalHasSpawn |
| Population.NextCount | sketch.js:133 | a frame adds exactly one blob iff frameCount % 360 = 0 and there are fewer than 10, else none; the count never exceeds 10 |
| Population.CountAfterExact | sketch.js:133 | from at most 10 blobs, after any run of frames the count is min(10, n + number of spawn frames), so it never decreases and never exceeds 10 |
| Population.IntervalHasSpawn | sketch.js:133 | any 360 consecutive frames contain a spawn frame |
| Render.Halo | sketch.js:117-118 | the halo disc; specified by HaloAroundCore |
| Render.Core | sketch.js:121-122 | the core disc; specified by HaloAroundCore |
| Render.BlobDiscs | sketch.js:116-122 | halo then core, in drawing order; specified by HaloAroundCore and LavaLamp.Blob.Step |
| Render.HaloAroundCore | sketch.js:116-122 | halo and core are concentric on the blob centre; the halo is larger (2.3·r against 1.7·r) and more transparent (0.6·alpha against alpha) |
| Render.GradientRows | sketch.js:100-104 | the gradient has gh + 1 rows with t = i/gh, starting at 0, ending at 1, rising strictly |
| LavaLamp.Lamp.constructor | sketch.js:3 | the lamp starts as the declared record (220, 260, 180 by 320, not dragging) |
| LavaLamp.Lamp.FitTo | sketch.js:14-17 | the shared sizing lines update the lamp to Fit of its old state; its size is in range |
| LavaLamp.Lamp.MousePressed | sketch.js:164-170 | the lamp's new state is Drag.Press of the old one |
| LavaLamp.Lamp.MouseDragged | sketch.js:171-176 | the lamp's new state is Drag.Move of the old one |
| LavaLamp.Lamp.MouseReleased | sketch.js:177 | the lamp's new state is Drag.Release of the old one |
| LavaLamp.Lamp.TouchStarted | sketch.js:180 | a touch start has the same effect as a mouse press |
| LavaLamp.Lamp.TouchMoved | sketch.js:181 | a touch move has the same effect as a mouse drag |
| LavaLamp.Lamp.TouchEnded | sketch.js:182 | a touch end has the same effect as a mouse release |
| LavaLamp.Blob.constructor | sketch.js:66-74 | a blob object holds exactly the fields makeBlob computed |
| LavaLamp.Blob.Step | sketch.js:108-130 | in place, the blob becomes Physics.Step of its old state; the two discs drawn are those of the integrated position, before bounds |
| LavaLamp.Sketch.constructor | sketch.js:3-4 | the script starts with the declared lamp and no blobs |
| LavaLamp.Sketch.MakeBlob | sketch.js:63-74 | makeBlob returns a fresh blob equal to Spawn of the current lamp, inside the spawn ranges |
| LavaLamp.Sketch.Setup | sketch.js:7-27 | the canvas is capped, the lamp is fitted, and there are exactly 5 or 8 fresh blobs, the k-th spawned from the k-th draws |
| LavaLamp.Sketch.WindowResized | sketch.js:29-38 | the canvas is capped and the lamp refitted; the blob list and every blob's state are untouched |
| LavaLamp.Sketch.StepBlobs | sketch.js:108-130 | every blob, in list order, becomes Step of its old state with its own wobble, and the draw list is its halo then its core at the integrated position |
| LavaLamp.Sketch.Frame | sketch.js:85-143 | a frame draws the gradient rows and steps all blobs; it then appends one fresh blob iff NextCount says so; old blobs keep their order; the lamp is unchanged; every blob ends vertically inside the glass |

## Left out

- Drawing: the p5.js and canvas calls (`createCanvas`, `resizeCanvas`, `pixelDensity`, `frameRate`, `background`, `fill`, `stroke`, `rect`, `circle`, `arc`, `lerpColor`, the clip path, `roundedRect`, `roundedRectPath`) are foreign library calls. Only the halo and core discs and the gradient parameter of each row are kept, as data.
- `drawBaseAndCap`, the glass outline and the glass highlight arc are cosmetic, and so are the colour constants.
- `window.innerWidth`/`innerHeight`, `Math.sin` and `random` are host inputs. They become parameters; the draws are assumed to lie in [0, 1) and the sine in [−1, 1].
- IEEE double rounding is not modelled: all arithmetic is exact over `real`. `TWO_PI` is its double value written as a decimal.
- The `return false` of the touch handlers suppresses the browser's default handling. That is host behaviour.
- Which events the host delivers, and when, is not modelled. The methods can be called in any order between frames.
- Physics.ResolveYContains: containment is proved only when r ≤ gh/2, and so are Physics.ResolveYIdempotent, Physics.StepContract and Physics.RunStepsBounds. The lamp's size range and the spawn radius always guarantee this in the sketch. Larger blobs are not covered.
- LavaLamp.Sketch.Frame: `draw` calls this once per tick, after the base and cap; the frame counter is an input and is not incremented by the model.
- LavaLamp.Sketch.constructor: the 100 by 100 canvas before `setup` is p5's default, not something this sketch sets.
