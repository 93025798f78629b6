# Horizon Velocity: a Dafny model of the game loop

Horizon Velocity is a pseudo-3D endless driver drawn on a 1280×720 canvas. The camera moves down
a straight road at 350 units per second. Each frame projects road depths to screen lines, draws
up to 51 road segments far to near (body, red/white rumble strips, dashed lane lines); the nearest
is skipped when the next segment boundary is within 0.01 units of the camera. It recycles a pool
of 100 roadside trees, and draws them in the order its comparator sorts them: farther first while
every tree is strictly ahead of the camera. It also steers and clamps the player's car.
This project models that core of `game.js` in Dafny and proves what it guarantees.

Numbers are exact reals. Everything drawn on the canvas is a `Canvas.Command` value: a cleared
screen, a filled rectangle, a filled quadrilateral, the car bitmap or a tree bitmap. So a drawing
routine returns the exact sequence of commands it issues.

Modules, following the program's structure:

- `Constants`: the game's constants. `NumSegments` is computed as the program computes it (31),
  and so is the farthest road slot (51).
- `Projection`: `project`, the perspective projection of a road depth.
- `Segment`: `getSegmentColor` and `drawSegment`, the commands one road segment draws.
- `Road`: `drawRoad`, the window of segments in front of the camera.
- `Scenery`: the tree pool, recycling, the drawTrees comparator and the tree drawing loop.
- `World`: the state `frame` updates (camera position, previous timestamp, tree array), as a class.
  Pure `Step`/`Run` functions specify it frame by frame.
- `Player`: the car (`handleInput`, `clampCarPosition`, `drawCar`), as a class.
- `Game`: `frame`, one animation tick.
- `Wrappers`, `Sequences`: an `Option` type and generic sequence helpers.

## Model

| member | source | states |
|---|---|---|
| Constants.SegmentCounts | game.js:29-30 | NUM_SEGMENTS = ceil(720 / 35) + 10 is 31, so drawRoad's first slot is 51 |
| Projection.Project | game.js:70-87 | a depth projects exactly when it is more than 0.01 ahead of the camera; the result is centred at x 640, lies below the horizon line y 342, and is at least 2 wide |
| Projection.ProjectClosedForm | game.js:70-87 | a projected edge lies at y = 342 + 32000/dz and has width max(160000/dz, 2) |
| Projection.ProjectMonotone | game.js:75-86 | a nearer depth projects strictly lower on the screen and at least as wide |
| Projection.ProjectWidthUnclamped | game.js:81-82 | within 80000 units of the camera the minimum-scale clamp never applies |
| Projection.ProjectShiftInvariant | game.js:71 | the projection depends only on the depth relative to the camera |
| Segment.SegmentColor | game.js:165-167 | the body colour is one of the two road greys |
| Segment.RumbleColor | game.js:107 | the rumble colour is red or white |
| Segment.ColorParity | game.js:165-167 | the light grey and red rumbles go with even indices; consecutive segments alternate in both colours |
| Segment.SegmentCommands | game.js:90-151 | a segment is all filled quadrilaterals: 5 when its index is a multiple of 3 and 3 otherwise; the first is in the body colour, the next two in the rumble colour, any others white |
| Segment.DrawSegment | game.js:90-154 | the loop issues the body, the two rumble strips, then a dash for i = 1 and i = 2 only when the index is a multiple of 3 |
| Segment.SegmentLayout | game.js:90-151 | a segment is 5 filled shapes when its index is a multiple of 3 and 3 otherwise, in body, rumble, rumble, white-dash order, each spanning the near edge's line to the far edge's line |
| Segment.RumblesAtRoadEdges | game.js:100-123 | each rumble strip is a tenth of the road width, flush with the body's outer edge, and ends where the paved area begins |
| Segment.LaneLinesSplitPavement | game.js:100-141 | the lane lines cut the paved area into three equal lanes, strictly between the rumble strips |
| Segment.DashesOnLaneLines | game.js:128-150 | each dash is centred on its lane line and is exactly max(4, 1% of the road width) wide at each edge, so at least 4 pixels and at least 1% of the width |
| Segment.DashInsidePavement | game.js:128-141 | on an edge wider than 7.5 pixels each dash stays strictly inside the paved area |
| Road.SegmentAt | game.js:174-185 | slot n yields a segment exactly when its near depth baseZ + 35n is more than 0.01 ahead of the camera (the far depth is then too) |
| Road.DrawSlot | game.js:174-185 | one pass of the loop draws slot n's segment, in its parity colour, when both of its edges project, and nothing otherwise |
| Road.DrawRoad | game.js:170-187 | the commands are the visible segments painted one after another, from slot 51 down to slot 1 |
| Road.BaseZIsLargestMultiple | game.js:171 | baseZ is the largest multiple of 35 not above the camera position |
| Road.SegmentAtIsSegmentIndex | game.js:174-184 | the segment drawn in slot n has index floor(position/35) + n, and its edges are the projections of its own start and of the next segment's start |
| Road.SlotVisibility | game.js:173-180 | slots 2 and beyond are always drawn; slot 1 is skipped exactly when the next segment starts within 0.01 of the camera |
| Road.VisibleSegmentsWindow | game.js:170-187 | a frame draws segments floor(position/35) + 51 down to + 1 (51 of them), dropping only the nearest, and only in the slot-1 case |
| Road.VisibleSegmentsFarToNear | game.js:173-186 | listed in drawing order, each next segment's near edge is strictly lower on screen (painter's order) |
| Road.NearSegmentWide | game.js:75-82 | a segment no farther than slot 51 is over 87 pixels wide at both edges |
| Road.VisibleSegmentsWide | game.js:170-187 | every drawn edge is over 87 pixels wide |
| Road.VisibleDashesOnPavement | game.js:128-150 | on every drawn segment both lane dashes lie strictly inside the paved area at both edges |
| Scenery.InitialPool | game.js:58-65 | the pool has 100 trees, tree i at depth 200·i, on the left side exactly when i is even |
| Scenery.InitialPoolShape | game.js:58-65 | the start-up pool has 100 trees, tree i at depth 200·i, even trees on the left at -3000 and odd trees on the right at 3000, all within 20000 ahead of a camera at 0 |
| Scenery.RecycleTree | game.js:278-280 | a tree keeps its side and never moves back, and it is left unchanged exactly when it is not behind the camera |
| Scenery.Recycle | game.js:277-281 | the loop keeps the pool size, every tree's side, and never moves a tree back |
| Scenery.RecycleMovesOnlyPassedTrees | game.js:277-281 | the tree loop moves exactly the trees behind the camera, each by exactly 20000, and keeps every side and the pool size |
| Scenery.RecyclePreservesShape | game.js:277-281 | recycling keeps the pool's size and alternating sides |
| Scenery.RecycleKeepsTreesAhead | game.js:277-281 | if every tree was within 20000 ahead of the camera and the camera advances by at most 20000, every tree is again within 20000 ahead |
| Scenery.RecycleIsOneStep | game.js:277-281 | a tree moves forward only once per frame, so after a jump of more than 20000 it can remain behind the camera |
| Scenery.CompareTrees | game.js:192-205 | the comparator returns 0 when either tree is at or behind the camera and when both are at the same depth |
| Scenery.CompareOrdersFartherFirst | game.js:192-205 | for two trees ahead of the camera the comparator sorts the farther first and ties equal depths; a tree at or behind the camera ties with everything |
| Scenery.CompareAntisymmetric | game.js:192-205 | swapping the comparator's arguments negates its result |
| Scenery.CompareTransitiveAhead | game.js:192-205 | among trees ahead of the camera the comparator is transitive |
| Scenery.CompareInconsistentWithPassedTree | game.js:196 | a tree at the camera ties with two trees ahead that do not tie with each other, so the comparator is then not a consistent order |
| Scenery.AsWrittenDrawsTreeAtCamera | game.js:209-212 | on the first frame the first tree is at dz = 0, passes the written `dz < 0` skip, and has no valid scale |
| Scenery.PlaceTree | game.js:209-216 | with the skip corrected to dz <= 0, a tree image is placed exactly when the tree is ahead of the camera; its base is below the middle line and its height positive |
| Scenery.PlaceTreeKeepsSide | game.js:212-213 | a tree ahead of the camera is drawn left of the screen's centre exactly when it stands left of the road |
| Scenery.PlaceTreeAgreesWithComparator | game.js:192-216 | with the skip corrected to dz <= 0, a tree is drawn exactly when it is ahead of the camera, its base is below the middle line, its height is positive, and the comparator orders two drawn trees by their base y |
| Scenery.PlaceTreeNearerIsLowerAndTaller | game.js:212-216 | of two trees ahead, the nearer is drawn lower and taller |
| Scenery.DrawTrees | game.js:208-226 | the loop draws, in the sorted order, one image for each tree ahead of the camera |
| Scenery.TreeImagesAreTreesAhead | game.js:208-226 | an image is drawn exactly when it is the placement of a tree ahead of the camera |
| Scenery.TreeImagesIgnoreOrder | game.js:190-226 | any two orders of the same trees draw the same set of images |
| World.FrameDelta | game.js:271-272 | dt is 0 on the first frame and after a frame stamped 0; otherwise it is the elapsed milliseconds over 1000, and it is non-negative when time does not go backwards |
| World.Step | game.js:270-281 | a frame records its timestamp, keeps the pool size, leaves the camera in place on the first frame and never moves it back when time does not go backwards |
| World.FirstFrameStandsStill | game.js:271-275 | the first frame does not move the camera, and it records its timestamp |
| World.RunKeepsPoolShape | game.js:270-281 | after any number of frames the pool keeps its 100 trees and their sides |
| World.RunMovesForward | game.js:271-275 | with timestamps that never go backwards the camera never moves backwards |
| World.RunKeepsTreesAhead | game.js:270-281 | if no frame advances the camera by more than 20000, every tree stays within 20000 ahead of the camera, frame after frame |
| World.StartUpRun | game.js:58-281 | from start-up, under such a clock, the pool keeps its shape and no tree is ever left behind the camera |
| World.World.constructor | game.js:58-67 | the tree array is the start-up pool, the camera is at 0 and no timestamp is recorded |
| World.World.Tick | game.js:270-281 | dt, the new position and the in-place tree loop give exactly the next state of `World.Step`, and the pool shape is kept |
| Player.ClampX | game.js:260-265 | the clamped x lies in [175, 1105] and an x already in range is unchanged |
| Player.Steer | game.js:244-257 | the straight image shows exactly when neither side is held, and then x is unchanged; the left image shows exactly when a left key is held |
| Player.ClampBounds | game.js:261-262 | the bounds are 175 and 1105 |
| Player.ClampIdempotent | game.js:260-265 | clamping twice is clamping once |
| Player.ClampIsNearest | game.js:260-265 | the clamp picks the allowed x nearest to the input and preserves order |
| Player.SteerFollowsKeys | game.js:244-257 | left wins when both sides are held; the straight image shows exactly when neither is held, and then x is unchanged; otherwise x moves 480·dt toward the side shown |
| Player.CarSprite | game.js:230-236 | one sprite when the image has loaded and none otherwise, showing the current image, centred on x, with its bottom 20 pixels above the canvas bottom |
| Player.ClampedCarOnCanvas | game.js:230-236 | a car drawn at a clamped x lies entirely on the 1280×720 canvas |
| Player.Car.constructor | game.js:40-52 | the car starts at x 640 showing the straight image |
| Player.Car.HandleInput | game.js:244-257 | the new x and image are those of `Player.Steer` for the held keys |
| Player.Car.ClampPosition | game.js:260-265 | x becomes its clamp, in [175, 1105], and the image is kept |
| Player.Car.DrawCar | game.js:230-236 | the car is drawn centred on x, 20 pixels above the bottom, only once its image has loaded |
| Game.Background | game.js:157-163 | two rectangles, sky then grass, meeting at the canvas's middle line y 360 |
| Game.BackgroundTilesCanvas | game.js:157-163 | sky and grass span the full width and meet at the middle line, covering the canvas |
| Game.Frame | game.js:270-293 | the world takes exactly one `World.Step`. The canvas gets clear, background, trees ahead in sort order, road and car, in that order; the car is drawn on the canvas and then steered by the held keys |
| Game.FrameDrawsTreesAhead | game.js:190-226 | whatever order the sort picks, a frame draws exactly the placements of the pool trees ahead of the camera |

## Left out

- Canvas resizing and CSS sizing (game.js:8-26) are DOM plumbing. The canvas is always 1280×720, as `resizeCanvas` sets it.
- Image loading is a parameter. `carReady` stands for `currentCarImage.complete`. A tree image's width depends on the bitmap's aspect ratio, so `TreeImage` records only the centre, base and height.
- Keyboard listeners are left out. `Frame` takes the set of keys held at that moment.
- `requestAnimationFrame` is left out. `Frame` models one call with its timestamp as a parameter.
- The sort algorithm is left out (the browser's `Array.prototype.sort`, including stability). Only the comparator is modelled and proved about.
- Game.Frame: the order drawTrees' sort produces is a parameter. The contract allows any permutation of the pool, not only one the comparator would produce. Which images are drawn does not depend on the order (`Game.FrameDrawsTreesAhead`). Only the painting order would.
- IEEE-754 rounding, `Infinity` and `NaN` are left out: numbers are exact reals.
- `ctx.setLineDash([])` (game.js:153) is left out. It has no effect on filled paths.
- `frame`'s `!lastTime` test is modelled as it is written. It is also true when the previous timestamp was 0, so dt is 0 for the frame after one stamped 0.
- Scenery.PlaceTree, Scenery.DrawTrees: the model uses the corrected skip test (dz <= 0). The as-written test is kept as `Scenery.DrawnAsWritten`; see Findings.

## Findings

| source | as written | input that shows it | evidently intended | confidence | as-written member | corrected member |
|---|---|---|---|---|---|---|
| game.js:209-212 | drawTrees skips a tree only when `dz < 0`, then divides CAMERA_DEPTH by dz | first frame: camera at 0, dt 0, tree 0 of the pool at z 0, so dz = 0 and the scale is 40/0 | skip trees with dz <= 0, the test the comparator uses at game.js:196 | high (not executed) | Scenery.AsWrittenDrawsTreeAtCamera | Scenery.PlaceTreeAgreesWithComparator |
