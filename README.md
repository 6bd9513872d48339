# Spin the bottle — a Dafny model of the scene viewer's buffer layout and frame state

The viewer draws a wine bottle, three cats, a heart with two wings and a
ground grid with WebGL. All vertex data goes into one buffer: the position
lists of the meshes one after another, then their colour lists in the same
order. The colour attribute points into that buffer at a byte offset that
is 4 times the number of position floats. Each mesh is drawn from a range
of that buffer given as (first vertex, vertex count). A starter version
draws one bottle and the grid the same way.

The model has four modules:

- `Colors` (colors.dfy) covers `buildColorAttributes`. Its loop over the
  triangles of a mesh pushes one RGB triple per vertex. In the full viewer
  three flag parameters choose a colouring policy, in a fixed priority: a red
  bottle, a grey gradient, a calico palette drawn at random, a warm
  gradient, or a rosy heart. In the starter the only policy is a blue
  gradient. Math.random becomes an injected list of draws, and only the
  calico policy reads it.
- `Grid` (grid.dfy) covers `buildGridAttributes`. It emits row segments,
  then column segments, over [-1000, 1000]² on the y = 0 plane, and one
  copy of the grid colour per vertex.
- `Layout` (layout.dfy) covers the rest of the buffer:
  - The concatenation in `startRendering` and the colour byte offset.
  - The draw ranges in `draw()`.
  - An offset table: each mesh's range starts where the previous one ends.
    The hand-written `drawArrays` expressions are proved to be exactly this
    table.
  - The aliasing of meshes: one cat list is drawn three times and one wing
    list twice. The wing's single colour list is built for twice the wing's
    vertex count and covers both wings.
- `Animation` (animation.dfy) covers the per-frame state:
  - The frame clock and its `deltaTime`.
  - The bottle's spin.
  - The wing-flap oscillator, in half-degree steps.
  - The wing angles.
  - The camera-switch and spin-stop toggles, the sliders, and the choice
    between orthographic and perspective projection.

Numbers are exact reals and integers. The JavaScript code computes in
doubles and uploads Float32 values.

## Model

| member | source | states |
|---|---|---|
| Colors.PolicyOf | project1.js:425-438 | isBottle beats every other flag. Cats 1, 2 and 3 beat isHeart. The heart policy applies exactly when no cat 1-3 and no bottle is flagged but isHeart is. Nothing is painted exactly when no flag applies. |
| Colors.Triangles | project1.js:421 | The loop `i < vertex_count / 3` runs the fewest times that cover all n vertices: n <= 3t, and the last iteration still satisfies 3(t-1) < n. |
| Colors.Shade | project1.js:424 | The shade 3i/n of any triangle the loop visits lies in [0, 1). |
| Colors.CalicoColor | project1.js:428-435 | The calico colour is one of white, black or orange. It is white exactly when the draw is below 0.33. |
| Colors.BuildColorAttributes | project1.js:419-442 | The pushed list equals the specification list of the chosen policy. Its length is 9 floats per loop iteration, or 0 when no flag applies. |
| Colors.BuildBlueGradient | project1starter/project1starter.js:165-176 | The starter's list equals the blue-gradient specification list. It holds 9 floats per iteration, so 3n when 3 divides n. Vertex k is (shade, shade, 1.0) with the shade of its triangle k/3. |
| Colors.ColorListLength | project1.js:421-423 | A painted list has 9·ceil(n/3) floats, which is 3n when 3 divides n. An unpainted list is empty. |
| Colors.ColorPrefixAt | project1.js:421-438 | After t iterations, vertex 3i+u holds the policy's colour for triangle i's shade and draw number 3i+u. |
| Colors.ColorListAt | project1.js:421-438 | Vertex k of the whole list holds the policy's colour for the shade of triangle k/3, using draw k. |
| Colors.FlatPerTriangle | project1.js:424-426 | For every policy except calico, all three vertices of triangle i carry the same colour, computed from shade 3i/n. |
| Colors.CalicoPalette | project1.js:427-436 | Every calico vertex is the palette colour of its own draw, and so is white, black or orange. |
| Colors.CalicoNotPerTriangle | project1.js:427-436 | The calico policy picks per vertex, not per triangle: draws 0.1, 0.5, 0.9 colour one triangle white, black and orange. |
| Colors.ShadeMonotone | project1starter/project1starter.js:169-171 | The gradient shade never decreases from one triangle to the next. |
| Colors.UnitCubeExceptWarm | project1.js:425-438 | The red, grey, calico, rosy and blue policies give components in [0, 1] for any shade in [0, 1). |
| Colors.WarmRedExceedsOne | project1.js:437 | The warm cat's red channel 0.8·shade + 0.3 exceeds 1 near the end of a mesh, for example at vertex 27 of 30. |
| Colors.GreyShadesOfNine | project1.js:426 | A 9-vertex grey list shades its triangles 0, 1/3 and 2/3. |
| Grid.BuildGridAttributes | project1.js:522-549 | The mesh equals the row segments followed by the column segments. It holds whole vertices. The colour list has one grid-colour triple per vertex, so it is as long as the mesh. The starter's copy (project1starter/project1starter.js:191-218) is the same code. |
| Grid.LineCountIsCeiling | project1.js:527 | A `for (x = from; x < bound; x += s)` loop emits ceil((bound - from)/s) lines: the last emitted x is below the bound, and one more step would not be. |
| Grid.UnitLineCount | project1.js:535 | With spacing 1 the loop emits bound - from lines. |
| Grid.GridMeshLength | project1.js:527-540 | The mesh holds 6 floats per row and per column. With spacing 1 that is 8000 vertices. |
| Grid.GridMeshRowAt | project1.js:527-532 | Row j is the segment from (-1000 + j·s, 0, -1000) to (-1000 + j·s, 0, 1000), at vertices 2j and 2j+1. |
| Grid.GridMeshColumnAt | project1.js:535-540 | Column j comes after all rows. It is the segment from (-1000, 0, -1000 + j·s) to (1000, 0, -1000 + j·s). |
| Grid.RepeatAt | project1.js:544-546 | The colour list has 3 floats per vertex, and every triple is the grid colour. |
| Layout.OffsetAt | project1.js:379-414 | Mesh k's range starts at the number of vertices before it and spans its own vertex count. |
| Layout.OffsetTableStarts | project1.js:379-414 | Every range starts at the vertex count of the meshes before it. The table ends at the total vertex count. |
| Layout.OffsetTableContiguous | project1.js:379-414 | The first range starts at 0, and each range ends where the next begins. |
| Layout.SameShapeSameTable | project1.js:207 | Two lists of arrays with pairwise equal lengths have the same offset table and the same total length. |
| Layout.ConcatLength | project1.js:207 | The concatenated buffer is as long as all its parts together. |
| Layout.ConcatAt | project1.js:207 | Float i of part k sits in the buffer after all floats of the parts before it. |
| Layout.VertexAtOffset | project1.js:207 | Vertex v of part k is vertex first(k) + v of the buffer. |
| Layout.BlocksLineUp | project1.js:207 | When the position and colour lists have pairwise equal lengths, vertex first(k) + v of each block is vertex v of mesh k. |
| Layout.ColorListsFit | project1.js:201-206 | Each colour list is as long as its mesh's positions. The single wing list is as long as both wings together. |
| Layout.ColorListsMatchMeshes | project1.js:201-207 | Splitting the wing list in halves gives one colour list per drawn mesh, each as long as that mesh. |
| Layout.ColorBlockSplitsWing | project1.js:206-207 | Splitting the wing list leaves the uploaded colour block unchanged. |
| Layout.ColorBlockMatchesPositions | project1.js:201-207 | The colour block is exactly as long as the position block. |
| Layout.PositionLinesUp | project1.js:207 | For each drawn mesh, vertex first(k) + v of the position block is mesh k's v-th vertex. |
| Layout.ColorLinesUp | project1.js:201-207 | The colour lists match the drawn meshes in length. The colour of mesh k's v-th vertex sits at vertex first(k) + v of the colour block, the same index as its position. |
| Layout.DrawOrderWhole | project1.js:174-184 | With one cat and one wing list reused, every drawn mesh holds whole vertices. |
| Layout.Project1OffsetTable | project1.js:379-414 | For the bottle, three cats, the heart, two wings and the grid, the offset table has the eight ranges in that order. |
| Layout.DrawCallsMatchRanges | project1.js:379-414 | The models' float counts are whole triangles and the grid's are whole vertices. Under that condition, each of the eight real-division `drawArrays` expressions equals the matching integer range, and the grid's range ends at the total vertex count. |
| Layout.DrawMatchesOffsetTable | project1.js:379-414 | The eight drawArrays calls, with their own real-division expressions, equal the offset-table ranges: triangles for the models, lines for the grid. The grid's range ends at the total vertex count. |
| Layout.StartRendering | project1.js:190-220 | The buffer is the positions followed by the colours. The colour block is as long as the position block. The colour byte offset is 4 times the number of position floats, and the colours start at that float index. |
| Layout.StarterDrawMatchesOffsetTable | project1starter/project1starter.js:151-160 | The bottle is drawn over [0, b/3) and the grid over [b/3, b/3 + g/3), which is the offset table of [bottle, grid]. |
| Layout.StarterStartRendering | project1starter/project1starter.js:74-96 | The buffer is bottle, grid, bottle colours, grid colours. The offset (bottle + grid)·4 is where the bottle's colours begin. Each colour list is as long as its mesh. |
| Animation.FrameClock.constructor | project1starter/project1starter.js:114 | The clock starts at the given timestamp. |
| Animation.FrameClock.Tick | project1starter/project1starter.js:127-130 | deltaTime is now minus the previous frame's timestamp, and now becomes the previous frame. |
| Animation.FrameClock.RunFrames | project1starter/project1starter.js:123-138 | A chain of frames reports the deltas of Deltas and ends at the last timestamp. |
| Animation.DeltasTelescope | project1starter/project1starter.js:128-130 | Over any run of frames the deltaTimes add up to the last timestamp minus the starting one. |
| Animation.SpinTotalIsScaledSum | project1starter/project1starter.js:133-134 | The spin added over a run of frames is the speed times the sum of the deltas. |
| Animation.DeltasStep | project1starter/project1starter.js:128-134 | One more frame appends its deltaTime to the run's deltas and adds speed × that delta to the accumulated spin. |
| Animation.SpinDependsOnElapsedTime | project1starter/project1starter.js:133-134 | For a bottle that always spins, as the starter's does, the total rotation is the speed times the elapsed time, however the frames fall. |
| Animation.StarterScene.constructor | project1starter/project1starter.js:114 | The starter's clock starts at the given timestamp, with the bottle unrotated. |
| Animation.StarterScene.Tick | project1starter/project1starter.js:123-134 | A frame takes deltaTime from the clock and always turns the bottle by 0.05·deltaTime degrees. |
| Animation.StarterScene.RunFrames | project1starter/project1starter.js:123-138 | A chain of frames turns the bottle by SpinTotal at 0.05 over the run's deltas, which is 0.05 times the time elapsed. |
| Animation.FlapStep | project1.js:330-333 | A tick moves the angle one half-degree step in the current direction. The direction turns exactly when the new angle reaches ±25 degrees. A valid state stays valid: within ±25 degrees, and pointing inward at either bound. |
| Animation.FlapAfterValid | project1.js:330-333 | From a valid state, every later state is valid. |
| Animation.FlapAfterSum | project1.js:330-333 | m ticks followed by n ticks are m + n ticks. |
| Animation.SweepUp | project1.js:330-333 | From -25 degrees moving up, the angle rises half a degree per tick and turns back at +25 degrees on tick 100. |
| Animation.SweepDown | project1.js:330-333 | The same sweep from +25 degrees downward. |
| Animation.FiftyTicks | project1.js:310-333 | From angle 0 moving up, tick k < 50 leaves k half-degrees moving up. Tick 50 leaves 25 degrees with the direction already turned down. |
| Animation.FlapPeriod | project1.js:310-333 | The flap repeats every 200 ticks. |
| Animation.WingRotations | project1.js:341-349 | The two wings' y-rotations add to -180 degrees, mirroring each other, and differ by the flap angle minus 140. For a valid flap they stay within [-45, 5] and [-185, -135]. |
| Animation.Scene.constructor | project1.js:282-301 | The scene starts with the orthographic camera, spin on, and flap 0 moving up. The box is left -1, right 1, bottom -1, top 1, near 0.8, far 4, with fovy 90, aspect 1, camera x 0 and heart height 50. |
| Animation.Scene.Tick | project1.js:315-333 | A frame takes its deltaTime from the clock. It turns the bottle by 0.15·deltaTime degrees only while spinning, and steps the flap. The camera, spin switch and sliders are unchanged. The scene stays valid. |
| Animation.Scene.RunFrames | project1.js:315-353 | While the spin switch is not toggled, a chain of frames turns the bottle by SpinTotal at 0.15 over the run's deltas (0.15 times the elapsed time) if it spins, and not at all if it is stopped. Each frame steps the flap once. Camera, switch and sliders are unchanged. |
| Animation.Scene.SwitchCamera | project1.js:137-140 | The camera type flips between 0 and 1, so the active projection changes kind. Nothing else changes. |
| Animation.Scene.ToggleSpin | project1.js:142-146 | The spin flag is negated. Nothing else changes. |
| Animation.Scene.Update | project1.js:445-507 | A slider stores its number in its own parameter. Every other parameter and the animation state are unchanged. |
| Animation.Scene.ActiveProjection | project1.js:359-364 | The projection is orthographic exactly when the camera type is 0, using the left/right/bottom/top/near/far parameters. Otherwise it is a perspective projection from fovy, aspect, near and far. |

## Left out

- `readObjFile`, the OBJ parser, is not part of this model. Mesh position lists are inputs.
- Layout.StartRendering: requires each model's float count to be a multiple of 9, meaning whole triangles. The parser that produces the lists is not modelled, so nothing here can establish this.
- Grid.BuildGridAttributes: spacings must be positive integers. The viewers only pass 1. A spacing of 0 or less never ends the JavaScript loop. A fractional spacing would accumulate floating-point error.
- These WebGL calls are left out: `initShaders`, `initVBO`, `setupVec3`, the uniform uploads, clearing, culling, depth test, and the early returns when one of them fails. Only the numbers passed to `drawArrays` and `vertexAttribPointer` are modelled.
- `Matrix4` (scale, translate, rotate, concat, ortho, perspective) belongs to an external matrix library. The model keeps the numbers given to it:
  - the projection parameters;
  - the wing rotations and the heart slider value;
  - the bottle's accumulated spin angle.
- Animation.Scene.Tick: the bottle's model matrix is represented by its accumulated angle about y. This relies on rotations about the same axis composing by adding their angles.
- The wing model matrices set up in `startRendering` (project1.js:261-269) are not modelled. The first tick replaces them before anything is drawn.
- `Date.now`, `Math.random`, `requestAnimationFrame` and `fetch` are parameters:
  - timestamps are arguments;
  - random numbers are a list of draws;
  - the frame chain is `RunFrames`.
- Float32 and double rounding are not modelled; the model uses exact reals. This covers 0.33, 0.66, 0.15·deltaTime and the real division in `i < vertex_count / 3`.
- The DOM wiring of sliders and buttons is left out, and so is the label formatting with `toFixed`. `Number(amount)` is taken as already a number.
- The heart's and wings' translation heights (`g_heart_y - 20` for the heart, `g_heart_y` for the wings, project1.js:336-348) are only arguments to `Matrix4.translate`. The model keeps the slider value `heartY` and not the derived heights.
- Colour bounds: the code does not keep every colour component within [0, 1]. The warm cat's red channel passes 1 (`WarmRedExceedsOne`). The model follows the code.
