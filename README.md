# Road generation over a density raster

This project models the road generator of a small WebGL city-generation demo.

A `RoadMap` keeps a copy of an RGBA raster that was captured from the screen. In that raster, channel 1 is "land" and channel 2 is "water / population density". The map seeds a stack of turtles and runs the highway pass. For 101 iterations, the pass does this:

1. It pops a turtle.
2. It builds two candidate turtles on copies of the turtle's position, draws two random angles, turns and moves each candidate, and samples the density where each one lands.
3. It turns the turtle by the angle whose probe read strictly denser. Otherwise it uses the second angle.
4. It lays one edge of fixed width one step ahead, and records an intersection at the edge's end and the edge's transform.
5. It moves the turtle onto that end and pushes the turtle back.

The grid pass is an empty loop. The application flattens the transforms into four column buffers and one colour buffer for instanced drawing. On each frame it regenerates nothing: when the "Highway_Branches" control changes, it resets the map, sets the branching factor and reloads an empty scene.

## How it is modelled

Some objects are updated in place, and others hold references to them, so those objects are Dafny classes:

- `Turtles.Vec3` and `Turtles.Quat` are gl-matrix `vec3` and `quat`.
- `Turtles.Turtle` holds its position and orientation objects by reference.
- `RoadMaps.Edge` and `RoadMaps.Intersection` hold `vec3` objects by reference.
- `RoadMaps.RoadMap` has the stack, the four growing collections, the raster as an `array<byte>` and the branching factor.
- `Scene.App` has the frame loop's remembered branch value and the last loaded scene.

Three aliasings of the source are kept, and the contracts state them:

- Both candidates and the popped turtle share one orientation object. So an iteration leaves it as `q · R(rot1) · R(rot2) · R(chosen)`.
- Every highway edge starts at the walking turtle's own position object. So does the intersection recorded when that turtle was seeded. All of them follow the turtle as it moves.
- Each new edge end and intersection is a fresh object.

Orientations are words of Euler rotations: the identity, multiplied on the right by each `fromEuler`. gl-matrix's numeric functions are the fields of a `GlMatrix.Library` value, so every property holds whatever those functions compute.

The highway pass is also described on values:

- `Highway.Walk` and `Highway.Trail` give the pose after k iterations.
- They take the choice rule as a parameter.
- `RoadMap.Rule()` is the rule on the map's own raster.

The constructor's contract ties the finished map to this walk. There is one edge, one transform and one intersection per step of the trail. Every edge starts at the walking turtle's position object. The two other seed turtles and the root turtle are never moved or turned.

A raster read outside the buffer is JavaScript's `undefined`, modelled as `None`. `Raster.JsGreater` is the source's `>`, which is false when either side is `undefined`.

Random draws are parameters: `rx, ry` for the root turtle and `draws` for the highway pass, two per iteration.

In these places the source behaves as follows, and so does the model:

- An edge does not copy its endpoints. Its start is the walking turtle's live position object.
- `reset` does not reseed or regenerate. It leaves the stack empty and places a new root turtle without pushing it.
- A random angle lies in [-50, 100): `Math.random()` is below 1.
- The raster's width and height are never assigned. The model takes them as constructor parameters. "## Findings" models the code as written.

## Model

| member | source | states |
|---|---|---|
| Turtles.Turtle.constructor | src/Turtle.ts:8-12 | the turtle keeps the very position and orientation objects it is given, with no copy; its up axis is the constant (0, 1, 0, 1) |
| Turtles.Turtle.MoveForward | src/Turtle.ts:14-23 | the position object becomes old position + distance × forward(orientation, up), updated in place; the orientation object is unchanged |
| Turtles.Turtle.Rotate | src/Turtle.ts:25-31 | the orientation object becomes its old word multiplied on the right by fromEuler(x, y, z); the position object is unchanged |
| Turtles.Turtle.GetTransformMatrix | src/Turtle.ts:33-47 | returns translate(position) · (fromQuat(orientation) · scale(0.5, 0.9, 0.5)) and changes nothing |
| GlMatrix.Midpoint | src/RoadMap.ts:223-226 | the edge's translation is the point halfway between start and end: it is as far from start as end is from it |
| RoadMaps.Edge.constructor | src/RoadMap.ts:203-207 | the edge holds the given start and end objects themselves, and the width |
| RoadMaps.Edge.Transformation | src/RoadMap.ts:209-233 | the transform is the aligned transform of end − start, centred on the midpoint, scaled to (width, length, 1), at the current coordinates of both objects |
| RoadMaps.Intersection.constructor | src/RoadMap.ts:236-242 | the intersection holds the given position object itself |
| RoadMaps.RoadMap.constructor | src/RoadMap.ts:20-38 | the raster is a fresh byte-for-byte copy; branches is 2. There are 101 edges, 101 highway edges and 101 transforms. The stack holds the root turtle at (2rx − 1, 2ry − 1, 0) with the identity orientation, then the three seed turtles. There are 4 + 101 intersections: the first four are the seed turtles' own position objects. The edges and transforms are one per step of the 101-step walk from (0, 0.1, 0) under the map's own density rule. The two other seeds stay where they were placed, with the identity orientation |
| RoadMaps.RoadMap.CopyOf | src/RoadMap.ts:21-24 | the copy loop gives a fresh array with the same bytes in the same order |
| RoadMaps.RoadMap.Generate | src/RoadMap.ts:34-37 | the highway pass and then the grid pass leave the root and its intersection in place, add the three seeds, and grow the map along the walk; the raster and branches are unchanged |
| RoadMaps.RoadMap.NewTurtle | src/RoadMap.ts:114-116 | a turtle on a fresh vec3 at the given point and a fresh identity quaternion |
| RoadMaps.RoadMap.DrawHighways | src/RoadMap.ts:41-80 | seeding adds three turtles and three intersections on top of what was there. Then the walking turtle, which is the last seed, has laid one edge, one transform and one intersection for each of the 101 steps of the trail, and stands at the trail's last pose. The earlier edges, transforms, intersections and stack entries are kept as a prefix |
| RoadMaps.RoadMap.Loop | src/RoadMap.ts:45-79 | the loop runs exactly 101 bodies and always ends by its count. The stack is the same sequence of turtles afterwards, so it never empties. Only the top turtle's two objects are changed, and after k bodies the map holds k edges of the walk |
| RoadMaps.RoadMap.Iteration | src/RoadMap.ts:51-78 | one body pops the top turtle, draws its two angles from the next two draws, turns it, lays the walk's next edge and pushes the same turtle back |
| RoadMaps.RoadMap.Advance | src/RoadMap.ts:60-76 | turning and then adding the edge take the walk from step k to step k + 1 |
| RoadMaps.RoadMap.Turn | src/RoadMap.ts:54-72 | the shared orientation object gains exactly three rotations: rot1, then rot2, then the angle the density rule commits. The turtle's position does not move |
| RoadMaps.RoadMap.Probe | src/RoadMap.ts:54-66 | a candidate turns the shared orientation by rot and returns the density one step ahead of the unmoved position, along the turned orientation |
| RoadMaps.RoadMap.Candidate | src/RoadMap.ts:54-55 | a candidate has a fresh copy of the turtle's position and the turtle's own orientation object |
| RoadMaps.RoadMap.AddHighwayEdge | src/RoadMap.ts:82-95 | one new edge of width 0.01 is appended to edges and highwayEdges. It starts at the turtle's own position object and ends at a fresh point one step ahead. One intersection is appended at a fresh (end.x, end.y, 0), and one transform computed before the turtle moves. The turtle then stands on the edge's end. Nothing else is appended |
| RoadMaps.RoadMap.Lay | src/RoadMap.ts:82-95 | after the turn of step k, adding the edge extends the laid walk from k to k + 1 edges, intersections and transforms, and puts the turtle on the trail's pose k + 1 |
| RoadMaps.RoadMap.InitialTurtles | src/RoadMap.ts:113-126 | pushes three fresh turtles at (0.5, 2, 0), (−1, 1, 0) and (0, 0.1, 0) with identity orientations. It records three intersections that hold those turtles' position objects themselves. Nothing else changes |
| RoadMaps.RoadMap.GetPopDensity | src/RoadMap.ts:152-157 | a value exactly when the index of channel 2 under the position is inside the raster, and then it is that byte |
| RoadMaps.RoadMap.InWater | src/RoadMap.ts:138-149 | true exactly when both channel indices are inside the raster and channel 2 is strictly above channel 1 |
| RoadMaps.RoadMap.IntersectionTest | src/RoadMap.ts:161-181 | no intersection exactly when the line solution is none; otherwise a fresh intersection on a fresh vec3 at the solved point |
| RoadMaps.RoadMap.SetBranches | src/RoadMap.ts:183-185 | only the branching factor changes, to the given value |
| RoadMaps.RoadMap.Reset | src/RoadMap.ts:187-194 | the four collections and the stack become empty. A fresh turtle is placed at (2rx − 1, 2ry − 1, 0) with the identity orientation; it is not pushed or recorded. The raster and branches stay |
| Highway.RandomAngle | src/RoadMap.ts:128-130 | a draw in [0, 1) gives an angle in [−50, 100) |
| Highway.Trail | src/RoadMap.ts:45-79 | the trail of k steps has k + 1 poses, starts at the start pose and ends at the walk's pose after k steps |
| Highway.TrailStep | src/RoadMap.ts:45-79 | every pose of a trail is the walk's pose at its index, and the next pose is one iteration after it |
| Highway.TrailFollows | src/RoadMap.ts:45-79 | the trail of a whole pass has 102 poses and each one is one iteration after the one before it, under the same rule and draws |
| Highway.ChosenIsFirstIff | src/RoadMap.ts:68-72 | the committed angle is rot1 or rot2. It is rot1 exactly when the first probe reads strictly denser than the second, or when both angles are equal. So a tie or a missing read commits rot2 |
| Highway.ChosenProbeIsDensest | src/RoadMap.ts:62-72 | when both probes read the raster, the committed angle's probe is at least as dense as the other one |
| Highway.ProbeChoiceIsADraw | src/RoadMap.ts:57-72 | every angle the rule commits is one of the two drawn |
| Highway.WalkLength | src/RoadMap.ts:60-71 | each iteration adds exactly three factors to the walking turtle's orientation word |
| Highway.WalkPrefix | src/RoadMap.ts:60-71 | rotations are never undone: an earlier orientation word is a prefix of every later one |
| Highway.WalkOrientation | src/RoadMap.ts:54-71 | after k iterations, the orientation is the start's word followed by one block per iteration: [R(rot1), R(rot2), R(chosen)] for iteration i, taken at the pose after i iterations |
| Highway.WalkAnglesInRange | src/RoadMap.ts:57-72 | starting from the identity, with draws in [0, 1) and a rule that commits a drawn angle, every factor rotates about x only, by an angle in [−50, 100) |
| Highway.UnsetDimensionsTakeSecond | src/RoadMap.ts:152-157 | with the width and height never assigned, every iteration commits rot2 |
| Highway.UnsetDimensionsWalkIgnoresRaster | src/RoadMap.ts:45-79 | with the width and height never assigned, the whole walk is the one that always takes the second angle, for every raster |
| Raster.Read | src/RoadMap.ts:155 | a typed-array read gives a byte in [0, 256) exactly when the index is inside the buffer, and undefined otherwise |
| Raster.PixelInRange | src/RoadMap.ts:153-154 | a coordinate in [−1, 1) falls on a pixel of a non-empty dimension |
| Raster.IndexInBounds | src/RoadMap.ts:155 | for 0 ≤ x < width and 0 ≤ y < height, every channel index 4x + 4yw + c lies below 4 · width · height |
| Raster.InSquareReadsPixel | src/RoadMap.ts:138-157 | for a full-size buffer, a position in the [−1, 1) square always reads a pixel. The density is its channel 2, and inWater is channel 2 > channel 1 at that pixel |
| Raster.MissingReadIsNotGreater | src/RoadMap.ts:68 | when either read is undefined, neither comparison holds |
| Raster.ReadAsWritten | src/RoadMap.ts:155 | an index that is NaN reads undefined |
| Raster.UnsetDimensionsReadNothing | src/RoadMap.ts:152-157 | with the width and height unassigned, every density read is undefined |
| Raster.AssignedDimensionsReadDensity | src/RoadMap.ts:152-157 | with both dimensions assigned, the read over JavaScript numbers is exactly the density read |
| LineIntersection.LineThroughEndpoints | src/RoadMap.ts:166-171 | both endpoints of an edge lie on the line A·x + B·y = C computed for it |
| LineIntersection.CramerSolves | src/RoadMap.ts:172-177 | when the determinant is not zero, Cramer's rule gives a point on both lines |
| LineIntersection.Solve | src/RoadMap.ts:172-180 | none exactly when the determinant's magnitude is below 0.001; otherwise a point with z = 0 on both lines |
| LineIntersection.SolveAt | src/RoadMap.ts:176-177 | any x, y that satisfy Cramer's equations are exactly what the solver returns |
| LineIntersection.IntersectionIsUnique | src/RoadMap.ts:161-181 | when a point is returned, it is the only point common to both lines |
| LineIntersection.IntersectionTestSymmetric | src/RoadMap.ts:161-181 | testing e against f and f against e gives the same result |
| LineIntersection.DiagonalsMeetAtCentre | src/RoadMap.ts:161-181 | (0,0)–(1,1) against (0,1)–(1,0) gives (0.5, 0.5, 0) |
| LineIntersection.ParallelEdgesGiveNothing | src/RoadMap.ts:173-174 | (0,0)–(1,0) against (0,1)–(1,1) gives no intersection |
| LineIntersection.DisjointSegmentsStillMeet | src/RoadMap.ts:161-181 | segments that do not touch still give the point where their lines cross: the test has no bounds check |
| Scene.ColumnLength | src/main.ts:41-63 | each column buffer holds exactly 4n numbers for n transforms |
| Scene.ColumnSlot | src/main.ts:41-63 | slot 4i + j of column k holds entry 4k + j of transform i |
| Scene.ColorsLength | src/main.ts:65-68 | the colour buffer holds 4n numbers |
| Scene.ColorsSlot | src/main.ts:65-68 | every block of four in the colour buffer is (0, 0, 0, 1) |
| Scene.FlattenRoundTrip | src/main.ts:41-78 | all five buffers hold 4n numbers and the count is n. Instance i, read back from slots 4i .. 4i + 3 of the four columns, is transform i again, so emission order is kept |
| Scene.LoadScene | src/main.ts:29-79 | the loop's buffers and count are exactly the flattening of the map's transforms |
| Scene.App.constructor | src/main.ts:185-196 | the roads are built from a copy of the raster with its width and height and branching factor 2. The scene is loaded from their transforms and holds 101 instances. No branch value is remembered yet |
| Scene.App.Tick | src/main.ts:224-229 | the control's value is remembered afterwards. When it differs from the remembered one (always on the first tick), the roads are reset and given that branching factor: edges, highwayEdges, intersections, transforms and the stack are empty, the map's invariant holds, and a fresh turtle stands at (2rx − 1, 2ry − 1, 0) with the identity orientation. The scene is reloaded with zero instances, because reset does not regenerate. Otherwise nothing changes |

## Left out

- The numeric gl-matrix functions are the fields of a `Library` value and are not modelled: `fromEuler`, `quat.multiply`, `fromQuat`, `transformMat4`, `vec3.length`, `acos`, `setAxisAngle` and `fromRotationTranslationScale`. No property depends on what they compute.
- Single- and double-precision rounding is not modelled. Positions, densities and intersection points are `real`. The `Float32Array` copies of the scene buffers are also left out.
- `Math.random` draws are parameters. `console.log`, WebGL, the shaders, the camera, the GUI and `readPixels` are I/O and are left out. The raster reaches `App` as an already-read byte array.
- The `roadStack` field and the `direction` field of `Edge` are declared but never used, so they are not modelled.
- `RoadMaps.RoadMap.DrawGrids`: the source's loop over the highway edges has an empty body. The method is modelled as doing nothing and has no contract beyond changing nothing.
- `getTransforms` is the field read `GetTransforms()`, which `Scene.LoadScene` calls.
- The `return` that leaves the highway loop at `count > 100` is modelled as leaving the loop. Nothing follows the loop in that method.
- The source builds both candidate turtles before turning either. The model builds each one just before it is used. Building a candidate only copies a position that nothing has moved yet, so the two orders cannot be told apart.
- `RoadMaps.RoadMap.constructor` takes the raster's width and height as parameters. The source never assigns them; see "## Findings".
- The branching factor is stored but never read during generation, as in the source. No branching is modelled.

## Findings

| source | as written | input that shows it | evidently intended | confidence | as-written member | corrected member |
|---|---|---|---|---|---|---|
| src/RoadMap.ts:152-157 | `width` and `height` are declared (lines 9-10) and never assigned, so the pixel arithmetic is NaN, every density read is `undefined`, `popDens1 > popDens2` is always false and every iteration commits the second angle | any raster and any draws: the walk equals the one that always takes rot2 | the dimensions of the captured raster (the screen size, as at src/main.ts:185), so that the density steers the highway | not executed | Highway.UnsetDimensionsWalkIgnoresRaster | Raster.InSquareReadsPixel |
