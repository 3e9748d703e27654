# CSE-160 graphics assignments: a Dafny model of their core logic

The repository is a series of browser graphics assignments in JavaScript. This
project models the parts of it that are logic rather than WebGL or Three.js
calls, and proves what that logic promises:

- **The 2D painter** (asg1): the click handler that turns a mouse position into
  clip coordinates and appends one shape, the clear button, the sliders, the
  right-triangle vertex derivation and the flashing sun (`Painter`). The
  signed triangle area it shares with the triangle mesh is in `Geometry`.
- **The mesh generators**:
  - the constant triangle and cube tables and their validated setters
    (`TriangleMesh`, `CubeMesh`);
  - the once-only shared cube buffer of asg2 (`CubeBuffer`);
  - the array-filling circle fan (`CircleMesh`);
  - the latitude/longitude sphere with its 16-bit index buffer (`SphereMesh`).
- **The voxel world** (asg3, asg4):
  - a 32 x 32 integer height map raised by radial hill stamps (`Terrain`);
  - the rejection samplers that scatter pigs, cows and flowers over it, and the
    sphere list and day/night flag (`World`).
- **The first-person camera** (asg4): translation, the mouse-look latch and
  clamped pitch accumulator, the two-state jump, and the grid collision query
  (`FirstPersonCamera`).
- **The particle pool** (asg5): a ring buffer of 1000 slots in four typed arrays,
  written in bursts of 50 at a wrapping cursor and advanced per frame; also the
  animation-speed slider and the GUI parameter reset (`Particles`).

State that the source updates in place is modelled by classes:

- typed arrays that are filled by index become `array` fields (the circle,
  the particle pool), and the nested height-map array, whose cells are
  assigned by index, becomes an `array2`;
- lists that are pushed onto become `seq` fields.

Four kinds of outside input are parameters:

- `Math.random()` is an oracle (`Oracle.Random`): a fixed stream of draws with a
  cursor, so every operation is deterministic given the stream.
- `Math.sin` and `Math.cos` are uninterpreted functions (`Trigonometry.Trig`).
- `Vector3.normalize` and the `Matrix4` rotation are uninterpreted functions
  given to the camera.
- The result of `gl.createBuffer()` and the `setInterval` handle are plain
  arguments.

All arithmetic is exact: integers are unbounded and coordinates are reals.

`addHill` computes `Math.floor(height * (1 - distance / radius))` with a square
root. The model computes it with exact integers instead:

- `Terrain.HeightIncrease` is the largest k in [0, height] with
  height² · D <= (height - k)² · radius², where D = dx² + dz².
- `Terrain.IncreaseIsFloor` proves that this k is the floor of the real formula
  for the real square root of D.

JavaScript evaluates the formula in doubles, so the two could part at exact
boundaries where the double rounds across an integer.

## Model

| member | source | states |
|---|---|---|
| Vectors.AddLaws | asg4/camera.js:65-114 | the sum is commutative and associative with the zero vector as identity, so the order of camera moves does not matter |
| Vectors.Sub | asg4/camera.js:49-54 | the difference is what must be added to b to reach a |
| Vectors.MulLaws | asg4/camera.js:65-75 | scaling distributes over the factor (k·v + j·v = (k + j)·v), composes by multiplication, and multiplies the squared length by k² |
| Vectors.TranslationKeepsDifference | asg4/camera.js:65-114 | moving two points by the same offset keeps the vector between them |
| Vectors.SubThenAdd | asg4/camera.js:49-54 | subtracting a vector and adding it back is the identity |
| Vectors.CrossOrthogonal | asg4/camera.js:57-62 | the cross product used for the right vector is orthogonal to both factors |
| Vectors.OppositeMovesCancel | asg4/camera.js:65-88 | a forward move followed by a backward move returns to the start |
| Oracle.Scale | asg3/world.js:471-474 | `Math.floor(Math.random() * n)` always lies in [0, n) |
| Oracle.ScaleIsFloor | asg3/world.js:471-474 | the scaled draw is the unique integer k with k <= u·n / 2^53 < k + 1 |
| Oracle.Unit | asg5/main.js:753-755 | a draw of `Math.random()` lies in [0, 1) |
| Oracle.Random.constructor | asg5/main.js:753-755 | the source starts at the first draw of its stream |
| Oracle.Random.Next | asg5/main.js:753-755 | each call returns the next draw of the stream and consumes exactly one |
| Painter.ToGL | asg1/src/asg1.js:141-148 | a client point inside the canvas rectangle (edges included) maps into the clip square [-1, 1]², and only such points do; the left half maps to negative x and the lower half to negative y |
| Painter.EdgesAndCentre | asg1/src/asg1.js:141-148 | the canvas centre maps to (0, 0), the left/right edges to x = -1/1 and the top/bottom edges to y = 1/-1 |
| Painter.FromClientAndBack | asg1/src/asg1.js:141-148 | the conversion is onto: every clip point is reached by some client point |
| Painter.ToGLAndBack | asg1/src/asg1.js:141-148 | the conversion is one-to-one: the client point is recovered from its clip point |
| Painter.NewShape | asg1/src/asg1.js:150-167 | the shape has the selected kind, position, colour and size; only a circle takes the segment count; a new triangle is unflipped |
| Painter.TriangleVertices | asg1/src/asg1.js:240-246 | the three vertices as six coordinates, the layout `drawTriangle` reads; their shape is stated by the next two rows |
| Painter.TriangleShape | asg1/src/asg1.js:240-246 | the unflipped triangle has a right angle at the position, legs of size/200 along +x and +y, and runs counter-clockwise |
| Painter.FlippedTriangle | asg1/src/asg1.js:240-246 | the flipped triangle mirrors the unflipped one in the vertical line through the position and runs clockwise |
| Painter.AreaOfRightTriangle | asg1/src/asg1.js:240-246 | a triangle with axis-parallel legs a and b from its first vertex has signed double area a·b |
| Painter.SunVertices | asg1/src/asg1.js:318-344 | the fan is the centre followed by rim points 0 to 20, 22 points: the count passed to `drawArrays` |
| Painter.Toggle | asg1/src/asg1.js:309 | the new brightness is 1 or 0.5, and differs from a brightness that was already 1 or 0.5 |
| Painter.ToggleTwice | asg1/src/asg1.js:306-314 | a tick changes the brightness between 1 and 0.5, and two ticks restore it |
| Painter.Painter.constructor | asg1/src/asg1.js:38-44 | the initial selections: white, size 10, points, 8 segments, empty list, no sun timer, full brightness |
| Painter.Painter.Click | asg1/src/asg1.js:150-169 | exactly one shape is appended, built from the current selections at the converted position; earlier shapes are kept |
| Painter.Painter.Clear | asg1/src/asg1.js:97-105 | the list becomes empty and no sun timer remains |
| Painter.Painter.SetColorChannel | asg1/src/asg1.js:116-124 | only channel k of the selection changes, to value / 100; the drawn shapes are untouched |
| Painter.Painter.SetColor | asg1/src/asg1.js:95-96 | the button replaces the selection; drawn shapes are untouched |
| Painter.Painter.SetSize | asg1/src/asg1.js:127-129 | the slider value becomes the selected size |
| Painter.Painter.SetSegments | asg1/src/asg1.js:132-134 | the slider value becomes the circle segment count |
| Painter.Painter.SetType | asg1/src/asg1.js:106-109 | the button selects the shape kind |
| Painter.Painter.StartFlashingSun | asg1/src/asg1.js:306-314 | any running timer is replaced by the new one |
| Painter.Painter.SunTick | asg1/src/asg1.js:309 | the brightness flips and stays 1 or 0.5 |
| Painter.ColorIsCopied | asg1/src/asg1.js:164 | a slider edit after a click leaves the new shape with the colour selected at the click |
| TriangleMesh.DefaultShape | asg3/triangle.js:29-47 | 9 vertex values all with z = 0, counter-clockwise, and 6 UVs all in [0, 1] |
| TriangleMesh.DefaultUvsFollowPositions | asg3/triangle.js:29-47 | each default UV is its vertex's (x, y) moved by (0.5, 0.5) |
| TriangleMesh.Triangle.constructor | asg3/triangle.js:4-23 | white, solid colour (-2), both default tables |
| TriangleMesh.Triangle.GenerateVertices | asg3/triangle.js:29-37 | the vertices become the default table |
| TriangleMesh.Triangle.GenerateUVs | asg3/triangle.js:40-47 | the UVs become the default table |
| TriangleMesh.Triangle.SetVertices | asg3/triangle.js:101-107 | a 9-value array replaces the vertices; any other length leaves them as they were |
| TriangleMesh.Triangle.SetUVs | asg3/triangle.js:109-115 | a 6-value array replaces the UVs; any other length leaves them as they were |
| TriangleMesh.Triangle.DrawCount | asg3/triangle.js:94 | the 3 vertices drawn are every vertex and every UV pair of a valid triangle |
| CubeMesh.CubeVerticesShape | asg3/cube.js:34-61 | 108 values, that is 36 vertices, each coordinate ±0.5 |
| CubeMesh.CubeSideFaces | asg3/cube.js:37-47 | front face z = 0.5, left x = -0.5, right x = 0.5 |
| CubeMesh.CubeOtherFaces | asg3/cube.js:49-59 | top y = 0.5, back z = -0.5, bottom y = -0.5 |
| CubeMesh.CubeUvsShape | asg3/cube.js:67-94 | one UV pair per vertex, each coordinate 0 or 1 |
| CubeMesh.Cube.constructor | asg3/cube.js:4-23 | white, solid colour (-2), both tables loaded |
| CubeMesh.Cube.GenerateVertices | asg3/cube.js:34-61 | the vertices become the cube table |
| CubeMesh.Cube.GenerateUVs | asg3/cube.js:67-94 | the UVs become the cube table |
| CubeMesh.Cube.RenderCount | asg3/cube.js:141 | `vertices.length / 3` counts one per vertex, and for the cube table it equals `renderfaster`'s 36 (line 159) |
| CubeBuffer.VertsShape | asg2/src/cube.js:8-22 | 108 values, `cubeVCount` 36, every coordinate ±0.5 |
| CubeBuffer.VertsSideFaces | asg2/src/cube.js:9-14 | front z = 0.5, right x = 0.5, back z = -0.5 |
| CubeBuffer.VertsOtherFaces | asg2/src/cube.js:15-20 | left x = -0.5, top y = 0.5, bottom y = -0.5 |
| CubeBuffer.SharedCube.constructor | asg2/src/cube.js:3-4 | no buffer and a count of 0 before the first call, which satisfies the invariant (count 0 or 36, and 36 whenever a buffer is stored) |
| CubeBuffer.SharedCube.InitCubeVertexBuffer | asg2/src/cube.js:5-26 | with a buffer present nothing changes; otherwise the count becomes 36 and the created buffer is kept; the invariant is kept and the count is 36 afterwards |
| CubeBuffer.SharedCube.DrawCount | asg2/src/cube.js:35 | under the invariant `drawCube` never draws more than the 36 vertices of the table, and exactly those 36 once a buffer exists |
| CubeBuffer.InitTwice | asg2/src/cube.js:6 | a second initialisation keeps the first buffer and the count 36 |
| CircleMesh.FanTriangle | asg3/circle.js:41-67 | each triangle contributes nine values |
| CircleMesh.FanUv | asg3/circle.js:96-105 | each triangle contributes six texture coordinates |
| CircleMesh.RimShared | asg3/circle.js:41-42 | the second rim point of triangle i is the first rim point of triangle i + 1, in positions and in UVs |
| CircleMesh.UvFollowsPosition | asg3/circle.js:84-90 | each rim UV is its position divided by the radius, halved and moved to the texture centre |
| CircleMesh.FanStep | asg3/circle.js:55-67 | one loop iteration keeps the triangles already written and adds triangle i |
| CircleMesh.FanUvStep | asg3/circle.js:96-105 | one loop iteration keeps the UVs already written and adds those of triangle i |
| CircleMesh.Circle.constructor | asg3/circle.js:3-27 | white, solid colour, 36 segments of radius 0.5, both arrays filled |
| CircleMesh.Circle.GenerateVertices | asg3/circle.js:30-69 | a fresh array of 9 values per segment holding every fan triangle in order |
| CircleMesh.Circle.PutTriangle | asg3/circle.js:55-67 | the nine writes of one iteration put triangle i in place and keep the earlier ones |
| CircleMesh.Circle.GenerateUVs | asg3/circle.js:75-107 | a fresh array of 6 values per segment holding every triangle's UVs in order |
| CircleMesh.Circle.PutUvs | asg3/circle.js:96-105 | the six writes of one iteration put triangle i's UVs in place and keep the earlier ones |
| CircleMesh.Circle.SetSegments | asg3/circle.js:110-118 | below 3 nothing changes; otherwise the count is set and both arrays are regenerated for it |
| CircleMesh.Circle.SetRadius | asg3/circle.js:124-132 | a non-positive radius changes nothing; otherwise only the vertices are regenerated and the UVs kept |
| CircleMesh.Circle.DrawCount | asg3/circle.js:179 | `segments * 3` is one vertex per position triple and per UV pair |
| CircleMesh.FlatDisc | asg3/circle.js:55-67 | every vertex of a generated circle has z = 0 |
| CircleMesh.CentreFirst | asg3/circle.js:55-57 | every triangle starts at the origin with UV (0.5, 0.5) |
| CircleMesh.ArrayRimShared | asg3/circle.js:41-67 | neighbouring triangles share their rim point in the array itself |
| SphereMesh.VertexValues | asg4/sphere.js:52-70 | a vertex contributes three position, three normal or two UV values |
| SphereMesh.Chunk | asg4/sphere.js:41-72 | vertex k of the grid contributes the width of its buffer |
| SphereMesh.QuadAt | asg4/sphere.js:77-88 | each quad emits six indices |
| SphereMesh.Quad | asg4/sphere.js:75-90 | quad number q emits six indices |
| SphereMesh.ToUint16 | asg4/sphere.js:93-96 | `new Uint16Array` keeps the length and stores each index modulo 2^16 |
| SphereMesh.RowLength | asg4/sphere.js:46-71 | a partial row of c longitudes has width · c values |
| SphereMesh.RowsLength | asg4/sphere.js:41-72 | a latitudes of M + 1 vertices have width · a · (M + 1) values |
| SphereMesh.BufferLength | asg4/sphere.js:41-72 | positions and normals hold 3 (L+1)(M+1) values, UVs 2 (L+1)(M+1) |
| SphereMesh.RowAt | asg4/sphere.js:46-71 | value i of longitude c0 sits at width · c0 + i of its row |
| SphereMesh.RowsPrefix | asg4/sphere.js:41-72 | rows already generated stay a prefix of the buffer |
| SphereMesh.BufferAt | asg4/sphere.js:41-72 | value i of vertex k sits at width · k + i of the buffer |
| SphereMesh.GridAt | asg4/sphere.js:41-72 | the values of latitude a0, longitude c0 follow the a0 complete rows generated before it |
| SphereMesh.IndicesLength | asg4/sphere.js:75-90 | n quads give 6 n indices |
| SphereMesh.IndicesAt | asg4/sphere.js:75-90 | index i of quad q sits at 6 q + i |
| SphereMesh.QuadInRange | asg4/sphere.js:77-88 | every index of every quad names an existing vertex |
| SphereMesh.QuadAtInRange | asg4/sphere.js:77-88 | first, second, first + 1 and second + 1 are below (L+1)(M+1) for every quad of the grid |
| SphereMesh.IndicesInRange | asg4/sphere.js:75-90 | every entry of the whole index list is below the vertex count |
| SphereMesh.QuadNumbering | asg4/sphere.js:75-88 | quad a·M + c is the quad at latitude a, longitude c, with first = a(M+1) + c and second = first + M + 1 |
| SphereMesh.UvInUnit | asg4/sphere.js:67-70 | both texture coordinates of every vertex are in [0, 1] |
| SphereMesh.NoWrap | asg4/sphere.js:93-96 | with at most 2^16 vertices the 16-bit conversion changes no index |
| SphereMesh.SmallKept | asg4/sphere.js:93-96 | indices already in [0, 2^16) pass the 16-bit conversion unchanged |
| SphereMesh.DefaultSphereFits | asg4/sphere.js:4 | the default 30 x 30 sphere has 961 vertices and 5400 indices, all kept by the 16-bit buffer |
| SphereMesh.Sphere.constructor | asg4/sphere.js:4-29 | the given shape, white, solid colour, the geometry generated and no GPU buffers |
| SphereMesh.SphereOfRadius | asg4/world.js:1146 | a sphere of the given radius with the default 30 latitude and 30 longitude bands, its geometry generated and no GPU buffers |
| SphereMesh.Sphere.GenerateSphere | asg4/sphere.js:34-97 | the four arrays become the generated geometry of the current shape |
| SphereMesh.Sphere.VertexAt | asg4/sphere.js:47-70 | the inner-loop body yields the values of grid vertex (latNumber, longNumber) |
| SphereMesh.Sphere.GenerateVertices | asg4/sphere.js:41-72 | the vertex loops build exactly the position, normal and UV buffers, row by row |
| SphereMesh.Sphere.RowVertices | asg4/sphere.js:46-71 | the inner loop builds one whole latitude row |
| SphereMesh.Sphere.GenerateIndices | asg4/sphere.js:75-90 | the index loops build the index list of all L·M quads |
| SphereMesh.Sphere.DrawCount | asg4/sphere.js:174 | `drawElements` draws 6·L·M indices |
| SphereMesh.Sphere.SetRadius | asg4/sphere.js:181-189 | the radius changes, the geometry is regenerated for it, all four buffers are dropped, the bands and colour are kept |
| SphereMesh.Sphere.SetResolution | asg4/sphere.js:196-204 | the band counts change, the geometry is regenerated, all four buffers are dropped, the radius and colour are kept |
| Terrain.RiseFrom | asg3/world.js:495 | the downward search stays within [0, k] |
| Terrain.RiseFromIsLargest | asg3/world.js:495 | the search finds a value that fits, and none above it fits |
| Terrain.HeightIncrease | asg3/world.js:495 | the increase lies in [0, height], and is the full height at the centre |
| Terrain.HeightIncreaseIsLargest | asg3/world.js:495 | the increase is the largest k in [0, height] with height²·D <= (height-k)²·radius² |
| Terrain.IncreaseIsFloor | asg3/world.js:491-495 | the integer increase is the floor of height·(1 - sqrt(D)/radius) |
| Terrain.FloorBounds | asg3/world.js:495 | the last value that fits lies within one step of height·(radius - distance)/radius |
| Terrain.DistanceTest | asg3/world.js:491-493 | `distance < radius` holds exactly when D < radius² |
| Terrain.Stamp | asg3/world.js:487-500 | a stamp never lowers a cell, leaves uncovered cells alone, and puts covered cells in [1, max(old, 1 + height)] |
| Terrain.CoversIff | asg3/world.js:488-493 | a hill covers exactly the in-grid cells strictly inside its radius |
| Terrain.StampAllNeverLowers | asg3/world.js:458-477 | any sequence of stamps never lowers a cell |
| Terrain.StampAllUntouched | asg3/world.js:458-477 | a cell no hill covers keeps its value |
| Terrain.StampAllReachesEachHill | asg3/world.js:458-477 | a covered cell ends at least as high as each covering hill raises it |
| Terrain.StampCommutes | asg3/world.js:496 | two stamps commute on every cell, because `max` does |
| Terrain.StampAllThrough | asg3/world.js:458-477 | a stamp applied before a list gives the same as after it |
| Terrain.StampAllAppend | asg3/world.js:458-477 | stamping a + b is stamping a, then b |
| Terrain.StampAllSwap | asg3/world.js:458-477 | two lists of stamps commute |
| Terrain.StampOrderIrrelevant | asg3/world.js:458-477 | the final map does not depend on the order of the hills |
| Terrain.CentralPeak | asg3/world.js:460 | the central mountain raises cell (16, 16) of the all-ones map to 7 |
| Terrain.CentralFoot | asg3/world.js:460 | cells at distance 8 or more from the central mountain stay at 1 |
| World.AttemptCell | asg3/world.js:529-530 | every drawn cell lies in the 32 x 32 grid |
| World.RandomHill | asg3/world.js:470-476 | a random hill is centred in the grid, with radius in [2, 4] and height in [1, 2] |
| World.RandomHills | asg3/world.js:470-476 | n iterations give n hills |
| World.HillsSnoc | asg3/world.js:470-476 | each iteration of the random loop extends the hill list by the next random hill |
| World.StampedOnce | asg3/world.js:458-477 | one more stamp on a stamped map is the stamp of the longer list |
| World.FoundFlower | asg3/world.js:609 | a flower's colour code is in [0, 3) |
| World.FirstAnimalSpotStep | asg3/world.js:528-538 | one attempt accepts its cell when it is suitable and otherwise moves to the next |
| World.FirstFlowerSpotStep | asg3/world.js:602-614 | one flower attempt accepts a suitable cell and otherwise moves to the next |
| World.AnimalSearchFinds | asg3/world.js:524-540 | the loop from attempt j appends the animal of the first suitable attempt k >= j and stops having used 2(k + 1) draws, or appends nothing after attempt 50 having used 100 |
| World.FlowerSearchFinds | asg3/world.js:598-616 | the flower loop from attempt j appends the flower of the first suitable attempt k >= j with its colour draw and stops having used 2k + 3 draws, or appends nothing having used 100 |
| World.AnimalStepFacts | asg3/world.js:524-540 | one `placeSingleAnimal` keeps the list valid and either leaves it or appends one animal of the asked kind, using 2 to 100 draws |
| World.FlowerStepFacts | asg3/world.js:598-616 | one `placeSingleFlower` keeps the list valid and either leaves it or appends one flower, using 3 to 101 draws |
| World.AnimalRunFacts | asg3/world.js:506-518 | n calls of `placeSingleAnimal(kind)` keep the list valid, only append, append at most n animals and all of the asked kind |
| World.FlowerRunFacts | asg3/world.js:587-593 | n calls of `placeSingleFlower` keep the list valid, only append, and append at most n flowers |
| World.PlacedAnimalsValid | asg3/world.js:506-518 | the herd `placeAnimals` builds from the empty list is valid, has its pigs before its cows and at most 14 animals |
| World.PlacedFlowersValid | asg3/world.js:587-593 | the bed `addFlowers` builds from the empty list is valid and has at most 24 flowers |
| World.FirstAnimalSpotSpec | asg3/world.js:524-540 | the accepted attempt is the first suitable one within 50; none is accepted only when no drawn cell is suitable |
| World.FirstFlowerSpotSpec | asg3/world.js:598-616 | the same for flowers |
| World.ValidAnimalsExtend | asg3/world.js:534 | appending a suitable animal keeps every animal valid against those before it |
| World.ValidFlowersExtend | asg3/world.js:610 | appending a suitable flower with a colour in [0, 3) keeps the list valid |
| World.AcceptedAnimalsDistinct | asg3/world.js:548-582 | no two accepted animals share a cell |
| World.AcceptedAnimalFacts | asg3/world.js:548-582 | every accepted animal is in the grid, at height 1 to 3, on ground whose 8-neighbours differ by at most 1 |
| World.AcceptedFlowersDistinct | asg3/world.js:624-644 | no two accepted flowers share a cell |
| World.AcceptedFlowerFacts | asg3/world.js:624-644 | every accepted flower is in the grid, at height 1 to 4, with colour 0, 1 or 2 |
| World.RandomHillsShape | asg3/world.js:470-476 | every random hill has radius 2, 3 or 4 and height 1 or 2 |
| World.SphereSpotsShape | asg4/world.js:824-856 | exactly four spheres, each with a positive radius |
| World.World.constructor | asg3/world.js:59-65 | empty map and lists, day/night cycle off at time 0 |
| World.World.ToggleDayNight | asg4/world.js:585-592 | the flag flips; turning it off resets the time of day to 0, turning it on keeps it |
| World.World.AddHill | asg3/world.js:487-500 | every cell becomes its stamp: covered cells rise to max(old, 1 + increase), all others are unchanged |
| World.World.StampHill | asg3/world.js:458-477 | one `addHill` call extends the list of hills stamped on the initial map |
| World.World.DrawHill | asg3/world.js:471-474 | four draws in the order x, z, radius, height give the next random hill |
| World.World.GenerateTerrain | asg3/world.js:458-477 | the map is the old one with the 6 fixed hills then 10 random hills stamped, using 40 draws |
| World.World.IsSuitableForAnimal | asg3/world.js:548-582 | bounds, no animal on the cell, height in [1, 3] and flat neighbourhood; flowers are not considered |
| World.World.IsSuitableForFlower | asg3/world.js:624-644 | bounds, no flower on the cell and height in [1, 4] |
| World.World.DrawAttempt | asg3/world.js:529-530 | the two draws of attempt j give its cell |
| World.World.DrawFlower | asg3/world.js:609 | the draw after an accepted cell gives the flower's colour |
| World.World.AttemptAnimal | asg3/world.js:529-538 | one iteration: two draws give the cell; a suitable cell is appended and ends the search as the search from this attempt would; otherwise the list is kept and the search continues at the next attempt |
| World.World.AttemptFlower | asg3/world.js:603-614 | the same for a flower, whose colour is the next draw |
| World.World.PlaceSingleAnimal | asg3/world.js:524-540 | the list and the draw cursor become exactly one search step: the first suitable of at most 50 drawn cells is appended, or nothing is |
| World.World.PlaceSingleFlower | asg3/world.js:598-616 | the list and the draw cursor become exactly one flower search step |
| World.World.PlaceAnimalsOfKind | asg3/world.js:510-517 | n calls of `placeSingleAnimal(kind)` give exactly n search steps from the current list |
| World.World.PlaceAnimals | asg3/world.js:506-518 | the list is exactly the herd of 8 pig searches then 6 cow searches from the empty list, so it is valid, pigs before cows, at most 14 animals |
| World.World.AddFlowers | asg3/world.js:587-593 | the list is exactly the bed of 24 flower searches from the empty list, so it is valid and has at most 24 flowers |
| World.World.AddSpheres | asg4/world.js:824-856 | the list becomes exactly the four spheres |
| World.World.FlatMap | asg3/world.js:435-442 | a fresh 32 x 32 map with every height 1 |
| World.World.InitWorldMap | asg3/world.js:434-452 | a fresh 32 x 32 map of ones with the 16 terrain hills stamped, so every height is >= 1; then exactly the herd, then exactly the bed, each drawn from where the previous step left the stream; only the map, the two lists and the stream change |
| World.World.InitWorldMapWithSpheres | asg4/world.js:607-627 | the same map, hills, herd and bed, followed by exactly the four spheres; the day/night flag and the time of day are unchanged |
| FirstPersonCamera.Clamp | asg4/camera.js:177-180 | the pitch ends in [-89, 89], unchanged inside it and at the nearer bound outside it |
| FirstPersonCamera.ClampIdempotent | asg4/camera.js:177-180 | clamping twice is clamping once |
| FirstPersonCamera.HeightStep | asg4/camera.js:225-233 | each tick adds the current velocity to the jump height |
| FirstPersonCamera.HeightPositive | asg4/camera.js:225-247 | the height stays positive before tick 41 and is 0 at tick 41 |
| FirstPersonCamera.JumpTrajectory | asg4/camera.js:216-247 | a jump from rest starts at height 0 with velocity 0.2 and is airborne exactly until its 41st tick, in exact arithmetic (the doubles of the source may land on tick 41 or 42) |
| FirstPersonCamera.GridCell | asg4/camera.js:257-259 | each coordinate is floored: the point lies in the unit cell from the result |
| FirstPersonCamera.Camera.constructor | asg4/camera.js:3-29 | eye (16, 2, 16), at (17, 2, 16), up +y, fov 60, speed 0.2, rotation speed 3, sensitivity 0.2, grounded, mouse look off, pitch 0 |
| FirstPersonCamera.Camera.ForwardVector | asg4/camera.js:49-54 | the normalised vector from eye to at; moving eye and at by any common offset d leaves it unchanged, so every move keeps it |
| FirstPersonCamera.Camera.RightVector | asg4/camera.js:57-62 | the normalised cross product of forward and up, whose unnormalised form is orthogonal to both |
| FirstPersonCamera.Camera.Translate | asg4/camera.js:65-114 | eye and at move by the same vector, so the view direction and the forward and right vectors are kept |
| FirstPersonCamera.Camera.Forward | asg4/camera.js:65-75 | both points move speed along the view direction; the view direction is kept |
| FirstPersonCamera.Camera.Backward | asg4/camera.js:78-88 | both points move speed against the view direction; the view direction is kept |
| FirstPersonCamera.Camera.Left | asg4/camera.js:91-101 | both points move speed against the right vector; the view direction is kept |
| FirstPersonCamera.Camera.Right | asg4/camera.js:104-114 | both points move speed along the right vector; the view direction is kept |
| FirstPersonCamera.Camera.Rotate | asg4/camera.js:117-140 | only at changes: the eye stays and the view direction is rotated about up |
| FirstPersonCamera.Camera.HandleMouseMove | asg4/camera.js:143-205 | nothing while mouse look is off; the first event only records the position; later events record it, update the pitch by the vertical movement and move at to the look-at point of the movement since the last event; the pitch stays in [-89, 89] |
| FirstPersonCamera.Camera.PitchAfter | asg4/camera.js:177-180 | a clamped pitch stays clamped, and no vertical movement keeps it |
| FirstPersonCamera.Camera.Look | asg4/camera.js:160-203 | the pitch accumulator is clamped; at becomes the yawed point, then, for a vertical movement, the point rebuilt from the new pitch; with no movement the view is unchanged |
| FirstPersonCamera.Camera.PitchForgetsVertical | asg4/camera.js:175-203 | with up = +y the pitch step discards the vertical part of the old view direction: targets that agree horizontally give the same look-at point |
| FirstPersonCamera.Camera.ToggleMouseLook | asg4/camera.js:208-213 | the flag flips, the new value is returned and the latch is cleared |
| FirstPersonCamera.Camera.Jump | asg4/camera.js:216-222 | a no-op in the air; from the ground it starts a jump at height 0 with velocity 0.2 |
| FirstPersonCamera.Camera.UpdateJump | asg4/camera.js:225-247 | a no-op on the ground; in the air the velocity drops by 0.01, both points rise by it, and the camera lands at eye height 2 on the tick the height stops being positive; at.y - eye.y is kept |
| FirstPersonCamera.Camera.CheckCollision | asg4/camera.js:250-273 | for the point p one step ahead: a reported collision means p's floored cell is in the grid and p lies below the top of that column; a cell outside the grid never collides; on a rectangular grid an in-grid cell collides exactly when its column top is above p |
| FirstPersonCamera.OutsideNeverCollides | asg4/camera.js:262-268 | a target cell outside the grid never collides |
| FirstPersonCamera.InsideCollidesIffTaller | asg4/camera.js:262-268 | on a rectangular grid, an in-grid target collides exactly when `worldGrid[gx][gz] > gy` |
| Particles.Spread | asg5/main.js:800-802 | a horizontal burst velocity lies in [-5, 5) |
| Particles.Upward | asg5/main.js:801 | the vertical burst velocity lies in [0, 10) |
| Particles.Offset | asg5/main.js:792 | the distance from the cursor round the pool is below 1000 |
| Particles.Index | asg5/main.js:792 | `(activeCount + i) % 1000` is a slot of the pool |
| Particles.OffsetOfIndex | asg5/main.js:792 | the slot i places after the cursor is i places after it |
| Particles.IndexOfOffset | asg5/main.js:792 | every slot is reached from the cursor by its offset |
| Particles.Explode | asg5/main.js:791-811 | a burst keeps the pool size |
| Particles.ExplodeWritesBurst | asg5/main.js:791-811 | particle i of a burst lands in slot (cursor + i) mod 1000 at the explosion point with lifetime 2 |
| Particles.ExplodeKeepsOthers | asg5/main.js:791-811 | every slot outside the 50 written ones is unchanged |
| Particles.ExplodeNext | asg5/main.js:791-811 | each loop iteration extends the first n writes by the next one |
| Particles.ExplodeNone | asg5/main.js:791-811 | before any write the pool is as it was |
| Particles.Advance | asg5/main.js:852-872 | a frame keeps the pool size |
| Particles.AdvanceSlot | asg5/main.js:852-872 | dead slots are unchanged; a live slot keeps its colour and horizontal velocity, loses 9.8 dt of vertical velocity and dt of lifetime, and is at the origin once expired |
| Particles.LifeCountsDown | asg5/main.js:863 | while a particle lives each frame takes dt off its lifetime |
| Particles.Expires | asg5/main.js:863-870 | a particle dies in the frame that takes its lifetime to zero, and is then at the origin |
| Particles.DeadStaysPut | asg5/main.js:853 | a dead particle is never changed again |
| Particles.MovedBy | asg5/main.js:855-857 | the three position writes are the vector move by velocity times dt |
| Particles.Put3 | asg5/main.js:855-857 | setting one slot keeps the array length |
| Particles.At3Put3 | asg5/main.js:855-857 | setting slot s changes slot s and no other |
| Particles.Put3Twice | asg5/main.js:866-870 | the second of two writes to a slot wins |
| Particles.Put3Same | asg5/main.js:855-857 | writing a slot's own value changes nothing |
| Particles.Pool | asg5/main.js:740-783 | the four arrays hold a pool of exactly 1000 particles |
| Particles.PoolPut | asg5/main.js:795-810 | writing a particle's parts into slot s of the arrays replaces slot s of the pool and no other |
| Particles.ParticleSystem.Slots | asg5/main.js:740-783 | the pool of the system has 1000 slots |
| Particles.ParticleSystem.constructor | asg5/main.js:740-783 | 1000 dead slots at rest at the origin with drawn colours, cursor 0, three draws per slot |
| Particles.ParticleSystem.FillIdle | asg5/main.js:748-762 | the loop leaves every slot idle with its own three colour draws |
| Particles.ParticleSystem.DrawIdle | asg5/main.js:753-755 | three draws give the colour of slot s |
| Particles.ParticleSystem.PutParticle | asg5/main.js:795-810 | the writes of one iteration replace slot `index` of the pool and no other |
| Particles.ParticleSystem.CreateParticleExplosion | asg5/main.js:785-823 | the pool after the burst is the reference burst of the old pool, the cursor advances by 50 modulo 1000, using six draws per particle |
| Particles.ParticleSystem.DrawParticle | asg5/main.js:800-807 | six draws give the velocity and colour of burst particle k |
| Particles.ParticleSystem.StepSlot | asg5/main.js:853-871 | one live slot takes one frame and no other slot changes |
| Particles.ParticleSystem.MoveSlot | asg5/main.js:855-857 | slot i moves by its velocity times dt and no other position changes |
| Particles.ParticleSystem.ResetSlot | asg5/main.js:866-870 | slot i goes back to the origin and no other position changes |
| Particles.ParticleSystem.Update | asg5/main.js:852-872 | the pool after the loop is the reference frame of the old pool |
| Particles.UpdateParticles | asg5/main.js:846-875 | without a system nothing happens; otherwise the pool advances one frame |
| Particles.RandomPoint | asg5/main.js:35-39 | the random explosion centre has x and z in [-10, 10) and y in [1, 6) |
| Particles.CreateRandomExplosion | asg5/main.js:34-41 | a burst at the random point, whose three draws come before the burst's own |
| Particles.DrawPoint | asg5/main.js:35-39 | three draws give the random centre |
| Particles.Animated.constructor | asg5/main.js:48-56 | a new object has its speed and no captured original |
| Particles.Animated.ChangeSpeed | asg5/main.js:50-55 | the original speed is captured once, and the speed becomes the original times the slider value |
| Particles.OnSpeedChange | asg5/main.js:48-56 | every object's speed becomes its first captured speed times the value |
| Particles.SpeedChangesDoNotCompound | asg5/main.js:50-55 | two slider changes leave each speed at the first captured speed times the latest value |
| Particles.GuiParams.constructor | asg5/main.js:203-211 | speed 1, light 1, particle size 0.1, no wireframe, rotation on |
| Particles.GuiParams.ResetScene | asg5/main.js:23-26 | the four reset parameters return to their initial values and rotation is kept |

## Left out

- WebGL, Three.js and the DOM are not modelled: shaders, every `render` body and buffer binding, `drawArrays`/`drawElements` themselves, textures, lights, skybox, loaders, GUI folders, raycasting, the particle counter element, `needsUpdate` flags, and the scene and camera parts of `resetScene`. They are library calls with no logic of their own; only the counts passed to the draw calls are modelled.
- `Vector3.normalize`, `Vector3.cross` normalisation and the `Matrix4` rotations are uninterpreted functions, because cuon-matrix is not part of this model. `rotLeft`/`rotRight` and the yaw and pitch rebuild of `handleMouseMove` are modelled only up to those functions.
- FirstPersonCamera.Camera.Look: the new view direction is stated as the result of the uninterpreted rotation and normalisation (`YawedAt`, `PitchedAt`), not geometrically; that the yaw keeps the view length or that the pitch tilts by the accumulator's angle is not claimed.
- FirstPersonCamera.Camera.Rotate: the turn is stated through the uninterpreted rotation; that the view length is kept is not claimed.
- `Math.random()` is an oracle stream, not randomness. `Math.sin` and `Math.cos` are uninterpreted, so no property depends on their values.
- Floating point is not modelled. Float32Array storage, double rounding of `u * n` in `Math.floor(Math.random() * n)`, and the double evaluation of `addHill`'s formula are all exact here. The 16-bit `Uint16Array` conversion is modelled as an explicit modulo 2^16. The jump's landing on tick 41 rests on 0.2 · 41 − 0.005 · 41 · 40 being exactly 0; the source accumulates `jumpHeight += jumpVelocity; jumpVelocity -= 0.01` in doubles, so its height at tick 41 is a rounding residue and the camera may land on tick 41 or 42.
- Timers are not modelled as time. `setInterval`/`clearInterval` of the sun are a timer handle, `requestAnimationFrame` is left out and `deltaTime` is a parameter.
- The asg1 sliders deliver numbers here, although the DOM gives strings, which JavaScript converts. A circle segment count is an integer.
- Painter.ToGL: the canvas must have a positive width and height, because the conversion divides by them.
- Painter.ColorIsCopied: the shape's colour is a `seq` value, so it cannot alias the selection, and the property holds whether or not `click` copies it with `.slice()`. The model does not show that the copy is needed.
- The asg1 `Circle.render`, the sun rays of `drawSun` and the grass drawing are left out as pure drawing.
- SphereMesh.Sphere.SetResolution: band counts must be at least 1, because with 0 the generator divides by zero and produces NaN coordinates.
- SphereMesh.Sphere.constructor: band counts must be at least 1, for the same reason. Dafny constructors have no default arguments, so the constructor takes all three. The one-argument call `new Sphere(sphereData.radius)` of `drawSpheres` (`asg4/world.js:1146`) is `SphereMesh.SphereOfRadius`, which passes the 30 x 30 defaults of `asg4/sphere.js:4`. The default radius 0.5 is never relied on and is not modelled.
- CircleMesh.Circle.GenerateVertices: the segment count must be positive, because the model's `Angle` divides by it. The source instead builds an empty array for 0 segments and throws on a negative count; every caller keeps the count at 3 or more.
- `jumpVelocity` is never assigned in the source's constructor, so it is `undefined` there. The model sets it to 0; it is not read before `jump()` sets it.
- The triangle, cube and sphere geometry fields are `seq` values, so sharing an array passed to `setVertices`/`setUVs` with the caller (aliasing) is not captured.
- The fov slider and `updateViewMatrix`/`updateProjectionMatrix` are left out, because they hand over to cuon-matrix.
- The asg5 GUI slider ranges are left out. They are Three.js GUI settings and do not restrict the handlers.
- `drawPig`, `drawCow`, `drawFlower`, `drawSky`, `drawGround`, `asg2/src/asg2.js`, `asg0/src/asg0.js` and `asg3/point.js` are drawing or scene-graph glue and are not part of this model.
