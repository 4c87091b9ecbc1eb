# Universe: the grid and body buffers, verified

Universe is a small OpenGL n-body viewer. Bodies (spheres with a position,
velocity, mass, radius and colour) move under mutual gravity above a square
grid of lines. The grid is bent downward under each body, like a rubber sheet.
This project models the discrete, buffer-building core of that engine and the
few in-place state updates around it:

- `Grid` (src/engine/Grid.cpp) is the class `Grids.Grid`, with two buffers:
  - `OgVerts` is the lattice as built;
  - `Vertices` is the per-frame working copy.

  Its operations:
  - `Init` appends the lattice of line segments: the x-direction segments
    first, then the z-direction ones.
  - `Update(size, divisions)` is `UpdateLattice`. It clears both buffers and
    rebuilds them.
  - `Update(bodies, camPos)` is `UpdateDeformation`. It runs three passes
    over the working copy:
    1. It moves x and z by the camera's x and z and sets each y to the
       summed displacement of all bodies.
    2. It scans for the highest y, starting from 0.
    3. It subtracts that value from every y.
- `Body` (src/engine/Body.cpp, src/engine/Body.h) is the class
  `Bodies.Body`. It holds the field set, `Accelerate`, `Update`, the
  constructor's `Update(0)` followed by `GenerateVertices`, and `operator==`
  (modelled as `Equals`).
  - `GenerateVertices` builds the interleaved sphere mesh: 10 stacks × 10
    sectors of quads, two triangles each, six floats
    (x, y, z, r, g, b) per vertex.
  - It also builds the element buffer, in which every index k is k.

The project has five files:

| file | contents |
|---|---|
| vectors.dfy | `Vec3`, the idealised `glm::vec3` |
| buffers.dfy | index arithmetic: quotient and remainder of record positions |
| lattice.dfy | the grid lattice: segments, layout predicates, and the lemmas on length, level, shape, bounds and uniqueness |
| body.dfy | the body class, the mesh layout and its lemmas, and motion and force |
| grid.dfy | the grid class, the deformation specification and its lemmas |

Modelling choices:
- Floats are idealised as `real`.
- The displacement formula is the function parameter `dz: Displacement`. It
  takes the body's position, the body's mass and the vertex position.
- `sphericalToCartesian` is the function parameter `surface: SurfaceMap`,
  applied to the radius, a stack boundary and a sector boundary.
- The specification of every loop is a predicate over the buffer:
  - `Lattice`, `XRows` and `ZRows` for the grid;
  - `LaidOut` and `InOrder` for the sphere mesh;
  - `Deformed` for the deformed grid.

  Each method is proved against those predicates with loop invariants. Lemmas
  beside the predicates derive the properties the program relies on.

The headers and the definitions disagree in four places, and the model
follows the `.cpp` definitions:
- `Accelerate` takes only the force. Body.h:25 also declares a time step.
- The constructor has no `glows` parameter, so `Glows` is never set by it.
  Body.h:23 declares one.
- `Grid` has the two `Update` overloads of Grid.cpp:53 and Grid.cpp:63. Grid.h
  declares a different one.
- `Grid` has the `Init` that Grid.cpp:20 defines. Grid.h does not declare it.

One might expect the highest y after a deformation to be exactly 0. The code
does not guarantee that: `highest` starts at 0, so when every raw height is
negative the grid is left as it is and its top lies below 0. The model follows
the code:
- `DeformedShape` proves the top is exactly 0 whenever some raw height is
  at least 0.
- `DeformedPeak` proves it outright for a non-negative displacement, which
  the source's `2 * sqrt(...)` is.

## Model

| member | source | states |
|---|---|---|
| Grids.Grid.constructor | src/engine/Grid.cpp:3-7 | a new grid holds exactly the lattice for size and divisions, the drawn copy equals it, and the class invariant `Valid` (OgVerts is a lattice) holds |
| Grids.Grid.Init | src/engine/Grid.cpp:20-51 | whatever OgVerts held is kept as a prefix, and after it come exactly the x-direction segments (zStep outer, xStep inner) and then the z-direction segments (xStep outer, zStep inner) |
| Grids.Grid.AddXLines | src/engine/Grid.cpp:25-37 | the x-axis loops append exactly divisions·(divisions+1) x-direction segments, in loop order, and keep what was there |
| Grids.Grid.PushXLine | src/engine/Grid.cpp:30-35 | one line of constant z adds its divisions x-direction segments, each `step` long, after the rows already laid |
| Grids.Grid.AddZLines | src/engine/Grid.cpp:38-50 | the z-axis loops append exactly divisions·(divisions+1) z-direction segments, in loop order, and keep what was there |
| Grids.Grid.PushZLine | src/engine/Grid.cpp:43-48 | one line of constant x adds its divisions z-direction segments, each `step` long, after the rows already laid |
| Grids.Grid.UpdateLattice | src/engine/Grid.cpp:53-58 | whatever the buffers held, afterwards OgVerts is exactly the fresh lattice, Vertices equals it, and `Valid` holds |
| Lattices.LatticeUnique | src/engine/Grid.cpp:53-58 | size and divisions determine the lattice completely, so rebuilding twice gives the same buffers as rebuilding once |
| Lattices.LatticeLength | src/engine/Grid.cpp:26-50 | the lattice has 12·divisions·(divisions+1) floats, nothing when divisions ≤ 0, and a whole number of 3-float vertices |
| Lattices.LatticeSegments | src/engine/Grid.cpp:26-47 | every vertex has y = −halfSize·0.3 + 3·step; x-segments share y and z and differ by step in x; z-segments share x and y and differ by step in z |
| Lattices.LatticeBounds | src/engine/Grid.cpp:22-45 | for divisions > 0 and size ≥ 0 every x and z of every segment lies in [−size/2, size/2] |
| Lattices.XSegmentInside | src/engine/Grid.cpp:29-32 | an x-direction segment's endpoints lie inside the square |
| Lattices.ZSegmentInside | src/engine/Grid.cpp:40-45 | a z-direction segment's endpoints lie inside the square |
| Lattices.GridLineInside | src/engine/Grid.cpp:22-23 | a grid line −halfSize + a·step with 0 ≤ a ≤ divisions lies in [−halfSize, halfSize] |
| Lattices.XRowsPush | src/engine/Grid.cpp:30-34 | appending segment (zStep, xStep) after the first divisions·zStep + xStep segments extends the x rows by exactly that segment |
| Lattices.ZRowsPush | src/engine/Grid.cpp:43-47 | appending segment (xStep, zStep) after the first divisions·xStep + zStep segments extends the z rows by exactly that segment |
| Grids.Grid.UpdateDeformation | src/engine/Grid.cpp:63-93 | on a grid satisfying `Valid`, leaves OgVerts (and so `Valid`) alone; Vertices has the same length, x and z moved by the camera's x and z, and y equal to the summed displacement lowered by its running maximum from 0 |
| Grids.Grid.RaiseVertices | src/engine/Grid.cpp:68-85 | the first pass moves every vertex by the camera's x and z and sets its y to the total displacement at the moved point |
| Grids.SumDisplacement | src/engine/Grid.cpp:72-82 | the inner loop returns every body's displacement at the point, summed in list order |
| Grids.MaxHeight | src/engine/Grid.cpp:86-90 | the scan over every third float from index 1 returns the running maximum of the y values, started at 0 |
| Grids.Grid.LowerHeights | src/engine/Grid.cpp:91-93 | the last pass subtracts highest from every y and leaves every x and z unchanged |
| Grids.Heights | src/engine/Grid.cpp:68-84 | the raw heights: one per vertex, each the total displacement at that vertex's moved point |
| Grids.TotalDisplacementPush | src/engine/Grid.cpp:73-81 | one more body adds exactly its own displacement to the total |
| Grids.TotalDisplacementNonNegative | src/engine/Grid.cpp:78-81 | a displacement that is never negative gives a total that is never negative |
| Grids.HighestBounds | src/engine/Grid.cpp:86-90 | the running maximum is at least 0 and at least every value, and it is 0 or one of the values |
| Grids.HighestIsMaximum | src/engine/Grid.cpp:86-90 | when some value is at least 0, the running maximum is one of the values |
| Grids.Lowered | src/engine/Grid.cpp:91-93 | the lowered heights are as many as the raw ones |
| Grids.LoweredCeiling | src/engine/Grid.cpp:86-93 | after lowering every height is at most 0, all pairwise differences are kept, and all-negative heights are unchanged |
| Grids.LoweredPeak | src/engine/Grid.cpp:86-93 | when some raw height is at least 0, some lowered height is exactly 0 |
| Grids.LoweredIdempotent | src/engine/Grid.cpp:86-93 | lowering an already lowered grid changes nothing |
| Grids.LoweredFlat | src/engine/Grid.cpp:86-93 | all-zero heights stay zero |
| Grids.NoBodiesFlat | src/engine/Grid.cpp:72-93 | with an empty body list every y after the deformation is exactly 0 |
| Grids.HeightsIgnoreCameraHeight | src/engine/Grid.cpp:66 | the camera's y plays no part in the heights |
| Grids.DeformedShape | src/engine/Grid.cpp:84-93 | a deformed grid has every y ≤ 0, the raw heights' differences, and some y exactly 0 as soon as a raw height is ≥ 0 |
| Grids.DeformedPeak | src/engine/Grid.cpp:78-93 | with a never-negative displacement the highest y of a non-empty deformed grid is exactly 0 |
| Bodies.Body.constructor | src/engine/Body.cpp:3-11 | stores the given fields, Update(0) leaves the position where it was and sets the model translation to it, and the mesh is the full laid-out sphere with an in-order element buffer |
| Bodies.Body.Accelerate | src/engine/Body.cpp:27-31 | only Velocity changes, by force / Mass (Mass ≠ 0) |
| Bodies.AcceleratedAdditive | src/engine/Body.cpp:27-31 | two accelerations in a row equal one by the summed force |
| Bodies.Body.Update | src/engine/Body.cpp:33-38 | only Position and the model matrix change: Position moves by Velocity·SIM_SPEED and the model translation becomes the new Position |
| Bodies.MovedZero | src/engine/Body.cpp:10 | Update(0) leaves the position unchanged |
| Bodies.MovedAdditive | src/engine/Body.cpp:33-35 | two updates in a row equal one update for the summed time |
| Bodies.Body.GenerateVertices | src/engine/Body.cpp:57-94 | whatever the buffers held, afterwards the vertex buffer holds the 600 vertices of 6 floats (3600 floats), each with its sphere corner and the body colour, and the element buffer is 0, 1, …, 599 |
| Bodies.Body.InsertQuad | src/engine/Body.cpp:71-91 | one inner pass appends quad (i, j) as triangles v1-v2-v3 and v2-v4-v3, and indices base..base+5 where base is the vertex count before the pass |
| Bodies.InOrderPush | src/engine/Body.cpp:76-91 | indices base..base+5 with base the vertex count keep the element buffer the identity |
| Bodies.CornerOfQuad | src/engine/Body.cpp:65-74 | vertex 6·(10i+j)+t is corner t of the quad at stack i, sector j |
| Bodies.AppendQuadVertices | src/engine/Body.cpp:78-86 | appending a quad keeps the earlier vertices and adds six with the quad's corners in floats 0..2 and the colour in floats 3..5 |
| Bodies.QuadLaysOut | src/engine/Body.cpp:71-86 | appending quad q after the first q quads lays out the first q + 1 |
| Bodies.MeshUpToVertices | src/engine/Body.cpp:65-91 | the quad-by-quad construction lays out every vertex appended so far |
| Bodies.StacksLaidOut | src/engine/Body.cpp:65-91 | i complete stacks lay out 60·i vertices |
| Bodies.SphereLayout | src/engine/Body.cpp:57-94 | the quad-by-quad construction of the sphere lays out all 600 vertices |
| Bodies.LaidOutQuads | src/engine/Body.cpp:71-86 | a laid-out mesh draws every (stack, sector) quad as its two triangles over the right corners |
| Bodies.SphereQuads | src/engine/Body.cpp:65-91 | the sphere mesh has 3600 floats and covers every quad |
| Bodies.LaidOutUnique | src/engine/Body.cpp:59-60 | the vertex count and per-vertex contents determine the vertex buffer, so generating twice gives what generating once does |
| Bodies.SphereVerticesUnique | src/engine/Body.cpp:57-94 | the only buffer that lays out the 600 vertices is the quad-by-quad construction |
| Bodies.InOrderUnique | src/engine/Body.cpp:59-60 | the element buffer is determined by its length, so generating twice gives what generating once does |
| Bodies.IndicesInRange | src/engine/Body.cpp:76-91 | there are as many indices as vertices and every index is below the vertex count, so the draw call stays in range |
| Bodies.Body.Equals | src/engine/Body.h:31-37 | true exactly when Position, Velocity, Mass and Radius are all equal |
| Bodies.EqualsIsEquivalence | src/engine/Body.h:31-37 | operator== is reflexive, symmetric and transitive over real fields |
| Bodies.EqualsIgnoresAppearance | src/engine/Body.h:31-43 | bodies equal in position, velocity, mass and radius compare equal, whatever their colour, glow flag or mesh |

## Left out

- `Body::GetForce` (gravitation with a `double` constant, `pow` and `glm::normalize`) is floating-point numerics with no exact contract; it is not modelled.
- The per-vertex displacement formula (Schwarzschild-radius terms under `sqrt` and `pow`) is the parameter `dz`; a negative argument to `sqrt` (NaN in the source) is not modelled.
- `sphericalToCartesian` and the angles `theta1`, `theta2`, `phi1`, `phi2` are the parameter `surface`, indexed by the integer stack and sector boundaries; the float loop counters `i`, `j` of GenerateVertices are integers here, which is exact for 0..10.
- Single-precision rounding everywhere: all coordinates, colours, masses and velocities are `real`.
- Bodies.Body.Accelerate: requires Mass ≠ 0, where the source divides and yields infinities or NaN.
- Bodies.Body.Update: the model matrix is kept as the translation it always holds, not as a 4×4 matrix.
- Bodies.Body.InsertQuad: the `static_cast<uint32_t>` of `base` is not modelled; base is at most 594, far below 2³².
- Bodies.Body.constructor: `Glows` is left unset, as in the source constructor; `m_ModelMatrix`'s identity initialiser is replaced by Update(0)'s translation.
- Grids.Grid.Init: for divisions = 0 the source computes `size / 0`; the model uses 0 for the unused step, since no segment is emitted then.
- Grids.Grid.Init: the six `push_back`s per segment are one append of six floats.
- Grids.DeformedShape: the highest y is exactly 0 only when some raw height is at least 0; the code does not guarantee more (see above).
- Grid and body rendering, camera, VAO/VBO/EBO creation and `glBufferData` uploads, shaders, file loading, window setup and `Destroy` are OpenGL and GLFW plumbing outside the model.
- The loops of `Init`, `GenerateVertices` and `Update(bodies, camPos)` are split into helper methods (AddXLines, PushXLine, AddZLines, PushZLine, InsertQuad, RaiseVertices, SumDisplacement, MaxHeight, LowerHeights), each one loop or loop body of the source, so that each proof stays small; the statement order inside each is the source's.
