# Parametric surface tessellation — Dafny model

The program draws a parametric surface over the polar parameter domain
r ∈ [0.25, maxR], θ ∈ [0, 2π) with WebGL. Its core is `CreateSurfaceData`:
a double loop that walks the domain in steps of 0.01. For every grid cell it
pushes two triangles onto three parallel flat lists: surface points from
`equations`, unit normals from `CalculateNormal`, and texture coordinates
from `CalculateTextCoord`. The normals use forward differences, then `cross`,
then `normalize`. `Model.BufferData` uploads the lists and records the
vertex count. The keyboard handler moves a marked "user point" (r, θ) around
the same domain.

The modules follow that structure:

- `JsMath` (jsmath.dfy): `Math.PI`, and the browser's `Math.cos`/`sin`/`sqrt`
  passed in as a value. `Deg2Rad` is here too.
- `Geometry` (geometry.dfy): vectors, `cross`, and `normalize`. `normalize`
  acts in place on a mutable `Vector` object.
- `Surface` (surface.dfy): `equations`, the normal estimator and the
  texture-coordinate map.
- `Tessellation` (tessellation.dfy): `CreateSurfaceData` as nested loops
  that append to the three lists. Each list is proved equal to a function
  of the vertex sequence the loops visit.
- `Buffers` (model.dfy): the `Model` object's vertex count.
- `Keyboard` (keyboard.dfy): `handleKeyPress` acting in place on the
  two-element `userPoint` array.

The surface's trigonometry and square root have no fixed values. Each proof
that needs `sqrt` requires only that it squares back to its argument
(`SquareRoot`). Division by zero in the source produces NaN (0/0) or ±Infinity (a non-zero number over 0); here it is
excluded by preconditions.

## Model

| member | source | states |
|---|---|---|
| JsMath.Deg2Rad | main.js:12-14 | radians times 180 equal degrees times π; 180° is π; non-negative angles stay non-negative |
| Geometry.CrossIsOrthogonal | main.js:222-227 | the cross product is orthogonal to both inputs |
| Geometry.CrossAntiCommutes | main.js:222-227 | swapping the inputs of the cross product negates it |
| Geometry.NormalizeDefinedIff | main.js:229-234 | with a true square root, the divisor is non-zero exactly when the vector is not zero |
| Geometry.NormalizedIsUnit | main.js:229-234 | with a true square root, the normalized vector has squared length 1 |
| Geometry.NormalizedKeepsOrthogonality | main.js:229-234 | normalizing keeps a vector orthogonal to whatever it was orthogonal to |
| Geometry.Normalize | main.js:229-234 | divides the object's three fields in place by the root of its squared length; the new value is the normalized old value |
| Surface.EquationsAtUnitRadius | main.js:214-220 | at r = 1, θ = 0 the surface point is (-2/3, 0, 1) |
| Surface.NormalDefinedIff | main.js:182-204 | with a true square root, the normal estimator is defined exactly where the two tangent differences are not parallel |
| Surface.NormalAtIsUnit | main.js:182-204 | with a true square root, the estimated normal has unit length |
| Surface.NormalAtIsOrthogonal | main.js:182-204 | the estimated normal is orthogonal to both the r-tangent and the θ-tangent difference |
| Surface.CalculateNormal | main.js:182-204 | returns a fresh vector whose value is the normalized cross product of the forward differences along r and θ |
| Surface.CalculateTextCoord | main.js:206-212 | u scales r linearly: 0 at r = 0.25, 1 at r = maxR, and in [0, 1] in between; v is θ·π/2, in [0, π²) for θ in [0, 2π) |
| Surface.TextCoordPastOuterRadius | main.js:206-212 | a corner beyond maxR gets u > 1 |
| Tessellation.RingCountExact | main.js:135 | the radius on trip i satisfies r ≤ maxR exactly when i is below the outer loop's trip count |
| Tessellation.AngleStepsExact | main.js:136 | θ = 0.01·j < 2π exactly when j < 629 |
| Tessellation.CellBaseInDomain | main.js:135-136 | every cell the loops visit has its base corner in 0.25 ≤ r ≤ maxR and 0 ≤ θ < 2π |
| Tessellation.MeshParamsInDomain | main.js:135-141 | every emitted vertex has 0.25 ≤ r ≤ maxR + 0.01 and 0 ≤ θ < 2π + 0.01 |
| Tessellation.GridParamsAt | main.js:135-149 | vertex 6·(629·i + j) + t is corner t of the cell at ring i, angle j, in order v1, v2, v3, v2, v4, v3 |
| Tessellation.MeshVertexAt | main.js:135-149 | the same for the whole mesh of outer radius maxR, with the index inside the sequence |
| Tessellation.PushCellVertices | main.js:138-149 | appends the positions of the cell's six corners, in order v1, v2, v3, v2, v4, v3 |
| Tessellation.PushCellNormals | main.js:151-162 | appends the estimated normals of the same six corners, in the same order |
| Tessellation.PushCellTextCoords | main.js:164-175 | appends the texture coordinates of the same six corners, in the same order |
| Tessellation.PushRing | main.js:136-176 | the inner loop appends to each list that list's rows for the 629 cells of the ring, in angle order |
| Tessellation.CreateSurfaceData | main.js:128-180 | each returned list is the rows of its stream for every vertex of the mesh, ring by ring and cell by cell |
| Tessellation.SurfaceDataSizes | main.js:128-180 | the lists hold 18, 18 and 12 numbers per cell; for maxR < 0.25 all three are empty |
| Tessellation.PositionAt | main.js:138-149 | the three numbers at vertex 6·(629·i + j) + t of the position list are the surface point at that cell corner |
| Tessellation.NormalAtVertex | main.js:151-162 | the three numbers at the same vertex of the normal list are the estimated normal at the same corner |
| Tessellation.TextCoordAtVertex | main.js:164-175 | the two numbers at the same vertex of the texture list are that corner's texture coordinate |
| Tessellation.SurfaceNormalsAreUnit | main.js:151-162 | with a true square root, every normal in the normal list has unit length |
| Buffers.Model.constructor | main.js:18-23 | a new model keeps its name and starts with count 0 |
| Buffers.Model.BufferData | main.js:25-37 | the recorded count is the vertex list's length divided by 3 |
| Buffers.SurfaceVertexCount | main.js:36 | for surface data, the recorded count is 6 per cell, so a multiple of 6; it is 0 for maxR < 0.25 |
| Keyboard.PressKey | main.js:367-407 | only w, s, a and d (either case) move the point; w/s change only r and a/d change only θ; away from a wrap, w and d add 0.05 to their coordinate and s and a subtract 0.05; a point in the domain stays in the domain |
| Keyboard.KeysKeepTheirBound | main.js:371-402 | from any point: w leaves r ≤ maxR, s leaves r ≥ 0.25, a leaves θ ≥ 0, d leaves θ ≤ 2π |
| Keyboard.KeysWrapAround | main.js:371-402 | a step past an edge wraps to the opposite end of that coordinate's range |
| Keyboard.RadialKeysUndo | main.js:371-386 | away from the wrap, s undoes w and w undoes s |
| Keyboard.AngularKeysUndo | main.js:387-402 | away from the wrap, a undoes d and d undoes a |
| Keyboard.Scene.constructor | main.js:7-10 | the initial state is maxR = 1 and userPoint = [0.25, 0], which lies in the domain |
| Keyboard.Scene.HandleKeyPress | main.js:367-407 | updates userPoint in place as PressKey says; asks for a refresh exactly for the eight move keys and leaves the point unchanged otherwise |

## Left out

- WebGL: buffers, shaders, `Draw` with `gl.drawArrays`, `LoadTexture`, `draw`, and the page set-up (`initGL`, `init`). They are I/O against the browser.
- `updateSurface` and the DOM inputs it reads. The model takes `maxR` as a parameter, and `HandleKeyPress` returns whether the page would call `updateSurface`.
- Floating point. Reals are exact, so the loop counters do not drift. The model's outer loop runs ⌊(maxR − 0.25)/0.01⌋ + 1 times (`RingCount`) and its inner loop 629 times. With doubles the inner count is also 629, but the outer counter drifts upwards: 0.25 plus 75 steps of 0.01 lands just above 1, so at the initial maxR = 1 the browser builds 75 rings where `RingCount(1.0)` is 76. The same one-ring shortfall occurs at most two-decimal values of maxR. Tessellation.SurfaceDataSizes and Buffers.SurfaceVertexCount therefore count the cells of the exact-real grid.
- `Math.cos`, `Math.sin` and `Math.sqrt` are parameters with no values. `Math.pow(r, 3)` is written as `r·r·r`.
- Tessellation.CreateSurfaceData: requires `maxR ≠ 0.25` and that the normal estimator is defined at every corner it visits. At those points the source divides by zero and pushes NaN or ±Infinity, which the model has no value for.
- Tessellation.PushRing: the same two preconditions, for one ring.
- Buffers.Model.BufferData: the three lists are not kept, since only their GPU upload uses them; only the count is modelled.
