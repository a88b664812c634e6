# A verified model of the atom viewer's geometry generators and orbital camera

The program renders a nucleus sphere with electrons orbiting it and a camera the user
drags and zooms. This project models the two parts of `atomo.cpp` that are host-side
logic rather than OpenGL plumbing, and proves what they guarantee.

- **The mesh generators.**
  - `generateSphere` appends vertex positions, unit normals and a triangle index list
    for a UV sphere to three caller-owned `std::vector`s.
  - `generateOrbitXZ`, `generateOrbitYZ` and `generateOrbitDiagonal` append the
    `segments + 1` samples of a circle.
  - Each `std::vector` is a `Vectors.Vector` object whose `elems` sequence the
    methods extend with `PushBack`.
  - The loops are methods with loop invariants. They are proved equal to
    specification functions on sequences (`SphereVertices`, `SphereIndices`,
    `OrbitPath`), and lemmas about those functions give the counts, bounds, layout
    and shape of the buffers.
  - `M_PI`, `cos`, `sin` and the value of a floating-point division by zero are
    unknown values carried in a `FloatModel.Trig` record. The structural facts hold
    whatever these values are. The two geometric facts (points on the unit sphere,
    points at distance `radius`) are proved under the hypothesis
    `cos^2 + sin^2 == 1` at the angles involved.
- **The orbital camera.**
  - The seven globals `cameraDistance`, `yaw`, `pitch`, `lastX`, `lastY`,
    `firstMouse` and `mousePressed` are the fields of the class `OrbitCamera.Camera`.
  - Its three methods are the scroll, mouse-button and cursor-position callbacks.
    Each is written as the source's sequence of assignments and `if`s.
  - Each method is proved equal to a transition function on `CameraState` values:
    `Scrolled`, `ButtonChanged` or `CursorMoved`.
  - Those functions, their dispatch `Step` and the event fold `Run` carry the
    properties: the zoom and pitch limits always hold, zoom pins at its bounds, and
    yaw follows a drag. They also show how the first-sample baseline behaves.

Facts about the code that the model keeps as written:

- The zoom distance starts at 20.0 (atomo.cpp:11). The `cameraPos(0, 0, 6)` at
  atomo.cpp:318 is shadowed inside the render loop at atomo.cpp:328 and never read.
- A button release only clears `mousePressed` (atomo.cpp:181-182); `firstMouse` is set
  again only by a cursor move with the button up (atomo.cpp:187-188). A release and a
  press with no move in between therefore keep the old baseline
  (`StaleBaselineWithoutMove`).
- After the first sample of a drag sets the baseline (atomo.cpp:192-196), the delta code
  still runs, with a delta of zero, so the pitch clamp is applied again (`CursorMoved`).

## Model

| member | source | states |
|---|---|---|
| SphereMesh.GenerateSphere | atomo.cpp:77-120 | appends exactly the sphere's vertices to `vertices`, the same floats to `normals` and the sphere's triangle corners to `indices`, keeping what they held; appends `3 * (stackCount + 1) * (sectorCount + 1)` floats to each float vector and `6 * sectorCount * (stackCount - 1)` indices (none when `stackCount == 0`); the appended normals equal the appended positions |
| SphereMesh.AppendVertices | atomo.cpp:83-101 | the outer vertex loop appends the coordinates of all `stackCount + 1` rows, in order, to both vectors |
| SphereMesh.AppendVertexRow | atomo.cpp:88-100 | the inner vertex loop appends the `sectorCount + 1` points of row `i` to both vectors, from the row's `xy`, `z` and the step `sectorStep` |
| SphereMesh.AppendIndices | atomo.cpp:103-119 | the outer index loop appends the corners of every cell's triangles, row by row |
| SphereMesh.AppendIndexRow | atomo.cpp:104-118 | the inner index loop, with `k1` and `k2` advanced alongside `j`, appends the corners of the cells of row `i`: `(k1, k2, k1 + 1)` unless `i == 0`, `(k1 + 1, k2, k2 + 1)` unless `i == stackCount - 1` |
| SphereMesh.StackAngle | atomo.cpp:84 | the stack angle runs from `pi / 2` at row 0 to `-pi / 2` at row `stackCount`, pole to pole |
| SphereMesh.SectorAngle | atomo.cpp:89 | the sector angle is 0 at column 0 and `2 pi` at column `sectorCount`, so each row closes its seam |
| SphereMesh.SpherePoint | atomo.cpp:84-94 | each vertex contributes exactly three floats |
| SphereMesh.RowVerticesLayout | atomo.cpp:88-100 | a row holds `3 * n` floats after `n` points, point `j` at position `3 * j` |
| SphereMesh.RowVerticesStep | atomo.cpp:89-94 | one pass of the inner loop appends the point computed from `xy`, `z` and `j * sectorStep` |
| SphereMesh.GridVerticesLength | atomo.cpp:83-101 | after `n` rows the vertex list holds `3 * n * (sectorCount + 1)` floats |
| SphereMesh.GridVertexAt | atomo.cpp:83-101 | within the first `n` rows vertex `(i, j)` sits at position `3 * (i * (sectorCount + 1) + j)` |
| SphereMesh.SphereVertices | atomo.cpp:83-101 | what the vertex loops append: `stackCount + 1` rows of `sectorCount + 1` points, `3 * (stackCount + 1) * (sectorCount + 1)` floats |
| SphereMesh.SphereVertexAt | atomo.cpp:83-101 | every vertex `(i, j)` of the grid is present, at row-major (stack, sector) position `3 * (i * (sectorCount + 1) + j)` |
| SphereMesh.SpherePointOnUnitSphere | atomo.cpp:84-99 | when `cos^2 + sin^2 == 1` at both angles, every vertex has length 1, so pushing it as its own normal gives a unit normal |
| SphereMesh.CellTriangles | atomo.cpp:108-117 | a cell yields two triangles, one on the first or last row (none when both), and exactly the triangles it emits |
| SphereMesh.Emits | atomo.cpp:108-117 | every triangle a cell emits has `k2`, the vertex below `k1`, as its middle corner and its first corner on row `i` |
| SphereMesh.CellIndices | atomo.cpp:108-117 | the corners a cell contributes are `[k1, k2, k1 + 1]` unless on the first row followed by `[k1 + 1, k2, k2 + 1]` unless on the last row |
| SphereMesh.RowIndicesStep | atomo.cpp:107-118 | one pass of the inner index loop appends exactly those corners for `k1 = i * (sectorCount + 1) + j` and `k2 = k1 + sectorCount + 1` |
| SphereMesh.RowTrianglesMembers | atomo.cpp:107-118 | a triangle is among a row's first `n` cells' triangles exactly when one of those cells emits it |
| SphereMesh.GridTrianglesMembers | atomo.cpp:103-119 | a triangle is among the first `n` rows' triangles exactly when some cell of those rows emits it |
| SphereMesh.SphereTrianglesMembers | atomo.cpp:103-119 | the triangle list holds exactly the triangles some cell of the grid emits, in both directions |
| SphereMesh.CellWellFormed | atomo.cpp:104-117 | each triangle a cell emits has its three corners below `(stackCount + 1) * (sectorCount + 1)` and pairwise different |
| SphereMesh.SphereTrianglesWellFormed | atomo.cpp:103-119 | every triangle of the mesh indexes existing vertices and repeats no corner |
| SphereMesh.PoleRowsSkipped | atomo.cpp:108-117 | row 0 never yields a `(k1, k2, k1 + 1)` triangle and row `stackCount - 1` never yields a `(k1 + 1, k2, k2 + 1)` triangle |
| SphereMesh.RowTrianglesCount | atomo.cpp:107-118 | a row of `n` cells yields `n` times the number of triangles its cells emit (two, one on a pole row) |
| SphereMesh.GridTrianglesCount | atomo.cpp:103-119 | the first `n >= 1` rows yield `sectorCount * (2n - 1)` triangles, one row of `sectorCount` fewer once the last row is included |
| SphereMesh.SphereIndexCount | atomo.cpp:103-119 | the mesh has `2 * sectorCount * (stackCount - 1)` triangles and `6 * sectorCount * (stackCount - 1)` indices, a multiple of 3 (none when `stackCount == 0`) |
| SphereMesh.SphereIndicesInRange | atomo.cpp:103-119 | every appended index is below `(stackCount + 1) * (sectorCount + 1)` and the three corners of each index triple differ |
| SphereMesh.SphereIndices | atomo.cpp:103-119 | the index buffer holds three corners per triangle of the mesh, the corners of triangle `t` at positions `3t`, `3t + 1`, `3t + 2` |
| OrbitPaths.OrbitAngle | atomo.cpp:144 | the angle is 0 at the first sample and `2 pi` at sample `segments` |
| OrbitPaths.OrbitPoint | atomo.cpp:144-147 | each sample contributes exactly three floats |
| OrbitPaths.OrbitPrefixLength | atomo.cpp:143-148 | after `n` samples `3 * n` floats have been appended |
| OrbitPaths.OrbitPrefixAt | atomo.cpp:143-148 | sample `i` sits at position `3 * i` |
| OrbitPaths.OrbitPath | atomo.cpp:142-169 | what each orbit loop appends: `3 * (segments + 1)` floats when `segments >= 0`, none otherwise |
| OrbitPaths.OrbitPathAt | atomo.cpp:142-149 | samples `0 ..= segments` appear in order, sample `i` at position `3 * i` |
| OrbitPaths.OrbitPathPlanar | atomo.cpp:142-158 | every Y coordinate of the XZ orbit and every X coordinate of the YZ orbit is `0.0` |
| OrbitPaths.OrbitYZFromXZ | atomo.cpp:142-158 | the YZ orbit has the XZ orbit's length, with the XZ orbit's X values moved to Y and its Z values kept |
| OrbitPaths.OrbitOnCircle | atomo.cpp:144-147 | when `cos^2 + sin^2 == 1` at its angle, every sample is at distance `radius` from the centre |
| OrbitPaths.OrbitClosed | atomo.cpp:143-144 | the first sample is at angle 0 and the last at `2 pi`, so they coincide when `cos` and `sin` agree at 0 and `2 pi` |
| OrbitPaths.GenerateOrbitXZ | atomo.cpp:142-149 | appends exactly the XZ orbit, `3 * (segments + 1)` floats or none, keeping what the vector held |
| OrbitPaths.GenerateOrbitYZ | atomo.cpp:151-158 | appends exactly the YZ orbit, `3 * (segments + 1)` floats or none, keeping what the vector held |
| OrbitPaths.GenerateOrbitDiagonal | atomo.cpp:160-169 | appends exactly the same floats as `generateOrbitXZ` |
| OrbitCamera.Clamp | atomo.cpp:173-174 | the two-sided limit: the result lies in `[lo, hi]`, equals `x` inside, and the bound it runs past outside |
| OrbitCamera.Initial | atomo.cpp:9-17 | the initial camera lies within the zoom and pitch limits, at the far zoom bound, waiting for a first sample with the button up |
| OrbitCamera.Scrolled | atomo.cpp:171-175 | after a scroll the distance is the old distance minus `0.5 * yoffset`, clamped to `[1, 20]`, and nothing else changes |
| OrbitCamera.ButtonChanged | atomo.cpp:177-184 | a left-button press sets `mousePressed`, a left-button release clears it, and every other event changes nothing |
| OrbitCamera.CursorMoved | atomo.cpp:186-213 | with the button up only `firstMouse` is set; with it down the sample becomes the baseline, the first sample leaves yaw alone, a later one adds `0.1 * (x - lastX)` to yaw and `0.1 * (lastY - y)` to pitch, and pitch is clamped to `[-89, 89]` |
| OrbitCamera.Step | atomo.cpp:227-229 | handing any event to its callback keeps the zoom and pitch limits |
| OrbitCamera.Run | atomo.cpp:171-213 | delivering events in order, as `glfwPollEvents` does at atomo.cpp:321: without scroll events the distance never changes, and without cursor events yaw and pitch never change |
| OrbitCamera.RunPreservesLimits | atomo.cpp:171-213 | from within the limits, no sequence of events leaves them |
| OrbitCamera.ReachableWithinLimits | atomo.cpp:11-17 | every camera reachable from the initial state is within the limits |
| OrbitCamera.ScrollRepeatDistance | atomo.cpp:171-175 | `n` identical scrolls move the distance by `n` steps and stop it at the bound it runs into |
| OrbitCamera.ScrollPinnedAtNear | atomo.cpp:171-175 | at distance 1, scrolling further in any number of times changes nothing |
| OrbitCamera.ScrollPinnedAtFar | atomo.cpp:171-175 | at distance 20, scrolling further out any number of times changes nothing |
| OrbitCamera.ScrollReversible | atomo.cpp:171-175 | a scroll that hits neither bound is undone by the opposite scroll |
| OrbitCamera.FirstSampleIsBaseline | atomo.cpp:192-208 | the first pressed sample only records the baseline and clears `firstMouse`; yaw and pitch are unchanged |
| OrbitCamera.DragYawAccumulates | atomo.cpp:186-208 | during a drag yaw turns by `0.1` times the horizontal distance from the baseline to the last sample, however the motion is split |
| OrbitCamera.FreshBaselineAfterReleasedMove | atomo.cpp:177-208 | a release, a move with the button up, a press and a move leave yaw and pitch unchanged |
| OrbitCamera.StaleBaselineWithoutMove | atomo.cpp:177-208 | a release and a press with no move in between keep the old baseline, so the next sample turns yaw by the whole distance from the end of the previous drag |
| OrbitCamera.Camera.constructor | atomo.cpp:11-17 | the globals start at their initial values |
| OrbitCamera.Camera.ScrollCallback | atomo.cpp:171-175 | `scroll_callback` performs `Scrolled` on the globals and leaves the distance in `[1, 20]` |
| OrbitCamera.Camera.MouseButtonCallback | atomo.cpp:177-184 | `mouse_button_callback` performs `ButtonChanged` on the globals |
| OrbitCamera.Camera.CursorPositionCallback | atomo.cpp:186-213 | `cursor_position_callback` performs `CursorMoved` on the globals and keeps the limits |

## Left out

- GLSL shader sources and lighting (atomo.cpp:23-75): GPU programs held in string literals.
- `createShaderProgram` and all VAO/VBO/EBO setup and draw calls in `main`: thin wrappers over the OpenGL API.
- The per-frame model matrices and the eye-position formula in `main`: `glm` library calls whose results depend on floating-point trigonometry.
- The GLFW window, the event loop and `glfwGetTime`: I/O and the clock. The `window` parameter of the callbacks is dropped, and event delivery is the `Run` fold over a given event sequence.
- The numeric values of `M_PI`, `cos` and `sin`: they are unknowns in `FloatModel.Trig`.
- Float rounding: `float` and `double` arithmetic is exact real arithmetic, and the `double` to `float` narrowing of the cursor position is the identity.
- SphereMesh.GenerateSphere: requires `vertices` and `normals` to be different vectors, so the case where both arguments alias one `std::vector` is not modelled.
- SphereMesh.AppendIndexRow: indices are unbounded naturals, so 32-bit `unsigned int` wrap-around of `k1`, `k2` and the pushed indices is not modelled.
- SphereMesh.AppendVertices, SphereMesh.AppendVertexRow: the counters are unbounded naturals, so the source's `unsigned int` loops `i <= stackCount` and `j <= sectorCount`, which never end when a count is `UINT_MAX` because the counter wraps to 0, always end in the model.
- SphereMesh.StackAngle, SphereMesh.SectorAngle: with a zero count the source multiplies `0` by the infinite step, so its coordinates are NaN; the model's `Mul(0, Trig.divByZero(..))` is `0`. Only the count, layout and index facts carry over to zero counts.
- `stackCount - 1` is compared as a mathematical integer, not as an `unsigned int`. The two differ only when `stackCount == 0`, and then the index loop does not run.
