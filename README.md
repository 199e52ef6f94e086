# Polygon-based polyhedron: authoring model

This project models the polygon-based polyhedron mesh geometry of the NeoAxis engine. The
geometry is a mesh thickened from a polygon, and the polygon's vertices are its Point child
components. The project also models the editor's creation mode that lets a user draw such a
polyhedron.

The Dafny model has four modules:

- `Options`: an `Option` type.
- `Vectors`: three-component vectors over exact reals, planes, the sum of a point list and its
  mean (centroid).
- `Polyhedron`: the geometry component, as the class `Geometry`. It holds:
  - the ordered child components, where a child is a Point with a transform, or anything else;
  - the `Clockwise`, `Height`, `InsideOut` and `AlwaysDisplayPointLabels` properties;
  - the "mesh must be recompiled" flag that property, child and transform changes raise;
  - the registration of the transform-changed handler with the owning mesh in space.
  It also covers the point queries (`GetPoints`, `GetPointPositions`, `GetPolygonPlaneByPoints`) and
  the gate in front of mesh generation (`GetProceduralGeneratedData`).
- `CreationMode`: the editor session `CreationModePolyhedron`. It places points by mouse
  clicks. Before three points exist, it uses the surface under the cursor. Once three points
  exist, it uses the polygon's plane. When the third point is placed, it infers `Clockwise` from
  the camera. Clicking the first point's hit box, or pressing Space or Return, starts the
  height stage. In that stage, mouse movement sets `Height`, and a click or the key finishes. On
  finish, the mesh in space moves to the centroid of the points. Escape cancels.

What the viewport and the math library compute is passed in as parameters:

- whether the mouse is in relative mode, and the mouse position;
- the surface point under the cursor (`probe`);
- the ray/plane intersection (`intersect`);
- the screen projection (`project`);
- the point of the mouse ray nearest a given point (`projectToRay`);
- the camera position and the viewport size;
- a vector's length (`length`, a square root that exact reals do not provide);
- the polyhedron generator (`generate`).

Each state-changing method states its whole new state: `State()` for the geometry, `Session()`
for the creation mode, and the mesh in space's transform.

## Model

| member | source | states |
|---|---|---|
| Polyhedron.Geometry.constructor | Sources/Engine/NeoAxis.Core/Components/Mesh/Simple/Component_MeshGeometry_PolygonBasedPolyhedron.cs:20-67 | A new geometry has no children and the default values: not clockwise, height 0, not inside out, labels not forced. It is disabled, with no handler registered. |
| Polyhedron.Geometry.SetClockwise | Sources/Engine/NeoAxis.Core/Components/Mesh/Simple/Component_MeshGeometry_PolygonBasedPolyhedron.cs:23-27 | Sets Clockwise and changes nothing else. It asks for a recompile exactly when the value changes. |
| Polyhedron.Geometry.SetHeight | Sources/Engine/NeoAxis.Core/Components/Mesh/Simple/Component_MeshGeometry_PolygonBasedPolyhedron.cs:37-41 | Sets Height and changes nothing else. It asks for a recompile exactly when the value changes. |
| Polyhedron.Geometry.SetInsideOut | Sources/Engine/NeoAxis.Core/Components/Mesh/Simple/Component_MeshGeometry_PolygonBasedPolyhedron.cs:50-54 | Sets InsideOut and changes nothing else. It asks for a recompile exactly when the value changes. |
| Polyhedron.Geometry.SetAlwaysDisplayPointLabels | Sources/Engine/NeoAxis.Core/Components/Mesh/Simple/Component_MeshGeometry_PolygonBasedPolyhedron.cs:63-67 | Sets the label flag and never asks for a recompile. |
| Polyhedron.PointsOf | Sources/Engine/NeoAxis.Core/Components/Mesh/Simple/Component_MeshGeometry_PolygonBasedPolyhedron.cs:343-346 | GetPoints: the Point children in child order. The result is never longer than the children, and each element is a Point child. |
| Polyhedron.PointsOfConcat | Sources/Engine/NeoAxis.Core/Components/Mesh/Simple/Component_MeshGeometry_PolygonBasedPolyhedron.cs:343-346 | The Points of two concatenated child lists are the Points of the first list followed by the Points of the second. |
| Polyhedron.Geometry.GetPointPositions | Sources/Engine/NeoAxis.Core/Components/Mesh/Simple/Component_MeshGeometry_PolygonBasedPolyhedron.cs:348-355 | The array has one entry per Point, in the same order. Entry k is the position of the k-th Point. |
| Polyhedron.PlaneByPoints | Sources/Engine/NeoAxis.Core/Components/Mesh/Simple/Component_MeshGeometry_PolygonBasedPolyhedron.cs:357-363 | With three or more points, the first three lie on the plane, and its normal is zero exactly when they are collinear. With fewer, it is the plane through the origin with normal Z. |
| Polyhedron.PlaneFixedOnceThreePoints | Sources/Engine/NeoAxis.Core/Components/Mesh/Simple/Component_MeshGeometry_PolygonBasedPolyhedron.cs:357-363 | Once three points exist, adding points never changes the polygon's plane. |
| Polyhedron.Geometry.GetProceduralGeneratedData | Sources/Engine/NeoAxis.Core/Components/Mesh/Simple/Component_MeshGeometry_PolygonBasedPolyhedron.cs:366-388 | Without a mesh in space, or with fewer than three points, every output is left as it came. Otherwise it sets the vertex layout and takes the indices from the generator. The vertex buffer is one record per generated position. The face structure is replaced only when the generator reports faces. The material is never touched. |
| Polyhedron.Geometry.AddComponent | Sources/Engine/NeoAxis.Core/Components/Mesh/Simple/Component_MeshGeometry_PolygonBasedPolyhedron.cs:410-416 | Appends the child, and asks for a recompile exactly when it is a Point. The polygon gains that Point's position at the end; adding any other child leaves the polygon as it was. |
| Polyhedron.Geometry.RemoveComponent | Sources/Engine/NeoAxis.Core/Components/Mesh/Simple/Component_MeshGeometry_PolygonBasedPolyhedron.cs:418-424 | Removes the child, and asks for a recompile exactly when it was a Point. Removing a Point drops exactly one Point; removing another child leaves the Points unchanged. |
| Polyhedron.PointsOfRemove | Sources/Engine/NeoAxis.Core/Components/Mesh/Simple/Component_MeshGeometry_PolygonBasedPolyhedron.cs:418-424 | On child lists: the Points after removing child i are the Points before it followed by the Points after it. When child i is a Point, the old Points are those same two runs with child i between them, so exactly that Point is dropped. Removing a non-Point child keeps the Points. |
| Polyhedron.PointsOfAround | Sources/Engine/NeoAxis.Core/Components/Mesh/Simple/Component_MeshGeometry_PolygonBasedPolyhedron.cs:343-346 | The Points of a child list split around one child are the Points before it, that child if it is a Point, and the Points after it. |
| Polyhedron.Geometry.OnEnabledInHierarchyChanged | Sources/Engine/NeoAxis.Core/Components/Mesh/Simple/Component_MeshGeometry_PolygonBasedPolyhedron.cs:426-438 | Under a mesh in space: enabling registers the handler once more, and disabling removes one registration (none when none is left). Without a mesh in space: nothing changes. |
| Polyhedron.Geometry.SetEnabledInHierarchy | Sources/Engine/NeoAxis.Core/Components/Mesh/Simple/Component_MeshGeometry_PolygonBasedPolyhedron.cs:426-438 | Keeps the invariant that the handler is registered exactly once while enabled under a mesh in space, and never otherwise. |
| Polyhedron.Geometry.SetMeshInSpaceTransform | Sources/Engine/NeoAxis.Core/Components/Mesh/Simple/Component_MeshGeometry_PolygonBasedPolyhedron.cs:440-443 | A change to the mesh in space's transform asks for a recompile exactly when the handler is registered. |
| Polyhedron.Geometry.SetPointTransform | Sources/Engine/NeoAxis.Core/Components/Mesh/Simple/Component_MeshGeometry_PolygonBasedPolyhedron.cs:514-520 | Only that Point's transform changes. A changed transform asks the geometry for a recompile. |
| Polyhedron.UniqueName | Sources/Engine/NeoAxis.Core/Components/Mesh/Simple/Component_MeshGeometry_PolygonBasedPolyhedron.cs:93-94 | The new name has the "Point" prefix, is numbered from 1, and no existing child has it. |
| Polyhedron.Geometry.CreatePoint | Sources/Engine/NeoAxis.Core/Components/Mesh/Simple/Component_MeshGeometry_PolygonBasedPolyhedron.cs:178-181 | Appends a Point with a fresh name at the position and asks for a recompile. The polygon becomes the old polygon plus that position. |
| CreationMode.CalculatePointPosition | Sources/Engine/NeoAxis.Core/Components/Mesh/Simple/Component_MeshGeometry_PolygonBasedPolyhedron.cs:118-138 | In relative mouse mode there is no position. Otherwise the position is the surface point under the cursor, if any. |
| CreationMode.CreationModePolyhedron.constructor | Sources/Engine/NeoAxis.Core/Components/Mesh/Simple/Component_MeshGeometry_PolygonBasedPolyhedron.cs:86-97 | The session starts placing points, with no hit box. Its first Point is at the surface point under the cursor, or at the mesh in space's own position when there is none. |
| CreationMode.CreationModePolyhedron.HeightStageStart | Sources/Engine/NeoAxis.Core/Components/Mesh/Simple/Component_MeshGeometry_PolygonBasedPolyhedron.cs:140-145 | Enters the height stage. The anchor moves to the surface point under the cursor, and is kept when there is none. |
| CreationMode.CreationModePolyhedron.OnMouseDown | Sources/Engine/NeoAxis.Core/Components/Mesh/Simple/Component_MeshGeometry_PolygonBasedPolyhedron.cs:147-216 | Buttons other than left change nothing and are not handled. In the height stage a left click finishes without adding a point. On the start point's hit box it enters the height stage without adding a point. Otherwise it adds the point PlacedPosition gives, and is handled exactly when there is one. Clockwise only ever turns on, and only when the new point is the third. Given an intersection that stays on its plane, the polygon stays planar. |
| CreationMode.PlacedPosition | Sources/Engine/NeoAxis.Core/Components/Mesh/Simple/Component_MeshGeometry_PolygonBasedPolyhedron.cs:165-192 | There is no position in relative mode. Below three points the position is the surface probe. With three or more, it is the hit on the polygon's plane under the cursor. |
| CreationMode.CreationModePolyhedron.PlacePoint | Sources/Engine/NeoAxis.Core/Components/Mesh/Simple/Component_MeshGeometry_PolygonBasedPolyhedron.cs:165-213 | The point-adding branch: it adds exactly the PlacedPosition point, or nothing, and the session fields are unchanged. |
| CreationMode.CreationModePolyhedron.AddPointOnPlane | Sources/Engine/NeoAxis.Core/Components/Mesh/Simple/Component_MeshGeometry_PolygonBasedPolyhedron.cs:169-184 | With three or more points, it adds the hit of the mouse ray on the polygon's plane, or nothing when there is no hit. Clockwise is left alone. Given an intersection that stays on its plane, the polygon stays planar. |
| CreationMode.CreationModePolyhedron.AddPointDetectingClockwise | Sources/Engine/NeoAxis.Core/Components/Mesh/Simple/Component_MeshGeometry_PolygonBasedPolyhedron.cs:190-206 | After a point is added below three points, Clockwise becomes true exactly when the points now number three and the camera test holds. Otherwise Clockwise keeps its value. |
| CreationMode.CameraNearerThanNormalTip | Sources/Engine/NeoAxis.Core/Components/Mesh/Simple/Component_MeshGeometry_PolygonBasedPolyhedron.cs:199-204 | The strict d1 < d2 camera test: the camera is nearer the first point than the tip of the unit normal placed at the first point. Three collinear points never pass it. |
| CreationMode.PlacementKeepsPolygonPlanar | Sources/Engine/NeoAxis.Core/Components/Mesh/Simple/Component_MeshGeometry_PolygonBasedPolyhedron.cs:169-182 | A planar polygon stays planar when the next point is placed. The third point defines the plane, and later points are hits on that plane. |
| CreationMode.CreationModePolyhedron.OnMouseMove | Sources/Engine/NeoAxis.Core/Components/Mesh/Simple/Component_MeshGeometry_PolygonBasedPolyhedron.cs:218-230 | Only in the height stage, the height becomes the distance from the anchor to the mouse ray, which is never negative. Outside the height stage the geometry is unchanged. |
| CreationMode.CreationModePolyhedron.OnKeyDown | Sources/Engine/NeoAxis.Core/Components/Mesh/Simple/Component_MeshGeometry_PolygonBasedPolyhedron.cs:232-250 | Space or Return starts the height stage, or finishes when already in it. Escape cancels. These three keys are handled and no other key is; other keys change nothing. |
| CreationMode.SizeInPixels | Sources/Engine/NeoAxis.Core/Components/Mesh/Simple/Component_MeshGeometry_PolygonBasedPolyhedron.cs:265-272 | The hit box size is 20 pixels at distance 0. It is at most 20 for any distance, stays above 5 for distances below the far limit of 100, and is exactly 5 at that limit. |
| CreationMode.HitBoxShrinksWithDistance | Sources/Engine/NeoAxis.Core/Components/Mesh/Simple/Component_MeshGeometry_PolygonBasedPolyhedron.cs:265-272 | The hit box never grows as the first point moves farther from the camera. |
| CreationMode.StartPointRectangle | Sources/Engine/NeoAxis.Core/Components/Mesh/Simple/Component_MeshGeometry_PolygonBasedPolyhedron.cs:267-276 | There is a hit box exactly when the distance is below 100. It is centred on and contains the first point's screen position, and it is 1.5 times the pixel size over the viewport size on each axis. |
| CreationMode.CreationModePolyhedron.OnUpdateBeforeOutput | Sources/Engine/NeoAxis.Core/Components/Mesh/Simple/Component_MeshGeometry_PolygonBasedPolyhedron.cs:252-290 | The hit box is recomputed each frame. There is one only while placing points, with more than two points, when the first point projects onto the screen. Nothing else changes. |
| CreationMode.FinishedTransform | Sources/Engine/NeoAxis.Core/Components/Mesh/Simple/Component_MeshGeometry_PolygonBasedPolyhedron.cs:313-321 | With no points, the transform is kept. Otherwise the new transform is at the centroid, with no rotation and unit scale. |
| CreationMode.CreationModePolyhedron.Finish | Sources/Engine/NeoAxis.Core/Components/Mesh/Simple/Component_MeshGeometry_PolygonBasedPolyhedron.cs:308-338 | On confirm, the mesh in space moves to the centroid of the points (when there are any) and a recompile is requested. On cancel, neither the geometry nor the mesh in space changes. Both record the end of the session. |
| CreationMode.Accumulate | Sources/Engine/NeoAxis.Core/Components/Mesh/Simple/Component_MeshGeometry_PolygonBasedPolyhedron.cs:316-318 | The accumulated position is the sum of all the points, in order. |
| Vectors.SumDeviations | Sources/Engine/NeoAxis.Core/Components/Mesh/Simple/Component_MeshGeometry_PolygonBasedPolyhedron.cs:316-319 | Summing each point minus c gives the sum of the points minus n copies of c, for n points. |
| Vectors.CentroidBalances | Sources/Engine/NeoAxis.Core/Components/Mesh/Simple/Component_MeshGeometry_PolygonBasedPolyhedron.cs:316-319 | The position Finish computes is the balance point: the points' offsets from it sum to zero. |
| Vectors.CentroidTranslates | Sources/Engine/NeoAxis.Core/Components/Mesh/Simple/Component_MeshGeometry_PolygonBasedPolyhedron.cs:316-319 | Shifting every point by t shifts the computed position by t. |
| Vectors.FromPoints | Sources/Engine/NeoAxis.Core/Components/Mesh/Simple/Component_MeshGeometry_PolygonBasedPolyhedron.cs:359-360 | The plane through three points contains all three, and its normal is orthogonal to both edges. The normal is zero exactly when the three points are collinear. |
| Vectors.NormalZeroIffCollinear | Sources/Engine/NeoAxis.Core/Components/Mesh/Simple/Component_MeshGeometry_PolygonBasedPolyhedron.cs:359-360 | The cross product of the two edges from the first point is zero exactly when the second point equals the first, or the second edge is a multiple of the first. |

## Left out

- Plane.FromPoints and vector normalisation belong to the engine's math library, which is not
  part of this model. The model's plane keeps the unnormalised cross product of the two edges,
  which gives the same set of points. The clockwise test normalises the normal by the supplied
  length. Which of the two normals the library picks, and what it returns for a zero vector,
  are assumptions.
- CreationMode.CameraNearerThanNormalTip: the lengths come from the supplied `length` function. The
  model does not prove that this test agrees with any square-root-free formulation.
- Floating-point rounding: all coordinates are exact reals.
- Ray construction, the cursor probe, the ray/plane intersection, the screen projection and
  ProjectPointToLine are parameters. `HitsOnPlane` states the one property the planarity result
  assumes of the intersection.
- Polyhedron.UniqueName: the numbering of GetUniqueName belongs to the component framework. The
  model picks one more than the largest index in use and claims only that the name is fresh,
  starts with "Point" and is numbered from 1.
- The property setters: the change test inside the framework's reference-field plumbing is
  modelled as value inequality. The Changed events have no subscribers in this model.
- Reparenting the geometry: the owning mesh in space is fixed at construction.
- The vertex packing in GetProceduralGeneratedData (lines 385-406) is left out. That covers
  the inverse transforms, the per-vertex position, normal, tangent, colour and texture
  coordinate, and the pointer arithmetic. The model keeps the buffer's size only. The generator
  is a parameter.
- Polyhedron.Geometry.GetProceduralGeneratedData: the fatal log on a vertex size mismatch
  becomes a precondition that the size is that of the one-texture-coordinate record.
- CreationMode.StartPointRectangle: requires a viewport of positive size in pixels. With a
  zero-sized viewport, the source divides by zero.
- In Finish, attaching the points to the mesh in space (line 324-325) and selecting it in the
  editor (lines 328-331) are left out: they are framework and UI calls. The base class's end of
  the session is recorded as `finished`.
- What happens after Finish belongs to the base class ObjectCreationMode (line 338), which is
  not part of this model. The model takes it that a finished mode receives no further events,
  and states this as a precondition (`finished.None?`) on OnMouseDown, OnMouseMove, OnKeyDown and
  OnUpdateBeforeOutput. What the source would do on an event after Finish is not modelled.
- The hit box's colour and quad drawing (lines 278-284), the instruction text
  (lines 292-306), and the Point's label visibility and selection-by-cursor rules
  (lines 458-512) are left out. They are rendering and UI only.
