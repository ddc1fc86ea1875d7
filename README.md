# Box meshes and mouse look of a fly-camera demo

This project models the two pieces of sequential logic in a small OpenGL
first-person demo, and proves properties of them in Dafny.

- **Box mesh generation** (`Block._generate` and `Block.__init__` in
  block.py). A box has a width, height and depth, a floor, wall and top
  colour, and an optional set of "open" face indices. It becomes a flat,
  interleaved vertex list: x, y, z, r, g, b per vertex, six vertices per face,
  taken from a fixed table of six faces. Open faces are skipped. The vertex
  count is the list length divided by six. `Blocks.Generate` keeps the
  source's loops: a `for` over the face table that skips open faces with
  `continue`, and an inner loop stepping through the 18 coordinates three at
  a time (`Blocks.EmitFace`). It is proved equal to the specification
  function `Blocks.Mesh`. The counts, face order, colours, planes and bounds
  are lemmas about `Mesh`.
- **Mouse look** (`Camera.__init__` and `Camera.process_mouse` in
  camera.py). `Cameras.Camera` is a class with the source's fields. Its
  `ProcessMouse` method updates them in the source's order and is tied to the
  pure transition `Cameras.MouseStep`. Its invariant keeps the pitch in
  [-89, 89] and the up vector fixed. The rules (no jump on the first event,
  Y inverted, sensitivity 0.1, pitch clamped, yaw unbounded) are lemmas about
  `MouseStep` and about `Replay`, which applies a sequence of events.

Coordinates, colours and angles are `real`. The source uses Python floats,
then float32 for upload. The constant 0.1 and the halvings are exact here.

Files: wrappers.dfy (Option and Result), vectors.dfy (`Vec3`, standing for
`glm.vec3`), blocks.dfy (block.py), cameras.dfy (camera.py).

The vertex count is often described as `(6 - |open_faces|) * 6`. That holds
exactly when every open index is in 0..5 (`Blocks.ClosedFacesOfSubset` and
`Blocks.ClosedFacesFormulaNeedsSubset`). The code counts the indices 0 to 5
that are not in the open set, and any other index in the set changes nothing
(`Blocks.ClosedFacesCount`, `Blocks.MeshIgnoresOtherIndices`). The model
follows the code.

## Model

| member | source | states |
|---|---|---|
| `Blocks.AttributeLayout` | block.py:47-50 | stride is 6 floats of 4 bytes (24); the colour attribute starts at byte 12, right after the 3 position floats, and ends at the stride |
| `Blocks.FaceTable` | block.py:19-28 | the table has six faces, each of 18 coordinates (six corners) |
| `Blocks.FaceTableCorner` | block.py:19-27 | corner j of face f has face f's colour role (wall for 0-3, floor for 4, top for 5); each coordinate is plus or minus the half-extent; faces 0/1 lie at z = -z/+z, 2/3 at x = -x/+x, 4/5 at y = -y/+y |
| `Blocks.FaceTableOnFaces` | block.py:19-27 | every corner of the face table satisfies the per-face colour, plane and bound facts |
| `Blocks.Interleave` | block.py:35-36 | n corners interleaved with a colour are exactly 6n floats |
| `Blocks.InterleaveAt` | block.py:34-36 | vertex j of the interleaved output is corner j's three coordinates followed by r, g, b |
| `Blocks.EmitFace` | block.py:34-36 | the inner loop appends exactly the face's 36 interleaved floats to the list |
| `Blocks.MeshOf` | block.py:30-36 | emitting a list of faces gives 36 floats per face |
| `Blocks.MeshOfAt` | block.py:30-36 | vertex k of the emitted faces is corner k mod 6 of the (k div 6)-th face listed |
| `Blocks.VisibleUpTo` | block.py:31-33 | every face the loop emits is below the bound and is not open |
| `Blocks.VisibleExactlyClosed` | block.py:31-33 | every closed face below the bound is emitted, and faces are emitted in strictly ascending index order |
| `Blocks.ClosedFacesStep` | block.py:31-33 | adding face n to the range adds n to the closed set exactly when n is not open |
| `Blocks.VisibleCount` | block.py:31-33 | the number of emitted faces equals the number of indices in range that are not open |
| `Blocks.ClosedFaces` | block.py:31-33 | definition: the set of indices below the bound that are not open, the faces the loop does not skip |
| `Blocks.AllFaces` | block.py:21-28 | the face indices of the table, 0 to 5: six of them |
| `Blocks.ClosedFacesCount` | block.py:31-33 | for any open set, the closed faces number 6 minus the open indices that lie in 0..5 |
| `Blocks.ClosedFacesOfSubset` | block.py:31-33 | for an open set within 0..5, the closed faces number 6 minus the size of the open set, so the count is 6 * (6 minus that size) |
| `Blocks.ClosedFacesFormulaNeedsSubset` | block.py:31-33 | if the closed faces number 6 minus the size of the open set, every open index is in 0..5 |
| `Blocks.OpenSet` | block.py:16-17 | definition: `None` stands for the empty set, any other open set for itself |
| `Blocks.Visible` | block.py:31-33 | definition of the faces the loop emits for an open set; each is in 0..5 and not open |
| `Blocks.Mesh` | block.py:15-36 | definition: the vertex list `_generate` builds (face table from the half-extents, then the faces that are not open); it has 36 floats per emitted face |
| `Blocks.Generate` | block.py:15-36 | the built list equals `Mesh` of the inputs (with `None` read as the empty set); its length is 6 * count; count is 6 * the number of indices 0..5 not in the open set (line 54) |
| `Blocks.MeshLength` | block.py:30-36 | the mesh has 6 floats * 6 vertices for each index 0..5 that is not open |
| `Blocks.MeshVertex` | block.py:21-36 | vertex k of the mesh is corner k mod 6, in table order, of the (k div 6)-th emitted face, and that face is in 0..5 and not open |
| `Blocks.MeshOfOnFaces` | block.py:21-36 | if every table corner lies on its face, so does every emitted vertex |
| `Blocks.MeshVertexOnFace` | block.py:19-36 | every mesh vertex has its face's colour (wall, floor or top), lies on its face's plane (z = -depth/2 for face 0, ..., y = +height/2 for face 5), and each coordinate is plus or minus the half-extent on its axis |
| `Blocks.MeshFaceOrder` | block.py:31-36 | faces appear in ascending index order along the list; two vertices belong to the same face exactly when they are in the same run of six |
| `Blocks.ClosedFaceHasRun` | block.py:31-36 | a closed face occupies one run of six consecutive vertices |
| `Blocks.RunFaceIsClosed` | block.py:31-33 | a face that occupies a run of vertices is not open |
| `Blocks.MeshCoversClosedFaces` | block.py:31-36 | a face appears in the list, as exactly one run of six vertices, if and only if it is in 0..5 and not open |
| `Blocks.VisibleIgnoresOtherIndices` | block.py:31-32 | two open sets that agree on the indices below the bound emit the same faces |
| `Blocks.MeshIgnoresOtherIndices` | block.py:31-32 | open-set members outside 0..5 do not change the mesh |
| `Blocks.AllFacesVisible` | block.py:30-33 | with nothing open, faces 0 to 5 are all emitted, in order |
| `Blocks.NoOpenFacesIsWholeBox` | block.py:16-17 | `open_faces=None` gives the same mesh as the empty set: 36 vertices |
| `Blocks.WholeBoxSpansExtents` | block.py:19-23 | with nothing open, the mesh has both opposite corners (-w/2, -h/2, -d/2) and (w/2, h/2, d/2), so its positions span the whole box |
| `Blocks.SceneFaceCounts` | main.py:49-51 | the open sets {3}, {2} and {0, 1} leave 5, 5 and 4 faces closed |
| `Blocks.SelectColors` | block.py:9-13 | the lookups succeed if and only if "floor", "wall" and "top" are all keys, and then give those three colours; otherwise the KeyError names the first missing key in the order floor, wall, top |
| `Blocks.NewBlock` | block.py:7-13 | construction fails with that KeyError exactly when a colour is missing; otherwise the block keeps the position, its vertices are the mesh of the selected colours, its count is 6 * the closed faces, and its byte size is count * 24 |
| `Blocks.SceneColors` | main.py:42-46 | definition: the demo's colour dictionary, floor (0.2, 0.2, 0.3), wall (0.8, 0.1, 0.4), top (0.3, 0.3, 0.4) |
| `Blocks.CreateScene` | main.py:41-52 | the demo scene has three blocks at (-10,0,0), (10,0,0) and (0,0,0) with counts 30, 30 and 24 |
| `Cameras.Min` | camera.py:31 | the result is the smaller argument |
| `Cameras.Max` | camera.py:31 | the result is the larger argument |
| `Cameras.Clamp` | camera.py:31 | the result is in [lo, hi]; it is the value itself when in range, lo below and hi above |
| `Cameras.InitialLook` | camera.py:10-15 | a new camera's pitch is in range and `firstMouse` is set |
| `Cameras.MouseStep` | camera.py:18-31 | after any event, lastX and lastY are the event's position, `firstMouse` is false and the pitch is in [-89, 89] |
| `Cameras.FirstEventNoJump` | camera.py:18-24 | on the first event yaw and pitch do not change, whatever the position |
| `Cameras.LaterEventAccumulates` | camera.py:23-31 | on later events yaw grows by (x - lastX) * 0.1 and pitch becomes clamp(pitch + (lastY - y) * 0.1, -89, 89) |
| `Cameras.YawIsUnbounded` | camera.py:29 | yaw is not wrapped: 3600 pixels to the right adds 360 degrees |
| `Cameras.PitchFollowsInvertedY` | camera.py:24-31 | moving the cursor up never lowers pitch, and raises it below the limit; moving it down never raises pitch, and lowers it above the lower limit; no vertical move leaves it |
| `Cameras.Replay` | camera.py:17-31 | definition: the look state after successive `process_mouse` calls, one per cursor event, in order |
| `Cameras.ReplayInvariant` | camera.py:17-31 | after any sequence of events the pitch is in [-89, 89]; after a non-empty one `firstMouse` is false and lastX, lastY are the last event's position |
| `Cameras.FirstMouseStaysCleared` | camera.py:18-21 | once `firstMouse` is false no sequence of events sets it again |
| `Cameras.TwoEventExample` | camera.py:18-31 | from a new camera, events (100, 100) then (110, 95) give yaw -89 and pitch 0.5 |
| `Cameras.Camera.constructor` | camera.py:5-15 | position (0, 2, 5), front (0, 0, -1), up (0, 1, 0), yaw -90, pitch 0, lastX 400, lastY 300, `firstMouse` set; the invariant holds |
| `Cameras.Camera.ProcessMouse` | camera.py:17-38 | keeps the invariant (pitch in range, up fixed); the new yaw, pitch, lastX, lastY and `firstMouse` are `MouseStep` of the old ones; front is overwritten with the direction for the new angles; position and up do not change |
| `Cameras.MouseLookExample` | camera.py:17-31 | through the class: a new camera given events (100, 100) and (110, 95) ends at yaw -89 and pitch 0.5 |

## Left out

- The OpenGL calls are not modelled: vertex array and buffer creation, `glBufferData`, the attribute pointers (block.py:40-53) and `Block.draw` (block.py:56-60). They are foreign GPU calls. `Blocks.Block` keeps the vertex data in place of the vertex array handle. Only the layout constants are stated.
- The conversion to a float32 array (block.py:38) is not modelled. Coordinates are exact reals.
- `Cameras.Camera.ProcessMouse`: the recomputation of `front` with `cos`, `sin`, `radians` and `normalize` (camera.py:33-38) is library floating-point code. It is a function parameter `direction`. The unit length of `front` is therefore not stated.
- `Camera.process_keyboard` (camera.py:40-49) is not modelled. It polls window key state and does vector float arithmetic.
- main.py (window, callbacks, shaders, frame loop, matrices) is I/O and library orchestration. Only the scene parameters (main.py:41-52) are used, by `Blocks.CreateScene`.
- Colours are records of three reals. A colour value that is not a 3-tuple would make the unpacking at block.py:34 raise; that cannot be expressed here.
- The open set is a set of integers. Python accepts any container that supports `in`.
- Floating-point effects (rounding, NaN, infinities) in the offsets and the clamp are not modelled.
