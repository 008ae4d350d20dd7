# OpenGL house scene: camera handler, skybox layout and mesh conversion

This project models the three parts of a small Rust/glium renderer whose behaviour can be stated without a GPU:

- **The camera event handler** (`EventHandler::handle_event`, src/event_handler/mod.rs). A class `EventHandlers.EventHandler` holds the eight mutable fields: `grow`, `tilt`, `spin`, `translateX`, `translateY`, `direction`, `position` and `up`. Its method `HandleEvent` updates them in place and returns the new control flow. It is proved equal to the pure transition `Handle`. Every keyboard event that carries a key code runs one row of the key table, which is data in `KeyEffect`. It then clamps `grow` to 0.01 or [0.02, 1] and `tilt` to [-1, 1]. A close request sets `Exit`. Every other event changes nothing. `Run` folds `Handle` over a sequence of events.
- **The skybox** (src/skybox/mod.rs): the constant cube mesh (8 vertices, 36 `u16` indices) and the `u32` arithmetic in `map_to_cube` that cuts a width × height image into a 4 × 3 grid and pairs six of its cells with the six cube-map layers.
- **Mesh post-processing** (`parse_model`, src/model/model_parser/mod.rs). The loaded object goes in and three sequences come out: vertices (positions divided by 200, texture coordinates), normals (copied) and indices (widened from `u16` to `u32`).

Modules: `Numeric` (the `u16`/`u32`/`i32` ranges, the `as i32` and `as u32` casts), `Vectors` (`Vec3`, `Vec2`, `cross_product`), `EventHandlers`, `Skybox`, `ModelParser`.

Modelling choices:

- `f32` is `real`. No rounding, NaN or infinity is modelled.
- Rust's `x as i32` on a `u32` is modelled as two's-complement reinterpretation (`Numeric.AsI32`). It is then proved lossless for `width / 4` and `height / 3`.
- The `&mut ControlFlow` argument of `handle_event` is an input value plus the method's returned value.
- The window event types are reduced to what the handler distinguishes. Keys the handler does not name are `OtherKey(code)`. Window events other than keyboard input and close requests are `OtherWindowEvent`. Start causes other than `ResumeTimeReached` and `Init` are `OtherCause`.

Where the code differs from the project's own description, the model follows the code:

- **Key releases move the camera too.** The guard at src/event_handler/mod.rs:61 is `if let state = ElementState::Pressed`. That pattern binds a fresh name, so it always matches, even though the comment above it says "if the key is pressed". `Handle` ignores the key state (`ReleaseActsLikePress`).
- **`direction` is a facing vector, not a look-at point.** W adds `STEP * direction` to `position` and leaves `direction` unchanged. Nothing is normalised, and no basis is rebuilt from `direction - position`.
- The handler has no bounds check on the position, no angle-based yaw, and no keys for field of view or near/far planes.
- **The cube has no top or bottom.** The index groups labelled "top" and "bottom" reuse vertices 0–3 (all at z = +1) and 4–7 (all at z = −1). They duplicate the front and back faces, and no triangle lies in the plane y = ±1 (`TrianglesLieOnFaces`, `NoTriangleOnYFaces`).

## Model

| member | source | states |
|---|---|---|
| `Numeric.AsI32` | src/skybox/mod.rs:127-128 | `as i32` keeps the value modulo 2^32, and keeps it exactly if and only if it is below 2^31 |
| `Numeric.WidenU16` | src/model/model_parser/mod.rs:35-39 | `as u32` on a `u16` keeps the value |
| `Vectors.CrossOrthogonal` | src/event_handler/mod.rs:7-13 | `cross_product(a, b)` has zero dot product with `a` and with `b` |
| `Vectors.CrossAntiCommutes` | src/event_handler/mod.rs:7-13 | swapping the arguments of `cross_product` negates the result |
| `Vectors.CrossOfDefaultBasis` | src/event_handler/mod.rs:7-13 | `cross_product((0,0,1), (0,1,0))` is (-1,0,0) |
| `EventHandlers.KeyEffect` | src/event_handler/mod.rs:64-89 | the key table; a key has no effect exactly when it is not one of the 23 listed keys |
| `EventHandlers.Nudge` | src/event_handler/mod.rs:71-87 | a one-component nudge changes exactly that component, by `delta` |
| `EventHandlers.ApplyEffect` | src/event_handler/mod.rs:62-89 | an effect writes only the field it names; `grow`, `tilt`, `up` and `translate_y` are never written; the empty effect changes nothing |
| `EventHandlers.ApplyKey` | src/event_handler/mod.rs:62-89 | each key writes at most the one field of its row (position, direction, spin or translate_x); an unmatched key changes nothing |
| `EventHandlers.ClampGrow` | src/event_handler/mod.rs:92-96 | the result is 0.01 or in [0.02, 1]; values in [0.02, 1] are kept; below 0.02 gives 0.01; above 1 gives 1 |
| `EventHandlers.ClampTilt` | src/event_handler/mod.rs:98-102 | the result is in [-1, 1]; values in range are kept; values outside go to the nearer bound |
| `EventHandlers.Clamp` | src/event_handler/mod.rs:92-102 | the clamp puts `grow` and `tilt` in range, keeps an in-range camera unchanged, and touches no other field |
| `EventHandlers.KeyEventClamps` | src/event_handler/mod.rs:54-102 | after any keyboard event with a key code, from any start, `grow` and `tilt` are in range (so `grow` is in [0.01, 1]) and the control flow is unchanged |
| `EventHandlers.ClampIdempotent` | src/event_handler/mod.rs:92-102 | clamping twice is clamping once |
| `EventHandlers.NoKeycodeChangesNothing` | src/event_handler/mod.rs:54-58 | a keyboard event without a virtual key code returns before the clamp and changes nothing |
| `EventHandlers.ReleaseActsLikePress` | src/event_handler/mod.rs:61 | a released key has exactly the effect of a pressed one |
| `EventHandlers.NonKeyEvents` | src/event_handler/mod.rs:106-117 | close-requested sets `Exit` and keeps every field; other window events, new-events and other events change nothing |
| `EventHandlers.UnmatchedKeyOnlyClamps` | src/event_handler/mod.rs:88-102 | an unmatched key changes the camera only through the clamp |
| `EventHandlers.KeyEventWritesOneField` | src/event_handler/mod.rs:64-102 | after a keyboard event, every field except the one the key's row names equals its clamped old value |
| `EventHandlers.ForwardBackCancel` | src/event_handler/mod.rs:65-67 | W then S, or S then W, gives back exactly the starting camera |
| `EventHandlers.StrafeCancel` | src/event_handler/mod.rs:62-68 | A then D, or D then A, gives back exactly the starting camera, since the cross product is recomputed from an unchanged `direction` and `up` |
| `EventHandlers.StrafeStep` | src/event_handler/mod.rs:62-66 | A adds `STEP * cross_product(direction, up)` to `position` |
| `EventHandlers.StrafeIsOrthogonal` | src/event_handler/mod.rs:62-68 | the step A makes is orthogonal to both `direction` and `up` |
| `EventHandlers.DefaultStrafeStep` | src/event_handler/mod.rs:122-134 | from the default eye and basis (origin, +z, +y), A moves `position` to (-0.05, 0, 0) |
| `EventHandlers.DefaultStrafeLeft` | src/event_handler/mod.rs:46-102 | the same for a whole keyboard event, pressed or released |
| `EventHandlers.ForwardBackEvents` | src/event_handler/mod.rs:46-102 | the event sequence W, S leaves the clamped starting camera and the same control flow |
| `EventHandlers.RunKeepsUp` | src/event_handler/mod.rs:33-119 | no sequence of events changes `up` or `translate_y`, and the control flow can only stay as it was or become `Exit` |
| `EventHandlers.RunKeepsInRange` | src/event_handler/mod.rs:92-102 | once `grow` and `tilt` are in range, they stay in range after any sequence of events |
| `EventHandlers.RunClampsAfterKey` | src/event_handler/mod.rs:92-102 | after any sequence that contains a keyboard event with a key code, `grow` and `tilt` are in range, from any start |
| `EventHandlers.EventHandler.constructor` | src/event_handler/mod.rs:28-30 | `new` stores its eight arguments unchanged, with no clamp |
| `EventHandlers.EventHandler.Default` | src/event_handler/mod.rs:122-134 | `default()` gives grow 1, tilt, spin and both translations 0, direction (0,0,1), position at the origin, up (0,1,0); this state is in range |
| `EventHandlers.EventHandler.ApplyKeyInPlace` | src/event_handler/mod.rs:62-89 | the in-place key `match` leaves the fields equal to `ApplyKey` of the old ones |
| `EventHandlers.EventHandler.HandleEvent` | src/event_handler/mod.rs:33-119 | `handle_event` leaves the fields and the control flow equal to `Handle` of the old ones |
| `Skybox.CubeVertices` | src/skybox/mod.rs:68-86 | the cube has 8 vertices |
| `Skybox.CubeCorners` | src/skybox/mod.rs:68-86 | the 8 vertices are distinct corners with every coordinate ±1 (`side = 1`); vertices 0–3 have z = +1 and 4–7 have z = −1 |
| `Skybox.CubeIndices` | src/skybox/mod.rs:91-110 | there are 36 indices (12 triangles), each below the vertex count 8 |
| `Skybox.TrianglesLieOnFaces` | src/skybox/mod.rs:91-110 | every triangle's three corners share one coordinate; the "top" and "bottom" pairs lie in the same planes (z = +1, z = −1) as the "front" and "back" pairs |
| `Skybox.NoTriangleOnYFaces` | src/skybox/mod.rs:104-109 | no triangle lies in a plane y = constant, so the cube has no top or bottom face |
| `Skybox.FaceSize` | src/skybox/mod.rs:46 | the cube map edge `width / 4` is the largest `r` with `4r <= width` |
| `Skybox.Zip` | src/skybox/mod.rs:189 | `zip` has the length of the shorter input and pairs elements in order |
| `Skybox.StepCastsLossless` | src/skybox/mod.rs:121-128 | the `as i32` casts of `width / 4` and `height / 3` do not change the value |
| `Skybox.BlitTargetsShape` | src/skybox/mod.rs:121-165 | there are six rectangles, each `width / 4` (the cube-map edge) wide and `height / 3` high, at their grid cells, each inside the image |
| `Skybox.BlitTargetsDisjoint` | src/skybox/mod.rs:121-165 | the six rectangles are pairwise disjoint |
| `Skybox.CellsDistinct` | src/skybox/mod.rs:122-165 | the six cells are distinct cells of the 4 × 3 grid: the middle row plus column 1 of rows 0 and 2 |
| `Skybox.LayersAreAllFaces` | src/skybox/mod.rs:167-180 | the six layers are distinct and cover every cube-map face |
| `Skybox.CubeFacesPairing` | src/skybox/mod.rs:167-189 | the zip pairs Left→−X, Front→+Z, Right→+X, Back→−Z, Bottom→−Y, Top→+Y and uses all six of each |
| `ModelParser.ToVertices` | src/model/model_parser/mod.rs:18-25 | same length; the i-th position is the i-th loaded position divided by 200 per component; the texture coordinates are `texture[0]`, `texture[1]` |
| `ModelParser.ToNormals` | src/model/model_parser/mod.rs:27-33 | same length; the i-th normal is the i-th loaded normal, not scaled |
| `ModelParser.WidenIndices` | src/model/model_parser/mod.rs:35-39 | same length; each `u32` equals its `u16` source |
| `ModelParser.ParseModel` | src/model/model_parser/mod.rs:13-42 | vertices and normals have the loaded vertex count; indices have the loaded index count |
| `ModelParser.PositionsRecoverable` | src/model/model_parser/mod.rs:18-25 | multiplying an output position by 200 gives back the loaded position |
| `ModelParser.VerticesAndNormalsAligned` | src/model/model_parser/mod.rs:18-33 | the i-th vertex and the i-th normal come from the same loaded vertex |
| `ModelParser.IndicesLossless` | src/model/model_parser/mod.rs:35-39 | every output index is below 2^16 and narrows back to its source |
| `ModelParser.IndicesNotRangeChecked` | src/model/model_parser/mod.rs:35-42 | indices beyond the vertex count pass through unchanged |
| `ModelParser.ParseAppend` | src/model/model_parser/mod.rs:18-33 | converting two concatenated vertex lists gives the concatenation of the two results |

## Left out

- Single-precision rounding and NaN in the event handler. With NaN, the comparisons at src/event_handler/mod.rs:92-102 would leave `grow` and `tilt` unclamped; a real-valued model has no such value.
- The division by 200 in `parse_model` is exact over the reals; its `f32` rounding is not modelled.
- Opening the file, the `println!` calls and `obj::load_obj` in `parse_model`. These are I/O and a foreign crate; the loaded object is the input of `ParseModel`. The object's other fields (name, etc.) are not read by `parse_model` and are dropped.
- Texture loading in `Skybox::new`, `Skybox::draw`, and the framebuffer blit `for_each` in `map_to_cube` are GPU calls. The model stops at the list of (layer, rectangle) pairs that the blit consumes.
- The glutin event and window types are reduced to the cases the handler distinguishes. The `WaitUntil` instant is an opaque integer.
- The matrix builders (`translate!`, `rotate!`, `scale!`, `view_matrix`, `perspective_matrix`) and `Transform` are not part of this model. The window bootstrap, the code generator, the model-drawing wrappers and the global shader program are not part of it either.
