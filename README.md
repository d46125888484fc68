# Free-fly camera model

A Dafny model of the free-fly camera of a small OpenGL demo (class `Camera`,
`Camera.h` and `Camera.cpp`). The camera turns three kinds of input into
updates of a few fields:

- a pointer event (`mouseInput`) turns the camera: it changes `yaw`, `pitch`
  and the view direction `Front`. The very first event only records where the
  pointer is, so that an arbitrary first position causes no jump;
- a scroll event (`scrollInput`) zooms: it changes the field of view `fov`;
- a keyboard poll with the time since the last frame (`keyboardInput`) walks:
  it moves `Pos` along `Front` (W/S) and sideways (A/D), and Escape asks for the
  window to close.

Files:

- `glm.dfy` (module `Glm`): 3-vectors over the reals, their arithmetic, dot
  and cross products, and `Numerics`, the floating-point library functions the
  camera calls (`cos`, `sin`, `glm::radians`, `glm::normalize`), kept
  uninterpreted.
- `camera_spec.dfy` (module `CameraSpec`): the three handlers as functions on
  values (`LookStep`, `ClampFov`, `Displacement`), their folds over event
  sequences, and the lemmas about them.
- `camera.dfy` (module `CameraModel`): the class `Camera` with the source's
  fields and default values, its three handlers as methods that update the
  fields in place, proved against the functions above, its four getters, the
  file-scope seeding variables as the class `MouseGlobals`, and client
  scenarios on fresh objects.

Modelling choices:

- Every scalar is a `real` and every `glm::vec3` is a `Vec3` of reals.
- `lastX`, `lastY` and `firstMouse` are file-scope globals in `Camera.cpp`,
  shared by every `Camera`. They are a separate object, `MouseGlobals`, that
  `MouseInput` is handed, so the sharing is part of the model
  (`SharedSeedScenario` shows its effect on a second camera).
- GLFW key polling is replaced by a `Keys` record of five booleans, and the
  call `glfwSetWindowShouldClose(window, true)` by the returned flag
  `closeRequested`.
- The trigonometry and `glm::normalize` are the fields of a `Numerics` value
  passed to the handlers that use them. Any functions will do, so the
  lemmas hold whatever those functions compute. `glm::cross` is the exact
  cross product.
- "Nothing else changes" is stated by field-level frames: `MouseInput` may
  write only `yaw`, `pitch`, `Front` and the globals; `ScrollInput` only
  `fov`; `KeyboardInput` only `Pos`. No method may write `Up`.
  `sensitivity` and `speedCoeff` are plain fields in C++ that nothing writes
  after initialisation, so they are constant fields here.
- Pitch is clamped to the closed interval [-89, 89]: the bounds themselves
  are kept (Camera.cpp:24-27).
- One keyboard poll handles W, S, A and D, in that order, each held key
  adding its own move (Camera.cpp:50-58).
- The pointer-seeding state is shared by every camera (Camera.cpp:3-5).

## Model

| member | source | states |
|---|---|---|
| `CameraSpec.ClampPitch` | Camera.cpp:24-27 | The result is in [-89, 89]; a value already in range is returned unchanged, values above go to 89 and values below go to -89. |
| `CameraSpec.ClampFov` | Camera.cpp:38-41 | The result is in [1, 45]; a value already in range is returned unchanged, values below go to 1 and values above go to 45. |
| `CameraSpec.LookStep` | Camera.cpp:8-27 | After one pointer event the seeding flag is cleared, the last sample is the event and pitch is in [-89, 89]. On the first event yaw is unchanged, and pitch too when it was in range. Later, yaw grows by exactly (xpos - lastX) times sensitivity, and pitch becomes the clamp of pitch + (lastY - ypos) times sensitivity. |
| `CameraSpec.Offset` | Camera.cpp:15-16 | A pointer offset in degrees is zero when the pointer has not moved, whatever the sensitivity; this is why the seeding event turns nothing. |
| `CameraSpec.Direction` | Camera.cpp:29-32 | For any cosine and sine with cos² + sin² = 1 at the two angles, the direction computed from yaw and pitch already has unit length, so the normalisation that follows only corrects rounding. |
| `Glm.CrossOrthogonal` | Camera.cpp:55-58 | The strafe direction before normalisation, cross(Front, Up), is perpendicular to both Front and Up. |
| `CameraSpec.LookRunInvariants` | Camera.cpp:5-27 | After any sequence of pointer events pitch is in [-89, 89], `firstMouse` is never set back to true, and the last sample is the last event. |
| `CameraSpec.YawTelescopes` | Camera.cpp:8-21 | Over any non-empty event sequence, yaw changes by (last x - first x) times sensitivity, where first x is the seeded sample. The first pointer position causes no jump. |
| `CameraSpec.PitchSaturates` | Camera.cpp:22-27 | At pitch 89 (or -89), further movement in the same direction leaves pitch at 89 (or -89). |
| `CameraSpec.ZoomRunInRange` | Camera.cpp:36-42 | After any non-empty sequence of scroll events, fov is in [1, 45]. |
| `CameraSpec.ZoomRunUnclamped` | Camera.cpp:37 | If no prefix of a scroll sequence pushes fov out of range, fov drops by exactly the sum of the offsets. |
| `CameraSpec.PairInTurn` | Camera.cpp:50-58 | Two opposing keys handled one after the other, in either order, add up to one net move: `speed` along the direction for one key alone, the same distance the other way for the other key alone, and nothing for neither or both. |
| `CameraSpec.DisplacementByKeys` | Camera.cpp:50-58 | The net displacement of a poll (`Displacement`, built from one `PairMove` per axis) is the sum of the moves of the held keys, each taken on its own: W adds speed along Front, S subtracts it, D adds speed along the strafe direction, A subtracts it. |
| `CameraSpec.NoDisplacement` | Camera.cpp:45-58 | With zero speed (deltaTime 0), no movement key held, or both keys of each pair held, the displacement is zero. |
| `CameraSpec.ForwardOnly` | Camera.cpp:45-53 | W alone for deltaTime moves exactly speedCoeff times deltaTime along Front, and S alone for the same time moves back by that amount. |
| `CameraSpec.SplitFrames` | Camera.cpp:45-58 | Displacement does not depend on the frame rate: two polls of dt1 and dt2 seconds move as far as one poll of dt1 + dt2 seconds. |
| `CameraSpec.DefaultPoseMoves` | Camera.cpp:45-53 | Looking down -Z at 2.5 units per second, whatever the strafe direction: W for no time moves nothing, W for one second moves (0, 0, -2.5), and W with S moves nothing. |
| `CameraModel.MouseGlobals.constructor` | Camera.cpp:3-5 | At program start the seeding state is lastX = 400, lastY = 300 and firstMouse = true. |
| `CameraModel.Camera.constructor` | Camera.h:13-22 | A fresh camera has Pos (0,0,3), Front (0,0,-1), Up (0,1,0), yaw -90, pitch 0, fov 45, sensitivity 0.1 and speedCoeff 2.5. These defaults already satisfy the pitch and fov ranges. |
| `CameraModel.Camera.MouseInput` | Camera.cpp:7-34 | yaw, pitch and the shared seeding state become LookStep of their old values. Front becomes normalize(Direction(yaw, pitch)) for the new angles only. Pitch ends in [-89, 89], firstMouse ends false, and nothing outside the frame changes. |
| `CameraModel.Camera.ScrollInput` | Camera.cpp:36-42 | fov becomes clamp(fov - yoffset, 1, 45), which is exactly fov - yoffset when that is in range. xoffset is ignored, and only fov may change. |
| `CameraModel.Camera.KeyboardInput` | Camera.cpp:44-59 | Pos moves by the net Displacement at speed speedCoeff times deltaTime: W/S along Front and D/A along normalize(cross(Front, Up)). Only Pos may change, and the close request is exactly Escape. |
| `CameraModel.Camera.GetPos` | Camera.h:28 | Returns the current position; as a function it changes nothing. |
| `CameraModel.Camera.GetFront` | Camera.h:29 | Returns the current view direction; as a function it changes nothing. |
| `CameraModel.Camera.GetUp` | Camera.h:30 | Returns the up vector; as a function it changes nothing. |
| `CameraModel.Camera.GetFov` | Camera.h:31 | Returns the current field of view, which is in [1, 45] on a camera whose ranges hold. |
| `CameraModel.ZoomScenario` | Camera.cpp:36-42 | On a fresh camera, scrolling by 10 gives fov 35, and a further scroll by 50 clamps fov to 1. |
| `CameraModel.FirstLookScenario` | Camera.cpp:7-27 | At program start, a first pointer event at (500, 400) leaves yaw -90 and pitch 0. A second event at (510, 405) gives yaw -89 and pitch -0.5. |
| `CameraModel.SharedSeedScenario` | Camera.cpp:3-13 | Once one camera has seen the pointer, a second camera's first event is not seeded: at (600, 400) after (500, 400), it turns the second camera by 10 degrees. |
| `CameraModel.WalkScenario` | Camera.cpp:44-53 | On a fresh camera, W for 0 s leaves Pos at (0,0,3). W for 1 s moves Pos to (0,0,0.5). W and S together for 1 s leave Pos there. Escape is not requested. |
| `CameraModel.WalkFromDefaultPose` | Camera.cpp:44-53 | The same walk on any camera in the default pose (Pos (0,0,3), Front (0,0,-1), Up (0,1,0), speedCoeff 2.5), whatever its angles and field of view, with only Pos changing. |

## Left out

- `Shader.cpp`, `Shader.h` and `main.cpp` are not part of this model: they are direct OpenGL and GLFW calls, file reading, image loading and matrix construction, with no state of their own to verify.
- Floating-point behaviour: all scalars are reals. Rounding and the storing of `double` pointer coordinates into `float` variables are not modelled.
- `cos`, `sin`, `glm::radians` and `glm::normalize` are uninterpreted. The model states only how their results are combined.
- CameraModel.Camera.MouseInput: does not establish that `Front` has unit length, or that Front, Up and the strafe vector are orthonormal, because `glm::normalize` and the trigonometry are uninterpreted. `Direction` is proved to have unit length when cos² + sin² = 1 holds, but nothing is assumed about what `glm::normalize` returns.
- GLFW key polling and the window's should-close flag are outside the model. Keys are an input record, and the close request is a returned boolean.
- The fields are public in C++, so any code may write them. The class invariant `Valid` (pitch in [-89, 89], fov in [1, 45]) holds from construction and is kept by every handler, but a direct write from outside can break it.
