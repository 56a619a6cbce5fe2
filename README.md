# Surveillance-feed viewer: a Dafny model

The page renders a small 3D scene from a user-driven primary camera and, in
the same frame loop, renders the scene from three fixed "surveillance"
cameras into offscreen render targets. Render target 2 is the texture of a
clickable screen in the scene; clicking the screen cycles the camera that
feeds it through cam1, cam2, cam3 and back to cam1. A green cube turns a
little each frame until it reaches a limit angle.

This project models the page's module-level state and its four handlers in
`vite-project/src/script.js`:

- `selection.dfy` (module `Selection`): the four cameras, the click handler's
  camera ladder, its equivalence with "one place on in a cycle of three", and
  the pixel to normalised-device-coordinate conversion with its inverse.
- `layout.dfy` (module `Layout`): render-target sizes (6·512 × 7·512), the
  shared projection settings, and the 6/7 aspect of the surveillance cameras.
- `animation.dfy` (module `Animation`): the cube's rotation step, its fixed
  point, its bound, the first frame that reaches the limit, and the closed
  form of the angle from any start over any number of frames.
- `rendering.dfy` (module `Rendering`): the renderer as a class with a bound
  destination and an append-only trace of bind and draw calls, the calls one
  frame makes, and the ordering properties of a frame.
- `session.dfy` (module `Session`): runs of interleaved clicks and frames; the
  feed drawn into target 2 in each frame is the selection in force when that
  frame starts.
- `viewer.dfy` (module `Viewer`): class `ViewerState`, the page's state, with
  methods `Click`, `RotateCube`, `GameLoop` and `OnWindowResize`, and
  `Dispatch`, which hands a whole sequence of clicks and frames to those
  handlers in arrival order.

The model follows the code as written, including where it departs from what
its comments suggest or from an index advanced modulo 3:

- The rotation does not wrap back to zero at a full turn, although the comment
  at line 214 speaks of continuous rotation. It is pinned to `maxRotation` and
  stays there, so the cube stops. With speed 0.05 and a limit of 2π, frame 126
  overshoots to 6.3 and frame 127 moves the cube back to 2π. So the angle is
  not monotone at that one step (`Animation.ConfiguredRotationStops`).
- The selection is an identity ladder on camera objects, not an index. On the
  surveillance cameras it is the successor modulo 3
  (`Selection.NextIsSuccessorModThree`). Its final `else` also sends the
  primary camera to cam1, and the model keeps that branch.
- Offscreen targets are not unbound one by one. The loop binds the next target
  directly and resets to the display (`null`) once, before the display pass.
- Target 3 is written by cam3 and target 4 by cam2. No surface samples
  targets 3 and 4, because the planes that would show them are commented out.
  Only target 2 is sampled, by the clickable screen.

The ray cast against the clickable screen is a parameter of `Click`:
`hitsScreen`, a function from normalised device coordinates to "the ray from
the primary camera meets the screen". The orbit controls move the primary
camera between clicks, so `Dispatch` takes a hit test indexed by the event's
position in the sequence. The window size is passed to the
handlers.

## Model

| member | source | states |
|---|---|---|
| Selection.NextCamera | vite-project/src/script.js:74-83 | A hit always selects a surveillance camera, and never the one that was selected. |
| Selection.NextIsSuccessorModThree | vite-project/src/script.js:74-83 | On the surveillance cameras, the ladder moves one place on in the cycle cam1, cam2, cam3, modulo 3. |
| Selection.AdvanceMovesBySlots | vite-project/src/script.js:72-84 | k hits move the selection k places round the three-camera cycle. |
| Selection.ThreeHitsReturn | vite-project/src/script.js:72-84 | Three consecutive hits return to the starting camera; one or two hits do not. |
| Selection.NdcX | vite-project/src/script.js:63 | A pointer inside the window gives x in [-1, 1]; the left edge gives -1 and the right edge +1. |
| Selection.NdcY | vite-project/src/script.js:64 | A pointer inside the window gives y in [-1, 1]; the axis is inverted: the top row gives +1 and the bottom row -1. |
| Selection.NdcRoundTrip | vite-project/src/script.js:63-64 | The pixel position can be recovered from the normalised coordinates, so no information is lost. |
| Selection.NdcOrientation | vite-project/src/script.js:63-64 | Moving right strictly raises x; moving down strictly lowers y. |
| Layout.RenderTargetSize | vite-project/src/script.js:47-50 | A render target is the plane size times 512 texels per unit, with the plane's proportions. |
| Layout.BufferKeepsPlaneAspect | vite-project/src/script.js:47-55 | The buffer's pixel aspect equals the plane's aspect, which is the aspect the surveillance cameras use. |
| Layout.ConfiguredSizes | vite-project/src/script.js:47-55 | The configured targets are 3072 × 3584 pixels; the plane and buffer aspect is 6/7. |
| Animation.RotateStep | vite-project/src/script.js:210-216 | One step never goes past the limit plus the speed; from at or below the limit it never decreases the angle; it either lands on the limit or increases the angle. |
| Animation.Rotated | vite-project/src/script.js:210-216 | After at least one frame the angle is below the limit plus one step, and it never drops below both the starting angle and the limit. |
| Animation.RotatedExtendedByOne | vite-project/src/script.js:210-216 | One more frame applies one more rotation step to the angle reached. |
| Animation.LimitIsFixedPoint | vite-project/src/script.js:213-215 | Once the angle equals the limit, every later step leaves it there. |
| Animation.RotationIsBounded | vite-project/src/script.js:207-216 | From at or below the limit plus one step, the angle never exceeds the limit plus one step, after any number of frames. |
| Animation.RotationClosedForm | vite-project/src/script.js:210-216 | If frame k is the first to reach the limit, the angle is start + n·speed up to frame k and exactly the limit from frame k+1 on. |
| Animation.RotationBeforeLimit | vite-project/src/script.js:210-212 | Up to the first frame at the limit, the angle after n frames is start + n·speed. |
| Animation.RotationAfterLimit | vite-project/src/script.js:213-215 | After the first frame at the limit, the angle is exactly the limit. |
| Animation.FirstFrameAtLimit | vite-project/src/script.js:210-216 | From any start there is a first frame count k at which the angle reaches the limit: start + k·speed is at least the limit and start + (k-1)·speed is below it. |
| Animation.RotationFromAnyStart | vite-project/src/script.js:210-216 | From any starting angle, the angle after n frames is start + n·speed up to that first frame k, and exactly the limit from frame k+1 on. |
| Animation.ConfiguredRotationStops | vite-project/src/script.js:207-216 | With speed 0.05 and a limit of 2π, the angle is 6.3 at frame 126 and the limit at every frame after. |
| Rendering.DrawsFollowBindingAt | vite-project/src/script.js:225-240 | In a consistent trace, each draw goes into the destination bound by the calls before it. |
| Rendering.AppendKeepsBinding | vite-project/src/script.js:225-240 | A bind, or a draw into the bound destination, keeps the trace consistent; a bind changes the binding. |
| Rendering.Renderer.constructor | vite-project/src/script.js:8-9 | A new renderer draws to the display, has the window's size and an empty trace. |
| Rendering.Renderer.SetRenderTarget | vite-project/src/script.js:225-237 | Binding records the call and makes `t` the destination of later draws. |
| Rendering.Renderer.Render | vite-project/src/script.js:226-240 | A draw is recorded with the destination bound at that moment. |
| Rendering.Renderer.Pass | vite-project/src/script.js:225-226 | A bind followed by a draw records both calls, leaves `t` bound and keeps the renderer consistent. |
| Rendering.Renderer.SetSize | vite-project/src/script.js:201 | The renderer size becomes the given width and height; nothing else changes. |
| Rendering.FrameEvents | vite-project/src/script.js:225-240 | A frame makes eight renderer calls, the last of which draws the primary camera to the display. |
| Rendering.FrameAlternatesBindAndDraw | vite-project/src/script.js:225-240 | The calls of a frame alternate bind and draw, and each draw immediately follows the bind of its own destination. |
| Rendering.FrameWritesEachTargetOnce | vite-project/src/script.js:224-240 | In a frame each destination is drawn exactly once: target 2 by the selection, target 3 by cam3, target 4 by cam2, the display by the primary camera. |
| Rendering.FrameOrdering | vite-project/src/script.js:224-240 | In a frame every offscreen draw precedes the reset to the display, and the reset precedes the display draw. |
| Rendering.FrameKeepsBinding | vite-project/src/script.js:224-240 | After any consistent history, a frame keeps the trace consistent and leaves the display bound. |
| Session.TraceLength | vite-project/src/script.js:217-244 | A run makes exactly eight renderer calls per frame and none per click. |
| Session.HitsAdvanceSelection | vite-project/src/script.js:70-84 | Over any run, frames and missed clicks leave the selection alone and each hit moves it one place round the cycle. |
| Session.FeedIsNeverStale | vite-project/src/script.js:217-244 | Over any run, the camera drawn into target 2 in each frame is the selection in force at that frame's start. |
| Session.FixedFeedsNeverChange | vite-project/src/script.js:228-240 | Over any run, targets 3 and 4 and the display get one draw per frame, each always from its own camera (cam3, cam2, the primary camera), whatever is clicked. |
| Session.RunKeepsBinding | vite-project/src/script.js:217-244 | Over any run, every draw goes into the destination bound at that point, and the run ends with the display bound. |
| Session.RunExtendedByOne | vite-project/src/script.js:217-244 | One more input appends one frame's calls for the selection reached (a frame), or advances the selection by the ladder (a hit), and changes nothing else. |
| Session.ClickWalkThrough | vite-project/src/script.js:58-84 | From cam1: hit, hit, miss, hit gives cam2, cam3, cam3, cam1. |
| Viewer.ViewerState.constructor | vite-project/src/script.js:14-208 | Start-up state: the selection is cam1, the cube is at 0, all targets are 3072 × 3584, the surveillance aspect is 6/7 and the primary aspect is the window's; the screen samples target 2 (lines 181-185) and the rotation constants are those of lines 207-208. |
| Viewer.ViewerState.Click | vite-project/src/script.js:61-85 | The click stores its normalised coordinates. On a hit the selection advances by the ladder; on a miss it is unchanged. Nothing else changes. |
| Viewer.ViewerState.RotateCube | vite-project/src/script.js:210-216 | The cube's angle takes one rotation step; nothing else changes and the state stays consistent. |
| Viewer.ViewerState.GameLoop | vite-project/src/script.js:217-244 | One frame appends exactly that frame's calls for the current selection, leaves the display bound, rotates the cube and never changes the selection. |
| Viewer.ViewerState.OnWindowResize | vite-project/src/script.js:198-202 | Only the primary aspect, set to width/height, and the renderer size change. The surveillance projections and target sizes stay fixed. |
| Viewer.ViewerState.Handle | vite-project/src/script.js:61-248 | One event goes to its handler: a click stores its normalised coordinates and, on a hit, advances the selection; a frame appends one frame's calls and takes one rotation step and leaves the stored coordinates alone; nothing else changes. |
| Viewer.ViewerState.Dispatch | vite-project/src/script.js:61-248 | Handling clicks and frames in arrival order, each click judged by the hit test at its own position in the sequence, leaves the selection, the renderer calls and the cube angle exactly as the corresponding run of hits, misses and frames prescribes (`SelectionAfter`, `TraceOf`, one rotation step per frame), leaves the coordinates of the last click stored (`MouseAfter`), and keeps the renderer consistent. |
| Viewer.MouseKeptWithoutClick | vite-project/src/script.js:61-64 | Events with no click leave the stored coordinates unchanged. |
| Viewer.MouseAtLastClick | vite-project/src/script.js:61-64 | After a click followed only by frames, the stored coordinates are that click's normalised coordinates, whatever came before. |

## Left out

- The WebGL renderer's internals, render-target contents, materials, lights, shadows and the static scene graph (lines 8-12, 87-195). Render calls are opaque trace events.
- The ray–plane intersection of `setFromCamera` and `intersectObjects` (lines 67, 70). It is library geometry, so only its boolean outcome is modelled, as the `hitsScreen` parameter.
- The orbit controls (lines 37-44) and their `update()` call in the frame loop (line 222). Damping and the distance and polar-angle clamps are enforced inside a library that is not part of this model.
- The asynchronous model and texture loading (lines 20-32, 99-101). This is I/O.
- Clicks before set-up finishes. The click listener is registered at line 61, before the top-level `await` at line 99. A click that arrives while the module waits there stores its coordinates (lines 63-64) and then throws at line 70, because `targetPlane1` (line 182) is not initialised yet; the selection is unchanged and the error is uncaught. If the texture promise rejects, set-up never finishes, every click throws the same way and the frame loop (line 248) never starts. The model starts from the finished set-up, the state the constructor establishes.
- `requestAnimationFrame` self-scheduling (lines 243, 248). One `GameLoop` call models one iteration, and `Dispatch` takes the order in which the browser delivers clicks and frames as its input sequence.
- The `lookAt` poses of the surveillance cameras (lines 164-177). This is floating-point vector maths; the projections do not depend on it.
- The `console.log` labels of the click handler (lines 76, 79, 82). They are logging only. The source numbers its scenes two ways: at lines 131-177 cam1, cam2 and cam3 sit in Scenes 2, 3 and 4, but the frame-loop comments at lines 228 and 232 call cam3's feed Scene 3 and cam2's feed Scene 4. The labels name the camera just selected only under the numbering of lines 131-177.
- `setPixelRatio` (lines 10, 205): the device pixel ratio that scales the drawing buffer is not modelled; `updateProjectionMatrix` (line 200) derives from the aspect already modelled.
- IEEE floating point. Arithmetic is over `real`. The limit 2π has no exact `real` value, so `maxRotation` is a constructor parameter.
- Viewer.ViewerState.Click: requires a window of positive width and height. JavaScript would divide by zero there and give infinities or NaN.
- Viewer.ViewerState.OnWindowResize: requires a positive window height, for the same reason.
- Viewer.ViewerState.constructor: requires a positive window height, for the same reason.
- Viewer.ViewerState.Handle: requires a window of positive width and height, for the same reason.
- Viewer.ViewerState.Dispatch: requires a window of positive width and height, for the same reason. Resize events are not among the events it dispatches, so the window size is fixed for the whole sequence; `OnWindowResize` models a resize on its own.
- Selection.NdcX: requires a positive window width, for the same reason.
- Selection.NdcY: requires a positive window height, for the same reason.
