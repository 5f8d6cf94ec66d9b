# Black hole simulation: host-side rules

The program renders gravitational lensing around a black hole. A compute shader
ray-marches every pixel of a fixed WIDTH x HEIGHT image. The host program
(`main.cpp`) sets up the scene, turns mouse input into orbit-camera
parameters, sizes the compute dispatch and blits the finished image, letterboxed,
into the window's swapchain surface.

This project models the exact rules in that host program:

- `letterbox.dfy` (module `Letterbox`): the destination rectangle of the blit
  in `Draw`, with `uint32_t` wrapping subtraction and float-to-`uint32_t`
  truncation written out. It proves that the rectangle fits the surface (so
  no unsigned subtraction wraps), fills one axis, is centred on the other,
  keeps the image aspect ratio up to truncation, becomes the whole surface
  when the aspects agree, and is the largest rectangle with the image aspect
  that fits.
- `dispatch.dfy` (module `Dispatch`): the workgroup counts of the compute
  dispatch. They cover every pixel with no extra group.
- `camera.dfy` (module `Camera`): the orbit camera's `yaw`, `pitch` and
  `distance`. The class `OrbitCamera` holds them, with one method per event
  case. The pure functions `Step` and `Run` specify those methods. Lemmas show
  that from the initial state every event sequence keeps the pitch inside
  `[-kClamp, kClamp]` (which lies strictly inside `(-pi/2, pi/2)`) and the
  distance at least 1, and that each kind of event changes only its own
  part of the state.
- `scene.dfy` (module `Scene`): the physical constants, the Schwarzschild
  horizon radius, the accretion-disk annulus and the three-object table.
- `arith.dfy` (module `Arith`): the facts about integer multiplication and
  division that the letterbox and dispatch proofs share.

WIDTH, HEIGHT and THREADS are defined in `config.h`, which is not part of
this model. They appear as positive parameters (`imageW`, `imageH`,
`threads`). Single-precision float arithmetic is modelled as exact real
arithmetic. A float-to-`uint32_t` conversion is `Floor`, which is the same as
truncation for the non-negative values that occur.

## Model

| member | source | states |
|---|---|---|
| `Letterbox.SubU32` | main.cpp:231 | `uint32_t` subtraction: the exact difference when it does not underflow, the difference plus 2^32 when it does |
| `Letterbox.ToU32` | main.cpp:229 | float-to-`uint32_t` conversion truncates (result within one below its argument); its argument must be in range, so every use proves that the conversion is defined |
| `Letterbox.ImageIsWider` | main.cpp:226 | the branch test `WIDTH / HEIGHT > width / height`, which holds exactly when `WIDTH * height > width * HEIGHT` |
| `Letterbox.Across` | main.cpp:228-231 | the scaled side is the floor of the image side times the surface ratio, never more than the surface side, and its offset is half the leftover space, truncated |
| `Letterbox.Place` | main.cpp:226-239 | the rectangle fits the surface; wider image: `W = width`, `X = 0`, `H = floor(HEIGHT * width / WIDTH)`, `Y = (height - H) / 2`; otherwise `H = height`, `Y = 0`, `W = floor(WIDTH * height / HEIGHT)`, `X = (width - W) / 2` |
| `Letterbox.PlaceNoUnderflow` | main.cpp:229-237 | neither `height - letterboxH` nor `width - letterboxW` wraps around |
| `Letterbox.PlaceCentred` | main.cpp:231-237 | on both axes the two margins differ by at most one pixel |
| `Letterbox.PlaceEqualAspect` | main.cpp:226-239 | when the image and surface aspects are equal, the rectangle is the whole surface |
| `Letterbox.PlaceAspectError` | main.cpp:229-236 | the rectangle's cross product with the image size differs from exact proportion by less than one image side, never on the too-large side |
| `Letterbox.PlaceIsLargest` | main.cpp:226-239 | every rectangle with exactly the image aspect that fits the surface is no wider and no taller than the placed one (no cropping, maximal scale) |
| `Dispatch.GroupCount` | main.cpp:213 | `groups * THREADS` reaches the image side, and falls short of it plus one more group |
| `Dispatch.GroupCountIsLeast` | main.cpp:213 | no smaller number of groups covers the image side |
| `Dispatch.Groups` | main.cpp:213-214 | both workgroup counts cover their axis without an extra group |
| `Dispatch.DispatchCoversImage` | main.cpp:213-218 | every pixel's group, its coordinates divided by THREADS, is below the dispatched group counts on both axes |
| `Dispatch.InvocationIsUnique` | main.cpp:213-218 | a group index and a local position below THREADS that name a coordinate are its quotient and remainder, so no two invocations handle the same pixel |
| `Camera.Clamp` | main.cpp:280 | `std::clamp` lands in `[lo, hi]` and leaves values already inside unchanged |
| `Camera.ClampIsNearest` | main.cpp:280 | the clamped value is the point of `[lo, hi]` nearest to the input |
| `Camera.ClampIdempotent` | main.cpp:280 | clamping twice equals clamping once |
| `Camera.Max` | main.cpp:273 | `std::max` is at least each argument and equal to one of them |
| `Camera.LeftHeld` | main.cpp:276 | the test `state & SDL_BUTTON_LMASK` holds exactly when the lowest bit of the button state is set |
| `Camera.LeftHeldIgnoresOtherButtons` | main.cpp:276 | setting other buttons' bits in the state does not change the left-button test |
| `Camera.Step` | main.cpp:272-282 | wheel: distance floored at 1 and otherwise `distance - y * kZoom`, angles unchanged; motion: distance unchanged, nothing changes without the left button; drag: `yaw += xrel * kPan`, pitch within `[-kClamp, kClamp]`, exact when in range, and an overshoot lands on the nearer bound; quit and other events: nothing changes |
| `Camera.Run` | main.cpp:268-287 | the events are applied in order, each by `Step`; the distance is the starting one or at least 1, and the angles are the starting ones or the pitch is within the clamp |
| `Camera.RunAppend` | main.cpp:268-287 | handling two batches of events one after the other is the same as handling their concatenation |
| `Camera.RunFirst` | main.cpp:268-287 | the first event is handled by `Step`, and the rest start from the state it leaves |
| `Camera.PitchLimitBelowPole` | main.cpp:278 | `0 < kClamp < glm::pi<float>() / 2`, and `kClamp < 1.5707963`, which is below the real pi / 2 |
| `Camera.StepKeepsInRange` | main.cpp:272-282 | one event keeps pitch within the clamp and distance at least 1 |
| `Camera.RunKeepsInRange` | main.cpp:268-287 | every event sequence keeps pitch within the clamp and distance at least 1 |
| `Camera.RunFromInitialInRange` | main.cpp:268-287 | from the initial statics (yaw 0, pitch 0, distance 1e11), every event sequence leaves the invariant true |
| `Camera.RunWithoutWheelKeepsDistance` | main.cpp:272-282 | only wheel events change the distance |
| `Camera.RunWithoutDragKeepsAngles` | main.cpp:275-281 | only motion with the left button held changes yaw or pitch |
| `Camera.YawUnbounded` | main.cpp:279 | one drag can set the yaw to any value (the yaw is not clamped) |
| `Camera.OrbitCamera.constructor` | main.cpp:48-50 | initial state yaw 0, pitch 0, distance 1e11, inside the invariant |
| `Camera.OrbitCamera.OnWheel` | main.cpp:272-274 | the new state is `Step` of the old one on the wheel event; the invariant is kept |
| `Camera.OrbitCamera.OnMotion` | main.cpp:275-282 | the new state is `Step` of the old one on the motion event; the invariant is kept |
| `Camera.OrbitCamera.HandleEvent` | main.cpp:270-286 | the switch on the event type performs `Step` |
| `Camera.OrbitCamera.HandleEvents` | main.cpp:268-287 | after the polled events the state is `Run` of the old state over them; the invariant is kept |
| `Scene.SchwarzschildRadius` | main.cpp:20 | the horizon radius is positive, and `r * c^2 = 2 * G * m` |
| `Scene.SchwarzschildMonotone` | main.cpp:20 | a heavier body has a larger horizon radius |
| `Scene.DiskOrdering` | main.cpp:31-32 | `0 < kBlackHoleRadius < DiskR1 = 2.2 r < DiskR2 = 5.2 r` |
| `Scene.SceneIsValid` | main.cpp:119-140 | `ObjectCount = 3` is the table's length; every object has positive radius and mass and colour channels in `[0, 1]`; object 2 is at the origin, black, has mass `kBlackHoleMass` and the horizon radius |
| `Scene.ObjectsApart` | main.cpp:138-140 | no two objects overlap, and both stars lie wholly outside the disk |

## Left out

- Rendering-device setup and teardown in `Init` and at the end of `main` (main.cpp:53-165 and 290-297, apart from the object table and `ObjectCount`). Window, device, pipeline, texture and buffer lifecycles are calls into SDL.
- Command buffers, swapchain acquisition, compute-pass and blit submission in `Draw` (main.cpp:169-189, 203-212, 215-220 and 240-255), including the upload size `ObjectCount * sizeof(Object)` and the clear colour. These are calls into SDL. The early return for a zero-sized surface (main.cpp:184) appears only as the `0 < width && 0 < height` precondition of `Place`.
- `SDL_PollEvent` and the `running` flag set by the quit event. `HandleEvents` takes the events already polled for a frame as a sequence, and `Quit` leaves the camera unchanged.
- The camera basis, `TanHalfFov` and `Aspect` (main.cpp:191-201). These use float trigonometry, normalisation and cross products, and Dafny has no trigonometry.
- The per-pixel geodesic ray march. It is in `geodesic.comp`, loaded through `shader.hpp`. Neither file is part of this model.
- Single-precision rounding everywhere. Floats are exact reals, so near-equal aspect ratios may take the other branch in float. The rounded values of the constants (e.g. `4e11f`) are taken as their decimal values.
- `Dispatch.DispatchCoversImage`: assumes each workgroup is THREADS x THREADS invocations. That size is declared in `geodesic.comp`, which is not part of this model.
- `Camera.LeftHeld`: takes `SDL_BUTTON_LMASK` to be 1 (bit 0, the left button), as SDL's headers define it. The headers are not part of this model.
- `Dispatch.GroupCount`: does not model signed `int` overflow of `WIDTH + THREADS - 1`. The configuration constants are small image and group sizes.
- The object table is proved valid as a constant (`SceneIsValid`). The program itself never checks it at run time.
