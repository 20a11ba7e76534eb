# Desk still-life: resource registry and view state, in Dafny

This project models the two stateful parts of an OpenGL still-life renderer
(a desk with books, a lamp, pencils and a bowl).

- The **scene manager** keeps a fixed table of 16 texture slots, each a
  (tag, GPU texture id) pair, and a loaded-count. It also keeps an append-only
  material list. Before each draw it writes a flat colour or a texture unit,
  a UV scale and a material into the shader's uniforms.
- The **view manager** keeps the projection mode, the first-pointer-event
  flag, the last pointer position and the camera. It handles pointer events
  and the O/P mode keys, and each frame it chooses a perspective or
  orthographic projection and writes it, with the view, into the shader.

The model is functional. States are immutable datatypes and every operation
is a pure function or a short method over `seq`.

- The image decoder becomes an input: it either fails or reports a channel
  count.
- A GPU texture handle is a plain `nat` input.
- The shader is either absent or a `map` from uniform name to value.
- Matrices are not computed. A view matrix is recorded as the camera pose it
  comes from, and a projection as its parameter record
  (fov/aspect/near/far or left/right/bottom/top/near/far).
- Coordinates use `real`, so aspect-ratio arithmetic is exact.
- The window size is a parameter (any positive width and height). The source
  fixes it at 1000×800, which makes two of the three orthographic branches
  unreachable there.

Modules: `Lookup` (first-match scan shared by both tables), `Uniforms`
(vectors and the sink), `Textures`, `Materials`, `Shading` (per-draw
setters), `Scene` (the fixed texture and material lists), `View`.

### Source behaviour the model keeps on purpose

- `FindMaterial` answers `true` for any non-empty list, even when no entry
  carries the tag. In that case the caller's record is left untouched, so
  `SetShaderMaterial` writes whatever its uninitialised local held. The model
  makes those values a parameter (`scratch`). The lemma
  `Scene.RenderTagsRegistered` shows every material tag the draw list uses
  is defined, so the scene as shipped never takes that path.
- `CreateGLTexture` writes slot `count` with no bounds check. The model makes
  a free slot the precondition of a *successful* load only, since a failed
  load writes nothing. `Scene.SceneTexturesFitFreshTable` shows that the
  sixteen scene loads on a fresh manager always meet it.
- `SetShaderMaterial` calls the shader manager without a null check, unlike
  the other setters. The model requires a present shader whenever the
  material list is non-empty.
- A tag registered twice keeps resolving to its first slot or material; the
  later entry is unreachable.
- Unset texture slots hold tag `"/0"` and id −1.
- View, projection and viewPosition are written only when a shader manager is
  present.
- Pointer offsets go to the camera through its handler. The pitch clamp
  belongs to the camera class, which is not part of this model.

## Model

| member | source | states |
|---|---|---|
| Lookup.FirstIndexFrom | Source/SceneManager.cpp:205-214 | The front-to-back scan stopping at the first equal tag: −1 exactly when no entry from the start index on carries the tag, otherwise the least such index |
| Textures.NewTable | Source/SceneManager.cpp:39-45 | A fresh table has loaded-count 0 and all 16 slots hold tag "/0" and id −1; it satisfies the table invariant |
| Textures.CreateGLTexture | Source/SceneManager.cpp:71-135 | Succeeds exactly when the image decoded with 3 or 4 channels. On success it writes (tag, id) into slot `count`, increments `count` by one, leaves every other slot untouched and appends the tag to the loaded tags. On failure the table is unchanged. It preserves the table invariant |
| Textures.FindTextureSlot | Source/SceneManager.cpp:199-217 | −1 iff no loaded slot carries the tag; otherwise the least loaded index with that tag, so later duplicates are unreachable |
| Textures.FindTextureID | Source/SceneManager.cpp:173-191 | The source's separate scan returns the id of the slot FindTextureSlot finds, or −1 on a miss; for a well-formed table, −1 exactly when the tag was never loaded |
| Textures.BindGLTextures | Source/SceneManager.cpp:143-151 | One binding per loaded slot, in increasing unit order: unit i gets slot i's id for exactly the i below the count |
| Textures.LoadAll | Source/SceneManager.cpp:396-458 | A run of loads that fits the capacity raises the count by the number of successful requests, appends exactly their tags in call order to the loaded tags, and keeps the table invariant |
| Textures.LoadAllSlots | Source/SceneManager.cpp:124-126 | After a run of loads that fits, every already loaded slot is kept, the next slots hold (tag, GPU id) of exactly the successful requests in call order, and the slots past the new count are untouched |
| Textures.LoadKeepsEarlierMatches | Source/SceneManager.cpp:124-126 | A single load never moves an existing match; a new tag, if the load succeeds, resolves to the slot just written; anything else stays a miss |
| Textures.FirstSuccessfulLoadWins | Source/SceneManager.cpp:199-217 | After any run of loads on a fresh table that fits the 16 slots, a tag resolves to the slot of its first successful load, i.e. the number of successful loads before it |
| Textures.NeverLoadedIsMissing | Source/SceneManager.cpp:199-217 | A tag that no successful load registered resolves to −1 |
| Materials.CopyShading | Source/SceneManager.cpp:239-243 | The lookup copies the five shading fields into the caller's record and leaves its tag alone |
| Materials.FindMaterial | Source/SceneManager.cpp:225-252 | Answers false iff the list is empty, and true on a miss in a non-empty list. On a hit the caller's record takes the first matching entry's fields; on a miss it is returned untouched |
| Materials.RedefinitionUnreachable | Source/SceneManager.cpp:234-249 | Appending a material whose tag is already defined changes no lookup answer for that tag |
| Materials.DefinitionReachable | Source/SceneManager.cpp:234-249 | Appending a material with a new tag makes that tag's lookup copy the new material's fields |
| Shading.SetShaderColor | Source/SceneManager.cpp:298-317 | With a shader present, sets bUseTexture to 0 and objectColor to the colour, and changes no other uniform; with no shader, changes nothing |
| Shading.SetShaderTexture | Source/SceneManager.cpp:325-336 | With a shader present, sets bUseTexture to 1 and objectTexture to the slot the tag resolves to (−1 for a tag never loaded), and changes no other uniform; with no shader, changes nothing |
| Shading.SetTextureUVScale | Source/SceneManager.cpp:344-350 | Writes only UVscale, and only when a shader is present |
| Shading.SetShaderMaterial | Source/SceneManager.cpp:358-376 | Nothing happens for an empty list. Otherwise the five material uniforms hold the first matching material, or the uninitialised record's values on a miss, and nothing else changes. A non-empty list needs a present shader |
| Shading.LastSetterWins | Source/SceneManager.cpp:314-334 | After any sequence of setter calls, bUseTexture is 1 if the last colour-or-texture call was a texture call and 0 if it was a colour call; with neither, it is as before |
| Scene.LoadSceneTextures | Source/SceneManager.cpp:392-465 | The sixteen loads in file order produce exactly the table of that run of loads, whatever each call answers; the loaded count grows by the number that succeed; every loaded slot is then bound to its own unit in order, so the units after the earlier count receive, in order, the GPU ids of the loads that succeeded (files that decoded with 3 or 4 channels); each request carries its file, tag, decoder answer and id in the source's file order |
| Scene.SceneTexturesFitFreshTable | Source/SceneManager.cpp:396-458 | On a fresh manager the sixteen scene loads never need more than the 16 slots, so the unchecked slot write stays in bounds |
| Scene.SceneTextureTagsDistinct | Source/SceneManager.cpp:396-458 | The sixteen scene texture tags are pairwise distinct |
| Scene.SceneTagResolves | Source/SceneManager.cpp:396-458 | After loading the scene on a fresh manager, a scene tag resolves to the count of successful loads before it if its image loaded, and to −1 if it did not |
| Scene.DefineObjectMaterials | Source/SceneManager.cpp:473-564 | Nine materials are defined, no two with the same tag, so none is shadowed |
| Scene.RenderTagsRegistered | Source/SceneManager.cpp:657-1201 | Every texture tag the draw list uses is one of the sixteen loaded tags, and every material tag it uses is defined |
| View.NewViewManager | Source/ViewManager.cpp:26-53 | State after the first construction in a process (the globals are initialised once per process): perspective mode, first-mouse set, last pointer (500, 400), camera at (0,2,12) looking along (0,−0.15,−4) with up (0,1,0) and zoom 50; the camera's own look angles are kept |
| View.SwitchMode | Source/ViewManager.cpp:161-181 | A mode switch sets the mode and installs that mode's preset pose, and leaves pointer tracking and look angles alone |
| View.MousePositionCallback | Source/ViewManager.cpp:121-138 | In orthographic mode nothing changes and nothing is forwarded. In perspective mode the first event forwards (0, 0) and later events forward (x − lastX, lastY − y); in both of those cases last becomes (x, y), first-mouse is cleared, and the camera gets the forwarded offset |
| View.OrthographicIgnoresPointer | Source/ViewManager.cpp:121-123 | Any run of pointer events in orthographic mode leaves the state unchanged |
| View.FirstMouseNeverReturns | Source/ViewManager.cpp:125-129 | Pointer events never change the mode, and once first-mouse is cleared no pointer event sets it again |
| View.ScrollCallback | Source/ViewManager.cpp:191-193 | Scrolling goes to the camera in both modes and touches no other state |
| View.OrthographicInputKeepsTracking | Source/ViewManager.cpp:121-193 | In orthographic mode any mix of pointer and scroll events keeps the mode and the pointer tracking; with a scroll handler that only zooms, the look angles too |
| View.OrthographicRoundTripWithScroll | Source/ViewManager.cpp:121-193 | O, then any mix of pointer and scroll events, then P gives perspective mode, the perspective preset pose (zoom 80) and the pointer tracking from before O; with a scroll handler that only zooms, exactly the state of switching to perspective directly |
| View.FirstPointerEventAfterConstruction | Source/ViewManager.cpp:121-137 | The first pointer event after construction forwards a zero offset, records its position and clears first-mouse, for any pointer position (exact arithmetic) |
| View.ProcessKeyboardEvents | Source/ViewManager.cpp:145-182 | Escape requests a close. P gives perspective mode with pose (−1.5,3.5,8)/(0,−0.5,−2)/(0,1,0)/80 and wins over O. O alone gives orthographic mode with pose (−2,2,10)/(0,0,−2)/(0,1,0)/100. With neither, the mode is kept and only the movement keys reach the camera. Pointer tracking is never touched |
| View.OrthographicKeyIdempotent | Source/ViewManager.cpp:161-170 | Polling O a second time leaves the state as the first poll left it |
| View.OrthographicRoundTrip | Source/ViewManager.cpp:121-181 | O, then any pointer events, then P gives exactly the perspective preset, with pointer tracking and look angles as before O |
| View.OrthographicBox | Source/ViewManager.cpp:227-242 | Symmetric box with near 0.1 and far 100. The half-extent is 5 on the longer window axis and at most 5 on the other. The box has the window's width-to-height ratio, so w > h gives ±5 by ±5·h/w, w < h gives ±5·w/h by ±5, and w = h gives ±5 on both |
| View.ReferenceWindowBox | Source/ViewManager.cpp:229-232 | At 1000×800 the box is x ±5 and y ±4 |
| View.SelectProjection | Source/ViewManager.cpp:219-243 | Perspective is chosen iff the mode is not orthographic, with fov = zoom degrees, aspect = w/h, near 0.1 and far 100; otherwise the orthographic box |
| View.PrepareSceneView | Source/ViewManager.cpp:202-254 | The frame time is the clock minus the last frame. The keyboard is polled before the projection is chosen from the resulting mode and zoom. With a shader present exactly view, projection and viewPosition are written; with none, nothing is |
| View.ModeKeyTakesEffectSameFrame | Source/ViewManager.cpp:212-243 | A frame with O held (and not P) projects with the orthographic box; a frame with P held projects with fov 80 |

## Left out

- OpenGL and image-decoder calls (texture creation, upload parameters, mipmaps, unit activation): foreign side effects. A decoder result and a GPU handle are inputs; a binding is a recorded (unit, id) pair.
- The freeing of the decoded image, including its leak on the unsupported-channel path: memory management has no counterpart in the model.
- `DestroyGLTextures` and the destructors: resource release through foreign calls only.
- `SetTransformations` (translate·rotateX·rotateY·rotateZ·scale): trigonometric matrix math on floats.
- `SetupSceneLights`, `PrepareScene`'s mesh loads and the numeric content of `RenderScene`: static scene data and calls into the mesh library. Only the tags the draw list uses are checked (`Scene.RenderTagsRegistered`).
- The camera class (`ProcessMouseMovement`, `ProcessKeyboard`, `ProcessMouseScroll`, `GetViewMatrix`, pitch and zoom clamps): its source is not part of this model. Its handlers are function parameters and its view matrix is recorded as the pose it is built from.
- Window creation, callback registration, cursor capture and blending setup: I/O plumbing.
- `ProcessKeyboardEvents`' early return for a null camera: the camera is created in the constructor and never null while the view manager exists.
- Textures.FindTextureID: ids are modelled as unbounded integers. The declaration of the slot record is not part of this model. The destroy routine passes the id field to the handle generator, which suggests it is an unsigned 32-bit handle. In that case −1 is stored as 0xFFFFFFFF and converts back to −1 when returned as `int`, which matches the model for handles below 2^31.
- View.MousePositionCallback: `real` replaces the source's float and double arithmetic, so rounding of pointer offsets is not modelled. The last position is stored as a float copy of the double pointer position, so the first event's offset is exactly zero only for positions a float can hold.
- View.FirstPointerEventAfterConstruction: its zero offset holds in exact arithmetic; in the source it is exactly zero only for pointer positions a float can hold, for the reason above.
- View.OrthographicBox: extents are exact reals. The source computes them in float; at 1000×800 the float result is also exactly 4.
- View.PrepareSceneView: the clock reading is an input rather than a call to the windowing library's timer.
