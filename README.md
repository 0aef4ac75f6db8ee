# Bloom post-process and input handling of rg_project

`src/main.cpp` of rg_project is an OpenGL demo. It draws a scene into an HDR
framebuffer that has two colour attachments: the full radiance and a
bright-pass. It blurs the bright pass with a ping-pong Gaussian blur and then
composites both images onto the window with tonemapping. GLFW key handlers
toggle bloom, a flashlight, an "abduction" latch and an ImGui overlay.

This project models the part of that program that is selection logic rather
than GPU work:

- **`GL`** (`gl.dfy`): the driver as a value. `GL.State` holds:
  - the bound framebuffer, texture units, program, vertex array and buffers;
  - the attachment, draw-buffer, texture, renderbuffer, uniform, buffer-data and attribute tables;
  - `draws`, a log of every draw call. Each entry records the framebuffer it
    rendered into, the textures that framebuffer writes, the program and its
    uniforms, and the texture each sampler unit held.

  `GL.Context` is a class holding that state; each GL entry point the core
  calls is a method of it with an exact post-state. Object names (`glGen*`, and
  the program ids of the two shaders) come from one counter, so they are
  distinct and nonzero.
- **`FullScreenQuad`** (`quad.dfy`): `renderQuad` and its module-level
  `quadVAO`/`quadVBO`. The class creates its geometry only on the first call and
  keeps a ghost count of creations.
- **`BlurSchedule`** (`blur.dfy`): the ping-pong schedule as pure functions.
  Per pass it gives the buffer written (`pingpongFBO[horizontal]`), the
  direction flag, and the source: the bright pass on the first iteration,
  `pingpongColorbuffers[!horizontal]` afterwards. It also gives the buffer the
  composite reads.
- **`PostProcess`** (`pipeline.dfy`):
  - the set-up of the HDR target, the ping-pong buffers and the sampler units;
  - the blur loop (`Pipeline.Blur`), proved to issue exactly the draws `Schedule` describes;
  - the composite;
  - the no-feedback and "composite reads the last written buffer" properties, stated on the draw log.
- **`Input`** (`input.dfy`): `processInput` and `key_callback` as methods of a
  class over the program state, the window and the two bloom globals. Each is
  proved equal to a pure step function, and multi-frame properties are proved
  about those functions.

## Model

| member | source | states |
|---|---|---|
| BlurSchedule.BoolToIndex | src/main.cpp:681 | The bool-as-index conversion is 1 exactly for true and is always a valid index of a two-element array |
| BlurSchedule.Schedule | src/main.cpp:679-688 | A loop of `n` iterations issues exactly `n` passes |
| BlurSchedule.StateAfterClosedForm | src/main.cpp:676-687 | After `k` passes `horizontal` is true iff `k` is even, and `first_iteration` is true only before the first pass |
| BlurSchedule.ScheduleAt | src/main.cpp:679-688 | Pass `k` of any loop is the pass issued from the loop state after `k` iterations |
| BlurSchedule.DirectionAlternates | src/main.cpp:681-685 | Directions go T,F,T,F,... starting from true, and every pass writes `pingpongFBO[horizontal]` |
| BlurSchedule.ReadIsNeverWritten | src/main.cpp:681-683 | Only pass 0 reads the bright pass; every later pass reads the other ping-pong buffer; no pass reads the buffer it writes |
| BlurSchedule.ReadsPreviousOutput | src/main.cpp:681-685 | Every pass after the first reads the buffer the previous pass wrote |
| BlurSchedule.CompositeReadsLastWrite | src/main.cpp:681-698 | For `amount >= 1`, `pingpongColorbuffers[!horizontal]` after the loop is the buffer the final pass wrote (index 0 for even, 1 for odd `amount`) |
| BlurSchedule.HorizontalPassCount | src/main.cpp:676-688 | Of `n` passes, ceil(n/2) blur horizontally |
| BlurSchedule.TenPasses | src/main.cpp:676-698 | With the source's `amount = 10` there are ten passes, five horizontal, alternating from true, and the composite reads buffer 0, which the last pass wrote |
| FullScreenQuad.VerticesCoverViewport | src/main.cpp:917-923 | The vertex data holds four distinct viewport corners on z = 0, each with its texture coordinate mapped from [-1,1] to [0,1]; vertices 0 and 3 and vertices 1 and 2 are opposite, and the strip's triangles (0,1,2) and (1,2,3) cover every point of [-1,1] x [-1,1] |
| FullScreenQuad.DescribeVertexLayout | src/main.cpp:930-933 | Attribute 0 of the bound vertex array is the 3-float position and attribute 1 the 2-float texture coordinate, stride 5 floats, both read from the bound buffer; nothing else changes |
| FullScreenQuad.Quad.constructor | src/main.cpp:911-912 | `quadVAO` starts at 0 with no geometry created |
| FullScreenQuad.Quad.Create | src/main.cpp:915-934 | Fresh vertex array and buffer names; the vertex data is uploaded and the layout described; creations becomes 1 |
| FullScreenQuad.Quad.Render | src/main.cpp:913-938 | A call with `quadVAO == 0` creates the geometry with fresh names and draws; a later call only binds, appends one 4-vertex triangle-strip draw and unbinds. Geometry is created at most once. Either way exactly one draw is appended and no framebuffer, texture, program or uniform binding changes |
| PostProcess.ConfigureBufferTexture | src/main.cpp:383-387 | The bound texture gets RGBA16F screen-size storage, linear filtering and clamp-to-edge wrapping, whatever it was before; no other state changes |
| PostProcess.AttachColorBuffer | src/main.cpp:382-389 | Texture `t` is bound, configured as a colour buffer and attached at `point` of the bound framebuffer; nothing else changes |
| PostProcess.CreateDepthBuffer | src/main.cpp:392-396 | A fresh renderbuffer gets screen-size depth storage and is attached as the depth attachment of the bound framebuffer |
| PostProcess.CreateHdrTarget | src/main.cpp:374-403 | Colour buffer i is at `COLOR_ATTACHMENT0 + i` for i in {0,1}, the depth buffer is attached, both colour attachments are draw buffers, and the window framebuffer is bound again; the exact new state is given |
| PostProcess.CreatePingPongBuffers | src/main.cpp:406-423 | Ping-pong framebuffer i has its own texture i at colour attachment 0, with the colour-buffer set-up; the exact new state is given |
| PostProcess.HdrLayoutBuilt | src/main.cpp:380-399 | The tables the HDR set-up leaves behind have colour buffer i at colour attachment i, the depth renderbuffer attached, and both colour attachments as draw buffers |
| PostProcess.PingPongLayoutBuilt | src/main.cpp:410-419 | The tables the ping-pong set-up leaves behind have texture i at colour attachment 0 of framebuffer i, with no draw-buffer list of their own |
| PostProcess.HdrLayoutKept | src/main.cpp:406-419 | The ping-pong set-up only touches its own names, so the HDR layout survives it |
| PostProcess.ConfigureSamplers | src/main.cpp:425-429 | The blur program samples `image` from unit 0; the bloom program samples `scene` from unit 0 and `bloomBlur` from unit 1 |
| PostProcess.BindBlurInputs | src/main.cpp:681-683 | With a program in use (the blur program is made current at 678), one pass binds the target framebuffer, sets `horizontal` to the flag's index and binds the source on the active unit; nothing else changes |
| PostProcess.BindCompositeInputs | src/main.cpp:694-700 | The bloom program is used, the sharp image goes on unit 0 and the blurred buffer on unit 1, and `bloom` and `exposure` are passed through unchanged |
| PostProcess.Pipeline.constructor | src/main.cpp:374-429 | After the set-up both layouts hold, the sampler units are set, all names are distinct, the quad is not yet created, and nothing has been drawn |
| PostProcess.Pipeline.LayoutsIn | src/main.cpp:380-419 | The HDR and ping-pong attachment layouts hold in every state the render loop reaches |
| PostProcess.Pipeline.SceneTargetWritesBothBuffers | src/main.cpp:397-399 | A draw into the HDR framebuffer writes exactly its two colour buffers |
| PostProcess.Pipeline.ValidInUniform | src/main.cpp:425-429 | Setting a uniform other than the three samplers keeps the sampler units |
| PostProcess.Pipeline.BlurPass | src/main.cpp:681-684 | One pass appends exactly one draw: the quad into `pingpongFBO[write]`, writing only its texture, with the blur program, `horizontal` set and the source sampled through `image` |
| PostProcess.Pipeline.BoundForBlur | src/main.cpp:681-684 | With a pass's inputs bound, the quad draw is that pass: into `pingpongFBO[write]`, writing only `pingpongColorbuffers[write]`, sampling the chosen source through `image` |
| PostProcess.Pipeline.Blur | src/main.cpp:676-689 | Step 2 appends exactly `amount` draws, draw k being pass k of `Schedule(amount)`; it returns the final `horizontal` and ends with the window framebuffer bound |
| PostProcess.Pipeline.BlurLoop | src/main.cpp:679-688 | The loop issues exactly `amount` draws, draw k being pass k of `Schedule(amount)`, and returns `StateAfter(amount).horizontal` |
| PostProcess.Pipeline.Composite | src/main.cpp:694-701 | Appends one draw into the window with the bloom program, sampling `colorBuffers[0]` through `scene` and `pingpongColorbuffers[!horizontal]` through `bloomBlur`, with `bloom` and `exposure` unchanged |
| PostProcess.Pipeline.BoundForComposite | src/main.cpp:694-701 | With the composite's inputs bound, the quad draw goes into the window, writes no texture, and samples the sharp image and the blurred buffer with `bloom` and `exposure` set |
| PostProcess.Pipeline.RenderPostProcess | src/main.cpp:676-701 | For `amount >= 1`: `amount` blur draws following the schedule, then the composite, all of the quad's vertex array; no blur draw samples a texture it writes; the composite samples exactly the texture the last blur draw wrote; the bloom program is left in use and the window bound |
| PostProcess.Pipeline.PostProcessDrawsFollow | src/main.cpp:676-701 | Blur draws that follow the schedule, then a composite draw, form a feedback-free post-process whose composite reads the last pass's output |
| PostProcess.Pipeline.NoFeedback | src/main.cpp:681-683 | A blur draw of the schedule never samples the texture its framebuffer writes |
| PostProcess.Pipeline.FirstPassSamplesBrightPass | src/main.cpp:683-687 | The first blur draw samples `colorBuffers[1]`, the bright-pass attachment |
| PostProcess.Pipeline.PassesChain | src/main.cpp:681-685 | Each later blur draw samples exactly the texture the previous draw wrote |
| PostProcess.Pipeline.CompositeSamplesLastPass | src/main.cpp:681-698 | The composite samples exactly the texture the final blur draw wrote |
| Input.Poll | src/main.cpp:728-762 | One `processInput`: the overlay, mouse-look and cursor are untouched; `bloomKeyPressed` equals the SPACE state; bloom cannot flip while it is set; close and abduct are never cleared |
| Input.OnKey | src/main.cpp:830-840 | Only an F1 press acts, flipping the overlay; showing it disables mouse-look and frees the cursor; hiding it captures the cursor and leaves mouse-look as it was; the polled flags are untouched |
| Input.FramesKeepOverlay | src/main.cpp:728-762 | Over any frames, polling leaves the overlay, mouse-look and cursor alone and leaves `bloomKeyPressed` equal to the last frame's SPACE |
| Input.BloomFollowsPresses | src/main.cpp:753-761 | After any frames, bloom is its start value flipped once per SPACE press (a frame with SPACE down after a frame without) |
| Input.HeldSpaceIsOnePress | src/main.cpp:753-761 | SPACE held over any number of frames counts as one press, or none if it was already held |
| Input.HoldingSpaceFlipsBloomAtMostOnce | src/main.cpp:753-761 | Holding SPACE over many frames flips bloom once if it was not already held, otherwise not at all |
| Input.NextFlipNeedsRelease | src/main.cpp:753-761 | Two successive frames with SPACE down flip bloom once; down, up, down flips it twice |
| Input.AbductionLatches | src/main.cpp:741-742 | `abduct` is set iff it was set at the start or X was down in some frame; nothing resets it |
| Input.CloseRequestLatches | src/main.cpp:729-730 | The close request is set iff it was set at the start or ESC was down in some frame |
| Input.FlashlightFollowsFrames | src/main.cpp:744-751 | The flashlight flips in every frame F is down, with no debounce |
| Input.F1TwiceRestoresOverlayNotMouseLook | src/main.cpp:830-840 | Two F1 presses restore the overlay and cursor but leave mouse-look off |
| Input.MouseLookStaysOff | src/main.cpp:830-840 | Once F1 has shown the overlay, no polled frame turns mouse-look back on |
| Input.CursorAlwaysMatchesOverlay | src/main.cpp:830-840 | The cursor is free exactly while the overlay is shown: true at start-up and kept by both handlers |
| Input.ProgramState.constructor | src/main.cpp:63-75 | Overlay hidden, no abduction, flashlight off, mouse-look on |
| Input.Controls.constructor | src/main.cpp:140-156 | The flags at the start of the render loop are the `ProgramState` defaults, bloom on and not debounced, and the cursor captured |
| Input.Controls.ProcessInput | src/main.cpp:728-762 | The new flags are exactly `Poll` of the old flags and the frame's keys |
| Input.Controls.KeyCallback | src/main.cpp:830-840 | The new flags are exactly `OnKey` of the old flags and the event |

## Left out

- The GL driver is a value with the tables the core uses. Real GL objects,
  format validation, the GPU, and `glCheckFramebufferStatus` (401-402, 421-422)
  are not modelled; the status checks only print.
- `glClear` (461, 465, 693) and `glClearColor` change no table the model keeps.
- Shaders: compilation and their GLSL (the Gaussian kernel and the tonemap
  curve). Each program is just a fresh nonzero name with a uniform table.
- The start-up of `main` outside the post-process: window and GLFW set-up, the
  scene shaders (175-177), the skybox and transparent-quad vertex arrays and
  textures (237-275) and model loading (361-370). None of them touches a table
  the post-process reads. The blur and bloom shaders (178-179) are modelled
  only as the two fresh program names the `Pipeline` constructor takes first.
- `GL.Context.GenName`: one counter names framebuffers, textures, renderbuffers,
  vertex arrays, buffers and programs. Real GL gives each kind its own names, so a
  vertex array and a texture may share a number there. No proof relies on names
  of different kinds differing: the layout and feedback lemmas compare only
  names of one kind.
- Scene drawing (464-672) is not modelled. The only fact taken from it is that
  it ends with texture unit 0 active (668), which is why `Blur` requires
  `activeUnit == 0`.
- Camera movement: WASD (732-739), `mouse_callback`, `scroll_callback` and
  `cowHeight`. These are floating-point arithmetic on the camera.
- `DrawImGui` is not modelled. Its checkbox is the only way to re-enable
  mouse-look, so `MouseLookStaysOff` holds only for the handlers modelled here.
- `ProgramState::SaveToFile`/`LoadFromFile` and texture and cubemap loading
  are file I/O.
- Input.Controls.constructor: the start-up check at 154-156 (free the cursor if
  the overlay starts shown) is not modelled as a branch. With `LoadFromFile`
  commented out (153), the overlay always starts hidden, so that branch never runs.
- Input.Poll: `glfwGetKey` is reduced to pressed or released per key (`Keys`).
  `GLFW_REPEAT` never comes from `glfwGetKey`.
- PostProcess.Pipeline.Blur takes `amount` as a parameter; the source fixes
  it at 10 (677), which `BlurSchedule.TenPasses` covers.
- PostProcess.Pipeline.RenderPostProcess requires `amount >= 1`. With zero
  passes the composite would sample buffer 0, which was never written this
  frame; the source never runs that case.
- Floats are modelled as `real`. `exposure` (38) is a `real` parameter that
  `RenderPostProcess` passes through unchanged to the composite.
- The two-element id arrays are `seq`s of length 2, filled by consecutive names.
- Framebuffer resizing (the HDR buffers stay 800x600 in the source too) and the
  deletion of GL objects at shutdown are not modelled.
