# vulkan_vibe in Dafny

A model of `src/main.rs` of vulkan_vibe. This Rust program opens a window and
draws a circle that bounces inside it with Vulkan (through `ash`, on a `winit`
event loop), and it shows the frame rate in the window title.

The model covers these parts of the program:

- **Start-up.** `init_vulkan` chooses the instance extensions and the
  surface-creation path for the platform. It takes the first physical device
  and the first queue family that can do graphics. It then picks the
  swapchain's format, present mode, extent and image count, and builds the
  swapchain generation: the swapchain, one image view per image, the render
  pass, and one framebuffer per view. Last come the command pool and command
  buffer, the two semaphores, the circle's vertex buffer in host-visible,
  host-coherent memory (`find_memory_type`), and the graphics pipeline. The
  shader modules are destroyed as soon as the pipeline exists.
- **Frames.** `render` resets the command buffer and acquires an image. It
  records the draw of the 34-vertex circle fan into that image's framebuffer,
  submits the commands and presents the image. If acquire or present reports
  an out-of-date swapchain, the frame is dropped and the swapchain is
  recreated. Any other error panics. Each presented frame is counted, and
  once a second has passed the rate goes into the title.
- **Recreation.** `recreate_swapchain` waits for the device to go idle. It
  destroys the framebuffers, the views and the swapchain, in that order. It
  then rebuilds them from the window's size.
- **Events.** `window_event` dispatches a close request, a redraw request (move
  the circle, then render) and a resize (recreate, then ask for a redraw).
  Every other event is ignored.
- **Motion.** `update_circle_position` moves the circle and reflects each
  velocity component whose axis puts the circle's edge outside the window.

Layout:

- `vulkan.dfy` (module `Vulkan`): the vocabulary shared by every module.
  - `u32`, extents, surface capabilities and present modes;
  - handles as datatypes with a numeric id (0 is the null handle) plus the
    create-info they were built from;
  - the panics the program can reach;
  - `Op`: one call the program makes on the device, the queue or the window.
- Pure models, as functions and lemmas:
  - `selection.dfy` (`Selection`);
  - `memory.dfy` (`Memory`, the `find_memory_type` loop as a method);
  - `circle.dfy` (`Circle`);
  - `animation.dfy` (`Animation`);
  - `frame_counter.dfy` (`FrameCounter`);
  - `lifecycle.dfy` (`Lifecycle`, `recreate_swapchain` as a function of the
    old generation);
  - `frame.dfy` (`Frame`, `render` as a function);
  - `events.dfy` (`Events`, `window_event` as a function);
  - `startup.dfy` (`Startup`, the panics of `init_vulkan` in order).
- `app.dfy` (`Application`): the `App` struct as a class with the same
  fields. Its methods update those fields as the Rust methods do. Each
  method's `ensures` ties the new field values, and the calls made, to the
  pure function that models it. Every method returns those calls as a ghost
  sequence of `Op`, in order.

Arguments stand in for the driver's and the window's answers:

- surface capabilities, formats and present modes;
- the window's size;
- the number of images `get_swapchain_images` returns;
- the results of acquire and present;
- the memory properties;
- the clock, in seconds as `real`.

## Model

| member | source | states |
|---|---|---|
| Selection.InstanceExtensions | src/main.rs:184-196 | VK_KHR_surface and VK_KHR_portability_enumeration come first on every platform. The Win32 extension is requested exactly on Windows, the Metal extension exactly on macOS, and the Xlib then the Wayland extension exactly on Linux. No extension is requested twice, so the list is exactly these. |
| Selection.SurfaceExtension | src/main.rs:184-335 | The surface is created through one of the extensions requested for the instance, and each window kind through its own: Win32 through VK_KHR_win32_surface, AppKit through VK_EXT_metal_surface, Xlib through VK_KHR_xlib_surface, Wayland through VK_KHR_wayland_surface. Creation succeeds exactly for a Win32 window on Windows, an AppKit window on macOS, or a Linux Xlib/Wayland window with the matching display. A Linux X11 or Wayland window with the other display kind panics with the display mismatch; every other combination falls into the catch-all "Unsupported platform" panic. |
| Selection.FirstGraphicsFamily | src/main.rs:357-361 | The result is the first queue family with the GRAPHICS bit: that family has it and no earlier one does. None means that no family has it. |
| Selection.FindPresentMode | src/main.rs:417-420 | The search finds a mode exactly when the wanted mode is offered, and the mode found is the wanted one. |
| Selection.ChoosePresentMode | src/main.rs:417-420 | MAILBOX when it is offered, otherwise IMMEDIATE, whether or not IMMEDIATE is offered. |
| Selection.ImageCount | src/main.rs:430-435 | The count is min+1, clamped to max when max is nonzero. It is at least 1 and never above a nonzero max. It equals max when max ≤ min, and min+1 when max is 0 or greater than min. It fails exactly when min+1 overflows u32. |
| Selection.ChooseInitExtent | src/main.rs:421-429 | The start-up extent is the window's size when the surface reports width u32::MAX, and the surface's current extent otherwise. |
| Selection.InitExtentFollowsWindowIffSentinel | src/main.rs:421-429 | The window's size decides the start-up extent if and only if the surface reports width u32::MAX. |
| Selection.SwapchainSettings | src/main.rs:415-435 | The settings succeed iff there is a format and min+1 does not overflow. The panics are: an empty format list (indexed first), then the overflow. On success the result carries format[0], the given extent and the ImageCount value. Its mode is MAILBOX iff MAILBOX is offered, and otherwise IMMEDIATE. |
| Memory.FindMemoryType | src/main.rs:829-845 | The result is the lowest index below memoryTypeCount that the type filter allows and that has every requested property. None means there is no such index, the case where the source panics. The result is Some iff a suitable type exists. |
| Circle.CreateCircleVertices | src/main.rs:27-39 | The loop builds the centre followed by rim points 0..segments, in order. |
| Circle.CircleVertices | src/main.rs:27-39 | The mesh as a value: the centre, then rim steps 0 to segments. It has no contract of its own; `Circle.CreateCircleVertices` is proved equal to it and `Circle.FanShape` states its shape. |
| Circle.FanShape | src/main.rs:27-39 | The fan has segments+2 vertices. The centre comes first and only there. Rim step k−1 is at position k. The first rim point is step 0 and the last is the full turn, so the fan closes. |
| Circle.DrawCountMatchesMesh | src/main.rs:1003-1008 | The literal 34 in the draw call equals the length of the mesh uploaded at start-up, with radius 50 and 32 segments. |
| Animation.StepReflectsPerAxis | src/main.rs:862-881 | The position advances by velocity·dt, and the move is never undone. Each velocity component is negated iff the moved circle's edge lies outside [0, bound] on that axis. |
| Animation.DeltaTime | src/main.rs:863-868 | The time step: since the previous call, or 1/60 s when there is none. It has no contract of its own; `Animation.FirstFrameFromCentre` and `Application.App.UpdateCirclePosition` state its use. |
| Animation.Step | src/main.rs:870-880 | One call of the update as a value: move, then reflect per axis. It has no contract of its own; `Animation.StepReflectsPerAxis`, `Animation.AxesAreIndependent` and the run lemmas state its properties. |
| Animation.AxesAreIndependent | src/main.rs:870-880 | The x outcome of a step depends only on the x position, the x velocity and the width (and likewise for y). |
| Animation.RunPreservesSpeed | src/main.rs:870-880 | Along any sequence of updates the magnitude of each velocity component is unchanged. |
| Animation.LinearWithoutReflection | src/main.rs:870-880 | A run with no reflection keeps the velocity and moves the circle by velocity × total time. The circle then ends inside the window. |
| Animation.FirstFrameFromCentre | src/main.rs:862-868 | The first update has no previous time, so it uses dt = 1/60 s whatever the clock reads. From the centre of 800×600 at (200,150) it moves the circle by (200/60, 150/60) without a bounce. |
| Animation.LongRunMustReflect | src/main.rs:870-880 | From the start state, 2.5 s of motion must include a bounce, however the time is split into frames. |
| Animation.TrappedCircleOscillates | src/main.rs:870-880 | The bounce test ignores the direction of travel. Take a circle that, on each axis, either stands still or has its edge outside the window both where it is and one step on. Every step negates its velocity. After an even number of equal steps it is back in its starting state, and after an odd number it is in the state the first step produced. |
| Animation.TrappedCircleStaysOutside | src/main.rs:870-880 | A trapped circle that moves never comes back inside the window, however many equal steps follow. |
| Animation.ShrunkWindowTrapsCircle | src/main.rs:872-880 | An instance: a circle at x = 700 moving at (200, 0) in a window shrunk to 600×600 returns to the same state every two frames. |
| FrameCounter.Rate | src/main.rs:1069-1071 | The published rate is positive once a frame has been counted. |
| FrameCounter.CountFrame | src/main.rs:1066-1078 | When a second has passed, the count restarts at 0, the title time becomes now, and the rate is positive. Otherwise only the frame count goes up by one. |
| FrameCounter.CountsUntilASecondPasses | src/main.rs:1066-1078 | Before a second has passed, n frames only add n to the count. |
| FrameCounter.PublishedRateIsFramesOverElapsed | src/main.rs:1066-1078 | The published rate is the number of frames since the last title update, including this one, divided by the seconds elapsed. |
| Lifecycle.BuildOpsOnlyCreate | src/main.rs:1166-1212 | Building views and framebuffers makes only creation calls. |
| Lifecycle.Recreate | src/main.rs:1084-1214 | `recreate_swapchain` as a value: the teardown, the window-size extent, the settings, then the new swapchain, views and framebuffers. It has no contract of its own; `Lifecycle.RecreateBuildsMatchingGeneration`, `Lifecycle.RecreatePhasesOrdered`, `Lifecycle.RecreateCallSequence` and `Lifecycle.RecreateIssuesFreshHandles` state its properties. |
| Lifecycle.RecreateBuildsMatchingGeneration | src/main.rs:1084-1214 | The new extent is the window's size, never the surface's current extent. Recreation succeeds iff the settings do, and a panic is the settings' panic. On success the generation is well formed: one view per image and one framebuffer per view, each matched by index with the current extent and render pass. It holds as many images as the driver returned, and its swapchain carries the chosen settings. At least one image is requested, so a driver returning at least the requested count gives a non-empty generation. |
| Lifecycle.RecreatePhasesOrdered | src/main.rs:1086-1212 | The calls follow this order, never going back: wait idle, then destroy framebuffers, then destroy views, then destroy the swapchain, then create the swapchain, then views, then framebuffers. |
| Lifecycle.TeardownLayout | src/main.rs:1086-1108 | The teardown calls, position by position: the wait, each old framebuffer, each old view, then the old swapchain. |
| Lifecycle.RecreateCallSequence | src/main.rs:1084-1214 | Recreation starts with the whole teardown. It stops there when the settings panic. Otherwise the remaining calls are exactly the build of the new generation. |
| Lifecycle.BuildLayout | src/main.rs:1158-1212 | The build calls, position by position: the swapchain, each view, then each framebuffer. |
| Lifecycle.BuiltGeneration | src/main.rs:463-560 | Views built over the images and framebuffers built over those views form a well-formed generation. Their ids are fresh consecutive ranges. |
| Lifecycle.RecreateIssuesFreshHandles | src/main.rs:1084-1214 | Every new handle is newer than every old one, so no old view or framebuffer is reused. |
| Lifecycle.RecreateTwiceGivesSameShape | src/main.rs:1110-1164 | A second recreation from the same report gives the same image count, create-info and extent. |
| Frame.RecordCommands | src/main.rs:920-1020 | A frame records nine commands after beginning the command buffer, from beginning the render pass through ending the command buffer. |
| Frame.AfterPresent | src/main.rs:1054-1081 | The end of `render` as a value: out-of-date recreates, other errors panic, success counts the frame and requests a redraw. It has no contract of its own; `Frame.PresentOutOfDateRecreates`, `Frame.UnexpectedErrorsAreFatal` and `Frame.OnlyPresentedFramesAreCounted` state its properties. |
| Frame.FrameAfterAcquire | src/main.rs:912-1063 | `render` from the acquired image on, as a value. It has no contract of its own; `Frame.PresentedFrameLog` and `Frame.RendersIntoAcquiredImage` state its properties. |
| Frame.RenderFrame | src/main.rs:883-1082 | `render` as a value. It has no contract of its own; the `Frame` lemmas below state its properties. |
| Frame.FrameStartsWithResetThenAcquire | src/main.rs:886-910 | Every frame first resets the command buffer, then acquires from the current swapchain, signalling image-available. |
| Frame.RecreationOnlyRebuilds | src/main.rs:1084-1214 | A recreation never submits, presents, draws or asks for a redraw. |
| Frame.AcquireOutOfDateDropsFrame | src/main.rs:903-908 | An out-of-date acquire drops the frame: only reset and acquire, then a recreation. Nothing is submitted or presented, the frame is not counted, and no redraw is requested. |
| Frame.PresentOutOfDateRecreates | src/main.rs:1054-1063 | An out-of-date present comes after the submit and the present of the image. The swapchain is then recreated, the frame is not counted, and no redraw is requested. |
| Frame.UnexpectedErrorsAreFatal | src/main.rs:893-1063 | Any other acquire error panics after only reset and acquire; any other present error panics with its code. Every panic is one of the acquire, present or settings panics, or the bad image index, and all but the settings panics leave the generation and the counter unchanged. |
| Frame.PresentedFrameLog | src/main.rs:883-1082 | A frame is presented iff the acquire succeeds, the index names a framebuffer, and the present succeeds. The calls are then reset, acquire, begin, the recorded commands into the acquired image's framebuffer, submit (wait image-available, signal render-finished), present of that index (wait render-finished), the title once a second has passed, and a redraw request. |
| Frame.RendersIntoAcquiredImage | src/main.rs:920-1048 | In a well-formed generation, the render pass targets the view of the acquired image with the current extent. The draw covers the whole mesh, and the present names the same image. |
| Frame.ViewportFollowsExtent | src/main.rs:955-972 | A presented frame sets the viewport and the scissor to the current extent, so after a recreation it draws at the new size. |
| Frame.OnlyPresentedFramesAreCounted | src/main.rs:1066-1081 | Only a presented frame moves the counter, by exactly one count step. A redraw is requested iff the frame was presented. |
| Frame.RenderFrameKeepsGenerationValid | src/main.rs:883-1082 | A frame that does not panic leaves a well-formed generation whose handles were all issued before the new id bound. |
| Events.HandleEvent | src/main.rs:139-160 | `window_event` as a value. It has no contract of its own; the `Events` lemmas below state its properties. |
| Events.RedrawFrame | src/main.rs:150-153 | The redraw arm as a value: move the circle, then render. `Events.RedrawMovesThenRenders` states its properties. |
| Events.ResizeSwapchain | src/main.rs:154-157 | The resize arm as a value: recreate, then request a redraw. `Events.ResizeRedrawsAfterRecreation` and `Events.ResizeIgnoresEventSize` state its properties. |
| Events.CloseOnlyRequestsExit | src/main.rs:146-149 | A close request makes no call and only sets the exit flag. An unrecognised event changes nothing. |
| Events.ExitOnlyOnClose | src/main.rs:145-159 | The exit flag is set after an event iff it was already set or the event is a close request. |
| Events.ResizeIgnoresEventSize | src/main.rs:154-157 | The size carried by a resize event plays no part: the new extent is the window's size. |
| Events.ResizeRedrawsAfterRecreation | src/main.rs:154-157 | A resize asks for a redraw iff recreation did not panic, and then as its last call, after the whole recreation. |
| Events.RedrawMovesThenRenders | src/main.rs:150-153 | A redraw moves the circle first, so the frame pushes the moved position. The panic is the frame's. A presented frame counts one frame. |
| Startup.StartupPanic | src/main.rs:164-636 | The first panic `init_vulkan` reaches, as a value: the surface dispatch, then `physical_devices[0]`, the graphics family, the settings and the memory type. It has no contract of its own; `Startup.StartupPanicCases` states its properties. |
| Startup.StartupPanicCases | src/main.rs:164-636 | Start-up succeeds iff every check passes. A missing physical device panics iff the surface was created and the device list is empty. Every panic other than the platform dispatch's comes after the surface exists. |
| Application.PipelineOps | src/main.rs:708-827 | Two shader modules, then the layout, then the pipeline for the render pass, then both modules destroyed. Every module created is destroyed, and only after the pipeline is built. |
| Application.EndsWithDrawingSetupAfter | src/main.rs:619-635 | Calls made before start-up's last steps keep the vertex upload, the pipeline build and the final redraw at the end. |
| Application.DrawingSetupCalls | src/main.rs:619-635 | When start-up's last calls are the four vertex-buffer calls, then the pipeline build, then a redraw, the first four are those buffer calls. The upload of 34 vertices comes directly before the pipeline build, which is followed by the redraw. |
| Application.App.constructor | src/main.rs:1221-1252 | The initial object: every handle null (render pass, pipeline, layout, vertex buffer and its memory, command pool, command buffer, both semaphores), an empty generation, zero extent, motion and counter, and no previous time. |
| Application.App.CreateImageViews | src/main.rs:470-499 | One view per image, in order, with the swapchain's format, each created with a fresh id. |
| Application.App.CreateFramebuffers | src/main.rs:539-560 | One framebuffer per view, in order, for the render pass and extent. |
| Application.App.DestroyGeneration | src/main.rs:1086-1108 | The calls made are exactly the teardown of the current generation. |
| Application.App.BuildGeneration | src/main.rs:1158-1212 | The new fields are the swapchain with the settings, its images, and the views and framebuffers over them. The calls are exactly the build. |
| Application.App.RecreateSwapchain | src/main.rs:1084-1214 | The fields, the calls and the panic equal those of `Lifecycle.Recreate`. A recreation that succeeds keeps the object valid. |
| Application.App.UpdateCirclePosition | src/main.rs:862-881 | The motion becomes one `Animation.Step` over the time since the previous call (1/60 s at first), within the current extent. The previous-time memory becomes now. |
| Application.App.HandleWindowEvent | src/main.rs:139-160 | The object's state, the calls and the panic equal those of `Events.HandleEvent`. Handling without a panic keeps the object valid. |
| Application.App.Redraw | src/main.rs:150-153 | The object follows `Events.RedrawFrame`: move, then render. |
| Application.App.Resize | src/main.rs:154-157 | The object follows `Events.ResizeSwapchain`: recreate, then request a redraw when that succeeds. |
| Application.App.Render | src/main.rs:883-1082 | The generation, counter, calls and outcome equal those of `Frame.RenderFrame`. A frame that does not panic keeps the object valid. |
| Application.App.DrawAndPresent | src/main.rs:912-1063 | After the acquire, the object follows `Frame.FrameAfterAcquire`: begin, framebuffer lookup, record, submit and present. |
| Application.App.FinishFrame | src/main.rs:1054-1081 | After the present, the object follows `Frame.AfterPresent`. |
| Application.App.RecordDraw | src/main.rs:920-1020 | The recorded commands are `Frame.RecordCommands` for the target, the extent and the circle's position. |
| Application.App.CountPresentedFrame | src/main.rs:1066-1078 | The counter becomes `FrameCounter.CountFrame` of the old one. The title is set iff a second has passed. |
| Application.App.CreateShaderModule | src/main.rs:847-860 | One fresh module is created. |
| Application.App.CreateGraphicsPipeline | src/main.rs:708-827 | The calls are `PipelineOps`. The layout and pipeline fields hold the handles created. |
| Application.App.CreateVertexBuffer | src/main.rs:638-706 | The buffer is sized at 8 bytes per vertex. It fails only when no memory type is suitable, and then after creating the buffer. Otherwise the memory has the lowest suitable type and is allocated, bound and filled. |
| Application.App.InitVulkan | src/main.rs:164-636 | The panic is `Startup.StartupPanic`. The first call creates the instance with the platform's extensions. A failed start-up never requests a redraw. On success: the command pool is for the first graphics family, the calls end with the upload of the circle's 34 vertices, the pipeline build and a redraw, and the object is initialised with the chosen settings, image views in the chosen surface format, the driver's image count, the lowest suitable memory type and the circle at the centre moving at (200,150). At least one image is requested, so a driver returning at least that many gives a non-empty generation. |
| Application.App.SelectDevice | src/main.rs:164-435 | The calls are the instance, the surface through the platform's extension, and the device on the first graphics family. Each earlier check ends in its panic. On success only the memory type can still fail. |
| Application.App.InitResources | src/main.rs:436-636 | From the settings on, start-up fails iff no memory type is suitable. On success the object is initialised, with the image views in the chosen surface format, and the calls end with the vertex upload, the pipeline and a redraw. |
| Application.App.InitCommands | src/main.rs:562-617 | The command pool on the graphics family, its command buffer, then the two semaphores. |
| Application.App.InitDrawing | src/main.rs:619-635 | The first four calls create the 34-vertex buffer, allocate its memory, bind it and upload the 34 vertices. They are followed by the pipeline build and a redraw request. The extent is set and the circle starts at the centre of the extent with velocity (200,150). It fails iff no memory type is suitable. |
| Application.App.InitVertexBuffer | src/main.rs:619-621 | The buffer holds the 34 vertices of the circle, in memory of the lowest suitable type. It fails iff no memory type is suitable, right after creating the buffer. |
| Application.App.StartCircle | src/main.rs:626-634 | The extent is the given size and the circle sits at its centre with velocity (200,150). |
| Application.App.InitCommandsAndDrawing | src/main.rs:562-635 | The command pool for the family comes first, and the calls end with the vertex upload, the pipeline and a redraw. The extent, the circle's start and the memory type are those of `Application.App.InitDrawing`. It fails iff no memory type is suitable, and then no redraw is requested. |
| Application.App.InitGeneration | src/main.rs:436-560 | The swapchain with the settings and the images the driver returned, a view per image in the chosen surface format, the render pass, and a framebuffer per view. The result is well formed, and only creation calls are made. |

## Left out

- `build.rs`, window icons and `resumed` (window creation): they do not touch the renderer's logic.
- Raw-handle FFI, `unsafe` memory mapping and shader bytecode: these are foreign calls. The upload is one `UploadVertices` call.
- 32-bit floats: positions, velocities, times and the rate are `real`. Rounding, NaN and infinities are not modelled.
- The projection matrix and the push-constant bytes: they are represented by the position and the extent they are built from.
- The title string's formatting: `SetTitle` carries the rate.
- The event loop, `main` beyond the initial object, and the `println!` output.
- Instance creation failure: the source returns early from `init_vulkan`, without panicking, leaving a half-initialised object. The model takes instance creation to succeed.
- Surface-creation failure: on Windows an error from the create call (src/main.rs:247-250) returns from `init_vulkan` without panicking. On macOS the `return` on error (src/main.rs:293-296) leaves only the `autoreleasepool` closure, so start-up carries on with a null surface. On Linux the create calls and the display pointer go through `.expect` and `unwrap` (src/main.rs:307, 314, 332). The model takes surface creation to succeed on every platform whose dispatch arm is reached.
- Every `.expect` on a driver call other than the modelled checks (device creation, swapchain creation, allocation, submit and the rest) is taken to succeed.
- Selection.ImageCount: min_image_count + 1 is u32 arithmetic. The model follows a debug build, where the overflow panics. A release build would wrap to 0.
- FrameCounter.CountFrame: frame_count is a u32. Its overflow is not modelled, because the count restarts every second.
- The suboptimal flag returned by acquire and present is ignored, as the source ignores it.
- Memory.FindMemoryType: requires the property array to have the 32 entries Vulkan guarantees and `memoryTypeCount <= 32`, which the driver guarantees.
- The number of images the driver returns is a free argument. The model does not assume Vulkan's guarantee that it is at least the requested count, so an empty generation is not ruled out by `Valid`; the recreation and start-up contracts state non-emptiness under that guarantee as a hypothesis.
- The calls the program makes are returned as ghost sequences, and handles are numbered from a counter. Real handle values and aliasing between them are not modelled.
- Application.App.InitVulkan: its ensures names only the first call and the end of the calls. The calls from the surface to the device are stated by Application.App.SelectDevice, and the middle by Application.App.InitResources.
