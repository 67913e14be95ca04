# Frame state machine of `realtime` (winit + wgpu)

This project models the per-event and per-frame state machine that sits
between the winit event loop and wgpu in the `realtime` renderer. It then
proves properties of that model in Dafny. The model covers:

- `State` (src/state.rs). It holds the window size, the surface
  configuration, the multisampled colour target and the depth target. It also
  holds the frame counter and its accumulated time, the two timestamps, and the
  pointer-capture flag. `resize`, `input`, `update` and `render` are methods of
  the class `FrameState.State`.
- The closure that `run` hands to the event loop (src/lib.rs). It is modelled
  as `EventLoop.App.Handle`. `App` owns the `State`, the `Window` and the
  `ControlFlow` the closure writes. The closure's arms are:
  - the input pre-filter;
  - Escape handling and close requests;
  - resize delegation;
  - the surface-error policy after `render`;
  - 60 Hz pacing.
- `SAMPLE_COUNT` (src/lib.rs). It is modelled as `Platform.SampleCount`, for
  both build targets.

The wgpu and winit objects are plain records:

- `SurfaceConfig`, `ColorTarget`, `DepthTarget` and `RenderPassDescriptor`.
- `Window`, whose ghost fields record the cursor-grab request, the
  cursor-visibility request and the number of redraw requests.
- `ControlFlow`.

The calls the renderer makes into wgpu and into the GUI layer are not
performed. Each one is appended, in order, to a ghost log `State.commands`.
The log records configure, acquire the surface texture, begin the render pass,
GUI prepare, GUI render, submit and present. Events handed to
`gui.handle_event` are appended to `State.guiEvents`.

Time is a natural number of nanoseconds. `Elapsed` saturates at zero, as
`Instant::elapsed` does. The pacing target `TARGET_FRAMETIME` is
`Duration::from_secs_f64(1.0 / 60.0)` in whole nanoseconds. That is
16_666_667 if the conversion rounds, as recent Rust toolchains do, and
16_666_666 if it truncates, as older ones do. The model uses 16_666_666; the
proofs only use the fact that it is positive.

Each mutating method is specified against a pure function, and the properties
are proved about those functions:

- `Resize` against `ResizeTargets`.
- The counter part of `Render` against `CountFrame`.
- The routing of `Handle` against `Dispatch`.
- Pacing against `Pace`.
- The resulting control flow against `ControlFlowAfter`.
- The timestamp against `NextUpdateTime`.

`App.Valid` is the invariant every event preserves. It says that:

- the surface configuration matches the `size` field (which keeps its old value when a zero-area resize is ignored);
- both targets were built from that configuration;
- the format never changes;
- the frame counter stays below 100;
- the last `Configure` in the log is the current configuration;
- the cursor's grab and visibility requests agree with `mouse_pressed`.

Where the intended behaviour and the code differ, the model follows the code:

- The 60 Hz check does not bound the redraw rate. Every `MainEventsCleared`
  requests a redraw (src/lib.rs:81). `PacedRedrawsAreOneFrameApart` proves the
  bound only for the redraws requested by the pacing branch.
  `RedrawRequestsAreNotRateLimited` shows two redraw requests at the same
  instant.
- `State::update` also restarts the pacing interval (src/state.rs:131-135). So
  the interval is measured from the later of the last paced redraw and the
  last rendered frame.
- At startup the surface is configured with the window's inner size as it is,
  which may be zero (src/state.rs:69-76). The invariant therefore says "the
  configuration equals the window size", not "a positive size".

## Model

| member | source | states |
|---|---|---|
| `Platform.SampleCount` | src/lib.rs:17-20 | Sample count is 1 exactly on wasm32 and 4 on other targets; never 0. |
| `Platform.Elapsed` | src/lib.rs:152 | Elapsed time is `now - since` when the clock moved forward, and 0 otherwise, as `Instant::elapsed` saturates. |
| `Gpu.LastConfigurationSkipsOtherCommands` | src/state.rs:147-191 | Non-configure commands after the last configure (the whole frame path of `render`) leave the surface configuration as it was. |
| `Gpu.LastConfigurationOfConfigure` | src/state.rs:105 | Configuring the surface makes that configuration the current one. |
| `Winit.Window.constructor` | src/lib.rs:31 | A new window is ungrabbed, has a visible cursor, and has had no redraw requested. |
| `Winit.Window.SetCursorGrab` | src/state.rs:123 | Records the grab request and changes nothing else about the window. |
| `Winit.Window.SetCursorVisible` | src/state.rs:124 | Records the visibility request and changes nothing else about the window. |
| `Winit.Window.RequestRedraw` | src/lib.rs:81 | Counts one more redraw request; cursor state unchanged. |
| `FrameState.CreateMultisampledFramebuffer` | src/state.rs:203-225 | The multisampled colour target has the surface's width, height and format, and exactly SAMPLE_COUNT samples. |
| `FrameState.CreateDepthTexture` | src/state.rs:107-108 | The depth target is built at the surface's configured width and height. |
| `FrameState.ResizeTargets` | src/state.rs:100-110 | A zero width or height changes nothing. Otherwise the size and the configured width and height all become the new size. Both targets are rebuilt at that size; the colour target takes the surface format and SAMPLE_COUNT samples. Format and present mode never change. The invariant that targets match the configuration is preserved, and resizing to the current size is the identity. |
| `FrameState.CountFrame` | src/state.rs:138-145 | The counter advances modulo 100 and stays below 100. It returns to 0 exactly on the hundredth frame, and accumulated time is then 0. Otherwise the elapsed frame time is added. The last-frame timestamp becomes now. |
| `FrameState.FrameCountWraps` | src/state.rs:140-145 | Starting from 0, as `State::new` sets it (src/state.rs:86), after n rendered frames the counter is n mod 100. |
| `FrameState.RenderPassFor` | src/state.rs:159-186 | The colour attachment is the surface image when SAMPLE_COUNT is 1 and the multisampled target otherwise. A resolve target (the surface image) is present iff SAMPLE_COUNT is not 1. The frame always lands in the surface image. Colour is cleared to opaque black and depth to 1.0, both stored; there are no stencil ops. |
| `FrameState.FrameCommands` | src/state.rs:159-191 | A frame's calls never reconfigure the surface and end with submit followed by present. |
| `FrameState.State.constructor` | src/state.rs:67-97 | The surface is configured at the window size with FIFO presentation and targets built to match. Counters are 0, both timestamps are now, and the pointer is not captured. |
| `FrameState.State.Resize` | src/state.rs:100-110 | The targets become `ResizeTargets` of the old ones. The surface is configured only for a positive size. Counters, timestamps, capture flag and GUI input are unchanged. The invariant is kept. |
| `FrameState.State.Input` | src/state.rs:112-129 | Returns true iff the event is a left-button press. It then sets `mouse_pressed` and requests a grabbed, hidden cursor (idempotent when already pressed). Any other event returns false and changes nothing. |
| `FrameState.State.Update` | src/state.rs:131-135 | Only `last_update_time` changes, to now. |
| `FrameState.State.Render` | src/state.rs:137-193 | The counters advance by `CountFrame` before the surface image is requested, so failed frames count too. A failed acquisition returns its error; after the attempt to acquire, nothing is recorded, submitted or presented. Otherwise it opens `RenderPassFor` on the current targets, then GUI prepare, GUI render, submit and present, in that order. Size, configuration and targets are unchanged. |
| `EventLoop.Dispatch` | src/lib.rs:80-163 | Events for other windows and device events have no effect. A left click is consumed by `input` and never reaches the GUI. Exit comes only from a close request on non-wasm targets, or from Escape while the pointer is free. Escape while captured releases the pointer. `Resized` and `ScaleFactorChanged` both resize. On wasm a close request goes to the GUI. Every other event for this window, a key release or Escape release included, is forwarded to the GUI unchanged. Exactly the events for other windows, for no window, and redraw requests for other windows take no action. |
| `EventLoop.Pace` | src/lib.rs:151-160 | Redraw iff at least one target interval has elapsed since the last update. Otherwise wait until a deadline strictly after now and at most one interval ahead, exactly one interval after the last update when the clock has not run backwards, and one interval after now when it has. |
| `EventLoop.ControlFlowAfter` | src/lib.rs:79-160 | Control flow is Exit iff the route exits, or a frame's acquisition ran out of memory. It is WaitUntil iff pacing decided to sleep, with that deadline. Otherwise it is Poll. |
| `EventLoop.App.constructor` | src/lib.rs:30-79 | Builds the window and the state. The window is ungrabbed with a visible cursor and no redraw requested. The surface is configured once, at the window size, in the given format with FIFO presentation. Counters and accumulated time are 0, both timestamps are now, the pointer is not captured and the GUI has seen no event. Control flow is Poll, and the invariant, including cursor agreement with `mouse_pressed`, holds before the first event. |
| `EventLoop.App.Handle` | src/lib.rs:78-164 | Each event keeps the invariant and has exactly the effect its route and `Stepped` give. Control flow is reset to Poll and then set by `ControlFlowAfter`. A redraw is requested on every `MainEventsCleared` and on each paced redraw. A lost surface is resized with the current size. When that size is positive this reconfigures the surface; size and targets stay unchanged either way. Frame counters change only on `RedrawRequested` for this window. |
| `EventLoop.App.HandleWindowEvent` | src/lib.rs:90-129 | The window-event arm has the effect `Stepped` gives for its route: capture, release, exit, resize or forward to the GUI. |
| `EventLoop.App.HandleRedrawRequested` | src/lib.rs:131-143 | The redraw arm restarts the pacing interval and renders. On `Lost` it resizes to the current size; on `OutOfMemory` it exits; other errors leave control flow at Poll. |
| `EventLoop.App.HandleRedrawEventsCleared` | src/lib.rs:144-161 | The pacing arm either requests a redraw and resets the timestamp, or waits until the deadline `Pace` gives. |
| `EventLoop.NextUpdateTime` | src/lib.rs:131-160 | `last_update_time` becomes now exactly on a `RedrawRequested` for this window (through `update`) or a paced redraw; every other event leaves it unchanged. With a clock that has not run backwards it never decreases. |
| `EventLoop.UpdateTimeStaysAfterPacedRedraw` | src/lib.rs:131-160 | With a clock that never runs backwards, once a paced redraw has happened, `last_update_time` is never earlier than it. |
| `EventLoop.PacedRedrawsAreOneFrameApart` | src/lib.rs:151-160 | Any two redraws requested by the pacing branch are at least one target interval apart. |
| `EventLoop.RedrawRequestsAreNotRateLimited` | src/lib.rs:81 | Every `MainEventsCleared` requests a redraw, so a trace whose clock never runs backwards holds two redraw requests less than one interval apart. |

## Left out

- Adapter, device, surface and GUI creation in `State::new` (src/state.rs:31-66) is left out: it is asynchronous foreign setup. The constructor takes the chosen format as a parameter.
- The wasm32 logger, canvas and browser resize listener (src/lib.rs:26-74) are left out as platform I/O.
- The wgpu and egui calls are left out. The ghost command log records only these: configure, acquire the surface texture, begin the render pass, GUI prepare, GUI render, submit and present. Rebuilding the targets on resize is not a log entry; it shows as new values of `view` and `depthTexture`. `create_view` and `create_command_encoder` (src/state.rs:148-156) are not modelled.
- src/texture.rs is not part of this model. The depth target is reduced to the width and height it is built at; its format and sample count come from that file.
- The FPS value logged every 100 frames is floating point and is left out. So is f32 rounding: `accum_time` is modelled as an exact sum of elapsed nanoseconds, reset to 0 with the counter.
- Each event reads the clock once, as `now`. The source reads it several times within one event: in `update`, in `render`, and in the pacing branch through `elapsed()` and then `Instant::now()`. With separate readings the wait deadline can fall later than one interval after the last update.
- `Platform.Elapsed` works on unbounded naturals; `Instant + Duration` overflow is not modelled.
- The exact value of `TARGET_FRAMETIME` depends on whether the toolchain's `Duration::from_secs_f64` rounds (16_666_667) or truncates (16_666_666). The model fixes 16_666_666; the proofs only use the fact that it is positive.
- `Winit.Window` records what the renderer requested. Whether the platform grants a cursor grab (`set_cursor_grab(..).ok()` discards failures) is not modelled.
- What winit does with the control flow after the closure returns is not modelled: that `Exit` is final and the loop stops. The model states only what the closure writes.
- The printing of `Outdated` and `Timeout` errors is left out as I/O.
- `State::update` computes a delta that it never uses; the delta is left out. `menu_mode` and `open_menu` are used only by commented-out code and are left out. So are the camera hook on mouse motion and the menu-mode branch of Escape, which are also commented out.
- src/gui.rs (egui input collection, tessellation, texture deltas, the scale slider) is left out. Its behaviour, including any clamping of the slider, lives in libraries not shown. src/types.rs and src/main.rs hold no logic.
