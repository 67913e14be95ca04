/** The renderer's per-window state: the surface configuration, the frame
    targets built from it, the frame counter and the pointer-capture flag. */
module FrameState {
  import opened Platform
  import opened Gpu
  import opened Winit

  /** An FPS figure is reported, and the counters restart, every this many frames. */
  const FRAMES_PER_REPORT: nat := 100

  predicate Positive(size: PhysicalSize)
  {
    size.width > 0 && size.height > 0
  }

  /** The event `State::input` consumes: the left mouse button going down. */
  predicate IsLeftPress(e: WindowEvent)
  {
    e.MouseInput? && e.state == Pressed && e.button == Left
  }

  /** create_multisampled_framebuffer: a colour target the size and format of
      the surface, with SAMPLE_COUNT samples. */
  function CreateMultisampledFramebuffer(config: SurfaceConfig, sampleCount: u32): (r: ColorTarget)
    ensures r.width == config.width && r.height == config.height
    ensures r.format == config.format && r.samples == sampleCount
  {
    ColorTarget(config.width, config.height, config.format, sampleCount)
  }

  /** Texture::create_depth_texture, reduced to the size it is given. */
  function CreateDepthTexture(config: SurfaceConfig): (r: DepthTarget)
    ensures r.width == config.width && r.height == config.height
  {
    DepthTarget(config.width, config.height)
  }

  /** The part of `State` that `resize` rewrites. */
  datatype FrameTargets = FrameTargets(size: PhysicalSize, config: SurfaceConfig, view: ColorTarget, depth: DepthTarget)

  /** The surface is configured at the window size and both targets were built
      from that configuration. */
  predicate TargetsMatch(t: FrameTargets, sampleCount: u32)
  {
    && t.config.width == t.size.width
    && t.config.height == t.size.height
    && t.view == CreateMultisampledFramebuffer(t.config, sampleCount)
    && t.depth == CreateDepthTexture(t.config)
  }

  /** What `State::resize` does to the frame targets. */
  function ResizeTargets(t: FrameTargets, newSize: PhysicalSize, sampleCount: u32): (r: FrameTargets)
    // a zero-area size (a minimised window) is ignored entirely
    ensures !Positive(newSize) ==> r == t
    // otherwise the window size and the surface size both become the new size
    ensures Positive(newSize) ==> r.size == newSize && r.config.width == newSize.width && r.config.height == newSize.height
    // the format and present mode are never touched
    ensures r.config.format == t.config.format && r.config.presentMode == t.config.presentMode
    // both targets are rebuilt at the new size, in the surface format, with SAMPLE_COUNT samples
    ensures Positive(newSize) ==> r.view == ColorTarget(newSize.width, newSize.height, t.config.format, sampleCount)
    ensures Positive(newSize) ==> r.depth == DepthTarget(newSize.width, newSize.height)
    ensures Positive(newSize) ==> TargetsMatch(r, sampleCount)
    ensures TargetsMatch(t, sampleCount) ==> TargetsMatch(r, sampleCount)
    // resizing to the current size rebuilds targets equal to the old ones
    ensures TargetsMatch(t, sampleCount) && newSize == t.size ==> r == t
  {
    if Positive(newSize) then
      var config := t.config.(width := newSize.width, height := newSize.height);
      FrameTargets(newSize, config, CreateMultisampledFramebuffer(config, sampleCount), CreateDepthTexture(config))
    else
      t
  }

  /** The counters `State::render` keeps; `accumTime` is in clock ticks. */
  datatype FrameClock = FrameClock(frameCount: nat, accumTime: nat, lastFrameTime: Instant)

  /** The bookkeeping at the top of `State::render`, done before the surface
      is asked for an image and so done for failed frames too. */
  function CountFrame(c: FrameClock, now: Instant): (r: FrameClock)
    ensures r.lastFrameTime == now
    ensures c.frameCount < FRAMES_PER_REPORT ==> r.frameCount == (c.frameCount + 1) % FRAMES_PER_REPORT
    ensures r.frameCount < FRAMES_PER_REPORT || r.frameCount == c.frameCount + 1
    // the counters restart exactly when the hundredth frame is counted
    ensures r.frameCount == 0 <==> c.frameCount + 1 == FRAMES_PER_REPORT
    ensures r.frameCount == 0 ==> r.accumTime == 0
    ensures r.frameCount != 0 ==> r.accumTime == c.accumTime + Elapsed(c.lastFrameTime, now)
  {
    var accumTime := c.accumTime + Elapsed(c.lastFrameTime, now);
    var frameCount := c.frameCount + 1;
    if frameCount == FRAMES_PER_REPORT then FrameClock(0, 0, now)
    else FrameClock(frameCount, accumTime, now)
  }

  /** The counters after one `render` call at each of the given instants. */
  function ClockAfter(c: FrameClock, frames: seq<Instant>): FrameClock
    decreases |frames|
  {
    if frames == [] then c
    else CountFrame(ClockAfter(c, frames[..|frames| - 1]), frames[|frames| - 1])
  }

  /** Starting from zero, the frame counter is the number of frames modulo 100. */
  lemma {:induction false} FrameCountWraps(c: FrameClock, frames: seq<Instant>)
    requires c.frameCount == 0
    ensures ClockAfter(c, frames).frameCount == |frames| % FRAMES_PER_REPORT
    decreases |frames|
  {
    if frames != [] {
      FrameCountWraps(c, frames[..|frames| - 1]);
    }
  }

  /** The render pass `State::render` opens. With multisampling the pass draws
      into the multisampled target and resolves into the surface image;
      without it, the pass draws into the surface image directly. */
  function RenderPassFor(sampleCount: u32, msaa: ColorTarget, depth: DepthTarget): (p: RenderPassDescriptor)
    // the frame always ends up in the image that will be presented
    ensures p.color.view == SurfaceTexture || p.color.resolveTarget == Some(SurfaceTexture)
    ensures p.color.resolveTarget.Some? <==> sampleCount != 1
    ensures p.color.view.Multisampled? <==> sampleCount != 1
    ensures p.color.view.Multisampled? ==> p.color.view.target == msaa
    ensures p.color.resolveTarget != Some(p.color.view)
    // colour is cleared to opaque black and kept
    ensures p.color.ops == Operations(Clear(Color(0.0, 0.0, 0.0, 1.0)), true)
    // depth is cleared to the far plane and kept; there is no stencil
    ensures p.depthStencil == Some(DepthStencilAttachment(depth, Some(Operations(Clear(1.0), true)), None))
  {
    var surfaceView := SurfaceTexture;
    RenderPassDescriptor(
      ColorAttachment(
        if sampleCount == 1 then surfaceView else Multisampled(msaa),
        if sampleCount != 1 then Some(surfaceView) else None,
        Operations(Clear(Color(0.0, 0.0, 0.0, 1.0)), true)),
      Some(DepthStencilAttachment(depth, Some(Operations(Clear(1.0), true)), None)))
  }

  /** The calls a frame makes once it has a surface image, in order. */
  function FrameCommands(pass: RenderPassDescriptor): (cs: seq<Command>)
    ensures forall i :: 0 <= i < |cs| ==> !cs[i].Configure?
    ensures |cs| >= 2 && cs[|cs| - 2] == Submit && cs[|cs| - 1] == Present
  {
    [BeginRenderPass(pass), GuiPrepare, GuiRender, Submit, Present]
  }

  class State {
    const platform: Target
    /** The format the adapter offered at startup. */
    const format: TextureFormat
    var size: PhysicalSize
    var config: SurfaceConfig
    /** The multisampled colour target. */
    var view: ColorTarget
    var depthTexture: DepthTarget
    var frameCount: nat
    var accumTime: nat
    var lastUpdateTime: Instant
    var lastFrameTime: Instant
    var mousePressed: bool
    /** Events handed to the GUI layer (`gui.handle_event`). */
    ghost var guiEvents: seq<WindowEvent>
    /** Calls made into wgpu and the GUI layer. */
    ghost var commands: seq<Command>

    ghost function Targets(): FrameTargets
      reads this
    {
      FrameTargets(size, config, view, depthTexture)
    }

    ghost function Clock(): FrameClock
      reads this
    {
      FrameClock(frameCount, accumTime, lastFrameTime)
    }

    ghost predicate Valid()
      reads this
    {
      && TargetsMatch(Targets(), SampleCount(platform))
      && config.format == format
      && frameCount < FRAMES_PER_REPORT
      && LastConfiguration(commands) == Some(config)
    }

    /** The part of `State::new` after the device exists: configure the
        surface at the window's size, build the targets, zero the counters. */
    constructor (platform: Target, size: PhysicalSize, format: TextureFormat, now: Instant)
      ensures Valid()
      ensures this.platform == platform && this.format == format && this.size == size
      ensures config == SurfaceConfig(format, size.width, size.height, Fifo)
      ensures frameCount == 0 && accumTime == 0 && lastUpdateTime == now && lastFrameTime == now
      ensures !mousePressed && guiEvents == [] && commands == [Configure(config)]
    {
      var config := SurfaceConfig(format, size.width, size.height, Fifo);
      this.platform := platform;
      this.format := format;
      this.size := size;
      this.config := config;
      view := CreateMultisampledFramebuffer(config, SampleCount(platform));
      depthTexture := CreateDepthTexture(config);
      frameCount, accumTime := 0, 0;
      lastUpdateTime, lastFrameTime := now, now;
      mousePressed := false;
      guiEvents := [];
      commands := [Configure(config)];
      LastConfigurationOfConfigure([], config);
    }

    /** Ignores zero-area sizes; otherwise reconfigures the surface at the new
        size and rebuilds both targets. */
    method Resize(newSize: PhysicalSize)
      requires Valid()
      modifies this
      ensures Valid()
      ensures Targets() == ResizeTargets(old(Targets()), newSize, SampleCount(platform))
      ensures commands == old(commands) + (if Positive(newSize) then [Configure(config)] else [])
      ensures Clock() == old(Clock()) && lastUpdateTime == old(lastUpdateTime)
      ensures mousePressed == old(mousePressed) && guiEvents == old(guiEvents)
    {
      if Positive(newSize) {
        size := newSize;
        config := config.(width := newSize.width, height := newSize.height);
        commands := commands + [Configure(config)];
        LastConfigurationOfConfigure(old(commands), config);
        view := CreateMultisampledFramebuffer(config, SampleCount(platform));
        depthTexture := CreateDepthTexture(config);
      }
    }

    /** Consumes a left-button press: captures the pointer and reports the
        event as handled. Every other event is left to the caller. */
    method Input(event: WindowEvent, window: Window) returns (consumed: bool)
      requires Valid()
      modifies this, window
      ensures Valid()
      ensures consumed <==> IsLeftPress(event)
      ensures consumed ==> mousePressed && window.grab && !window.visible
      ensures !consumed ==> mousePressed == old(mousePressed) && window.grab == old(window.grab) && window.visible == old(window.visible)
      ensures window.redraws == old(window.redraws)
      ensures Targets() == old(Targets()) && Clock() == old(Clock()) && lastUpdateTime == old(lastUpdateTime)
      ensures commands == old(commands) && guiEvents == old(guiEvents)
    {
      match event {
        case MouseInput(Pressed, Left) =>
          mousePressed := true;
          window.SetCursorGrab(true);
          window.SetCursorVisible(false);
          consumed := true;
        case _ =>
          consumed := false;
      }
    }

    /** Restarts the pacing interval (the delta it computes is unused). */
    method Update(now: Instant)
      requires Valid()
      modifies this
      ensures Valid()
      ensures lastUpdateTime == now
      ensures Targets() == old(Targets()) && Clock() == old(Clock()) && mousePressed == old(mousePressed)
      ensures commands == old(commands) && guiEvents == old(guiEvents)
    {
      lastUpdateTime := now;
    }

    /** Counts the frame, then asks the surface for an image (whose outcome
        is `acquire`). Only with an image does it record the render pass, run
        the GUI, submit and present. */
    method Render(now: Instant, acquire: SurfaceResult) returns (result: SurfaceResult)
      requires Valid()
      modifies this
      ensures Valid()
      ensures result == acquire
      ensures Clock() == CountFrame(old(Clock()), now)
      ensures commands == old(commands) + [AcquireTexture]
        + (if acquire.Ok? then FrameCommands(RenderPassFor(SampleCount(platform), view, depthTexture)) else [])
      ensures Targets() == old(Targets()) && lastUpdateTime == old(lastUpdateTime) && mousePressed == old(mousePressed)
      ensures guiEvents == old(guiEvents)
    {
      accumTime := accumTime + Elapsed(lastFrameTime, now);
      lastFrameTime := now;
      frameCount := frameCount + 1;
      if frameCount == FRAMES_PER_REPORT {
        accumTime := 0;
        frameCount := 0;
      }

      commands := commands + [AcquireTexture];
      LastConfigurationSkipsOtherCommands(old(commands), [AcquireTexture]);
      if acquire.Err? {
        return acquire;
      }
      var pass := RenderPassFor(SampleCount(platform), view, depthTexture);
      ghost var before := commands;
      commands := commands + FrameCommands(pass);
      LastConfigurationSkipsOtherCommands(before, FrameCommands(pass));
      result := Ok;
    }
  }
}
