/** The wgpu objects the renderer touches, as plain records, and a log of the
    calls it makes into wgpu (which the model does not perform). */
module Gpu {
  import opened Platform

  /** A surface texture format; which one the adapter offers is not modelled. */
  datatype TextureFormat = TextureFormat(id: nat)

  datatype PresentMode = Fifo | Mailbox | Immediate

  /** wgpu::SurfaceConfiguration (the usage is always RENDER_ATTACHMENT). */
  datatype SurfaceConfig = SurfaceConfig(format: TextureFormat, width: u32, height: u32, presentMode: PresentMode)

  /** The view of a colour texture made for rendering into. */
  datatype ColorTarget = ColorTarget(width: u32, height: u32, format: TextureFormat, samples: u32)

  /** The view of the depth texture. */
  datatype DepthTarget = DepthTarget(width: u32, height: u32)

  datatype Color = Color(r: real, g: real, b: real, a: real)

  datatype LoadOp<T> = Clear(value: T) | Load

  datatype Operations<T> = Operations(load: LoadOp<T>, store: bool)

  /** What a colour attachment can point at: the image acquired from the
      surface this frame, or the renderer's multisampled target. */
  datatype AttachmentView = SurfaceTexture | Multisampled(target: ColorTarget)

  datatype ColorAttachment = ColorAttachment(view: AttachmentView, resolveTarget: Option<AttachmentView>, ops: Operations<Color>)

  datatype DepthStencilAttachment = DepthStencilAttachment(view: DepthTarget, depthOps: Option<Operations<real>>, stencilOps: Option<Operations<u32>>)

  datatype RenderPassDescriptor = RenderPassDescriptor(color: ColorAttachment, depthStencil: Option<DepthStencilAttachment>)

  /** wgpu::SurfaceError. */
  datatype SurfaceError = Timeout | Outdated | Lost | OutOfMemory

  /** The outcome of `Surface::get_current_texture`, and of `State::render`. */
  datatype SurfaceResult = Ok | Err(error: SurfaceError)

  /** One call into wgpu or into the GUI layer, in the order it is made. */
  datatype Command =
    | Configure(config: SurfaceConfig)
    | AcquireTexture
    | BeginRenderPass(pass: RenderPassDescriptor)
    | GuiPrepare
    | GuiRender
    | Submit
    | Present

  /** The configuration the surface was most recently configured with. */
  function LastConfiguration(log: seq<Command>): Option<SurfaceConfig>
    decreases |log|
  {
    if log == [] then None
    else if log[|log| - 1].Configure? then Some(log[|log| - 1].config)
    else LastConfiguration(log[..|log| - 1])
  }

  /** Commands that do not configure the surface leave its configuration alone. */
  lemma {:induction false} LastConfigurationSkipsOtherCommands(log: seq<Command>, ops: seq<Command>)
    requires forall i :: 0 <= i < |ops| ==> !ops[i].Configure?
    ensures LastConfiguration(log + ops) == LastConfiguration(log)
    decreases |ops|
  {
    if ops == [] {
      assert log + ops == log;
    } else {
      var front := ops[..|ops| - 1];
      assert (log + ops)[|log + ops| - 1] == ops[|ops| - 1];
      assert (log + ops)[..|log + ops| - 1] == log + front;
      LastConfigurationSkipsOtherCommands(log, front);
    }
  }

  /** Configuring the surface makes that configuration the current one. */
  lemma LastConfigurationOfConfigure(log: seq<Command>, config: SurfaceConfig)
    ensures LastConfiguration(log + [Configure(config)]) == Some(config)
  {
  }
}
