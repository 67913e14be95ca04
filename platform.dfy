/** Build-target constants and the clock, as the renderer sees them. */
module Platform {

  /** The `u32` that wgpu and winit use for pixel sizes and sample counts. */
  type u32 = x: int | 0 <= x < 0x1_0000_0000

  datatype Option<T> = None | Some(value: T)

  /** The two builds that `cfg(target_arch = "wasm32")` tells apart. */
  datatype Target = Wasm32 | Native

  /** SAMPLE_COUNT: multisampling is switched off on the browser backend. */
  function SampleCount(target: Target): (n: u32)
    ensures n >= 1
    ensures n == 1 <==> target == Wasm32
    ensures target == Native ==> n == 4
  {
    if target == Wasm32 then 1 else 4
  }

  /** An `Instant`, in nanoseconds from an arbitrary origin. */
  type Instant = nat

  /** `Instant::elapsed` / `duration_since`: the time from `since` to `now`,
      saturating at zero when `now` is the earlier reading. */
  function Elapsed(since: Instant, now: Instant): (d: nat)
    ensures since <= now ==> since + d == now
    ensures now <= since ==> d == 0
  {
    if since <= now then now - since else 0
  }
}
