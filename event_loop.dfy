/** The closure `run` hands to the winit event loop: it routes each event to
    the renderer's state, applies the surface-error policy and paces redraws
    to 60 Hz. */
module EventLoop {
  import opened Platform
  import opened Gpu
  import opened Winit
  import opened FrameState

  /** `Duration::from_secs_f64(1.0 / 60.0)`, in nanoseconds. Whether that
      conversion rounds (16_666_667) or truncates (16_666_666) depends on the
      toolchain; the proofs use only that the interval is positive. */
  const TARGET_FRAMETIME: nat := 16_666_666

  predicate IsEscapePress(e: WindowEvent)
  {
    e.KeyboardInput? && e.state == Pressed && e.virtualKeycode == Some(Escape)
  }

  /** Which branch of the closure an event takes. */
  datatype Route =
    | RequestRedraw
    | NoAction
    | CaptureCursor
    | ExitLoop
    | ReleaseCursor
    | ResizeSurface(size: PhysicalSize)
    | ForwardToGui(event: WindowEvent)
    | RenderFrame
    | PaceFrame

  /** The branch taken for `event`, given the window's id, whether the
      pointer is captured, and the build target. */
  function Dispatch(event: Event, windowId: WindowId, mousePressed: bool, platform: Target): (r: Route)
    // events for another window, and device events, have no effect
    ensures event.WindowEvent? && event.windowId != windowId ==> r == NoAction
    ensures event.RedrawRequested? && event.redrawWindow != windowId ==> r == NoAction
    ensures event.DeviceEvent? ==> r == NoAction
    // a left click is consumed by `State::input` and never reaches the GUI
    ensures r == CaptureCursor <==> event.WindowEvent? && event.windowId == windowId && IsLeftPress(event.event)
    ensures r.ForwardToGui? ==> event == WindowEvent(windowId, r.event) && !IsLeftPress(r.event)
    // every event for this window that no arm matches goes to the GUI
    ensures event.WindowEvent? && event.windowId == windowId
      && !IsLeftPress(event.event) && !(event.event == CloseRequested && platform == Native)
      && !IsEscapePress(event.event) && !event.event.Resized? && !event.event.ScaleFactorChanged?
      ==> r == ForwardToGui(event.event)
    // and only the events listed above are dropped
    ensures r == NoAction <==>
      && !(event.WindowEvent? && event.windowId == windowId)
      && event != RedrawRequested(windowId) && event != MainEventsCleared && event != RedrawEventsCleared
    // the loop is told to exit only by a close request (not on the web) or by
    // Escape while the pointer is free
    ensures r == ExitLoop <==>
      && event.WindowEvent? && event.windowId == windowId
      && ((event.event == CloseRequested && platform == Native) || (IsEscapePress(event.event) && !mousePressed))
    ensures r == ReleaseCursor <==>
      event.WindowEvent? && event.windowId == windowId && IsEscapePress(event.event) && mousePressed
    ensures platform == Wasm32 && event == WindowEvent(windowId, CloseRequested) ==> r == ForwardToGui(CloseRequested)
    // both size events go through `State::resize`
    ensures r.ResizeSurface? <==>
      event.WindowEvent? && event.windowId == windowId && (event.event.Resized? || event.event.ScaleFactorChanged?)
    ensures r.ResizeSurface? ==> r.size == (if event.event.Resized? then event.event.size else event.event.newInnerSize)
    ensures r == RenderFrame <==> event == RedrawRequested(windowId)
    ensures r == PaceFrame <==> event == RedrawEventsCleared
    ensures r == RequestRedraw <==> event == MainEventsCleared
  {
    match event
    case MainEventsCleared => RequestRedraw
    case DeviceEvent(_) => NoAction
    case WindowEvent(id, e) =>
      if id != windowId then NoAction
      else if IsLeftPress(e) then CaptureCursor
      else if e == CloseRequested && platform == Native then ExitLoop
      else if IsEscapePress(e) then (if mousePressed then ReleaseCursor else ExitLoop)
      else if e.Resized? then ResizeSurface(e.size)
      else if e.ScaleFactorChanged? then ResizeSurface(e.newInnerSize)
      else ForwardToGui(e)
    case RedrawRequested(id) => if id == windowId then RenderFrame else NoAction
    case RedrawEventsCleared => PaceFrame
    case OtherEvent(_) => NoAction
  }

  /** The pacing decision made when redraw events have been cleared. */
  datatype Pacing = Redraw | Sleep(deadline: Instant)

  function Pace(lastUpdate: Instant, now: Instant): (p: Pacing)
    // redraw once a whole frame interval has passed since the last update
    ensures p.Redraw? <==> Elapsed(lastUpdate, now) >= TARGET_FRAMETIME
    // otherwise sleep until strictly later, and for at most one interval
    ensures p.Sleep? ==> now < p.deadline <= now + TARGET_FRAMETIME
    // which is exactly one interval after the last update
    ensures p.Sleep? && lastUpdate <= now ==> p.deadline == lastUpdate + TARGET_FRAMETIME
    // and, if the clock ran backwards, one interval after now
    ensures p.Sleep? && now < lastUpdate ==> p.deadline == now + TARGET_FRAMETIME
  {
    var sinceLast := Elapsed(lastUpdate, now);
    if sinceLast >= TARGET_FRAMETIME then Redraw
    else Sleep(now + TARGET_FRAMETIME - sinceLast)
  }

  /** The control flow the closure leaves behind; it first resets it to Poll. */
  function ControlFlowAfter(route: Route, pacing: Pacing, acquire: SurfaceResult): (cf: ControlFlow)
    ensures cf == Exit <==> route == ExitLoop || (route == RenderFrame && acquire == Err(OutOfMemory))
    ensures cf.WaitUntil? <==> route == PaceFrame && pacing.Sleep?
    ensures cf.WaitUntil? ==> cf.deadline == pacing.deadline
    ensures cf == Poll || cf == Exit || cf.WaitUntil?
  {
    match route
    case ExitLoop => Exit
    case RenderFrame => if acquire == Err(OutOfMemory) then Exit else Poll
    case PaceFrame => if pacing.Sleep? then WaitUntil(pacing.deadline) else Poll
    case _ => Poll
  }

  /** The pacing redraw: the one requested after redraw events are cleared. */
  predicate PacedRedraw(lastUpdate: Instant, event: Event, now: Instant)
  {
    event == RedrawEventsCleared && Pace(lastUpdate, now).Redraw?
  }

  /** Every redraw request the closure makes. */
  predicate RequestsRedraw(lastUpdate: Instant, event: Event, now: Instant)
  {
    event == MainEventsCleared || PacedRedraw(lastUpdate, event, now)
  }

  /** `last_update_time` after one event: a rendered frame and a paced
      redraw both restart the interval. */
  function NextUpdateTime(lastUpdate: Instant, event: Event, windowId: WindowId, now: Instant): (r: Instant)
    // a frame rendered for this window and a paced redraw restart the interval at now
    ensures event == RedrawRequested(windowId) || PacedRedraw(lastUpdate, event, now) ==> r == now
    // every other event leaves it where it was
    ensures !(event == RedrawRequested(windowId) || PacedRedraw(lastUpdate, event, now)) ==> r == lastUpdate
    // with a clock that has not run backwards, it never moves back
    ensures lastUpdate <= now ==> lastUpdate <= r <= now
  {
    if event == RedrawRequested(windowId) || PacedRedraw(lastUpdate, event, now) then now else lastUpdate
  }

  class App {
    const window: Window
    const state: State
    var controlFlow: ControlFlow

    ghost predicate Valid()
      reads this, window, state
    {
      && state.Valid()
      // the window's cursor reflects the capture flag
      && window.grab == state.mousePressed
      && window.visible == !state.mousePressed
    }

    ghost function CurrentRoute(event: Event): Route
      reads this, window, state
    {
      Dispatch(event, window.id, state.mousePressed, state.platform)
    }

    /** The window, the renderer state, and the loop before its first event. */
    constructor (platform: Target, id: WindowId, size: PhysicalSize, format: TextureFormat, now: Instant)
      ensures Valid() && fresh(window) && fresh(state)
      ensures window.id == id && !window.grab && window.visible && window.redraws == 0
      ensures state.platform == platform && state.size == size && state.format == format
      ensures state.config == SurfaceConfig(format, size.width, size.height, Fifo)
      ensures state.frameCount == 0 && state.accumTime == 0 && state.lastUpdateTime == now && state.lastFrameTime == now
      ensures !state.mousePressed && state.guiEvents == [] && state.commands == [Configure(state.config)]
      ensures controlFlow == Poll
    {
      window := new Window(id);
      state := new State(platform, size, format, now);
      controlFlow := Poll;
    }

    /** What one call of the closure does, given the route the event takes
        in the pre-state. */
    twostate predicate Stepped(event: Event, now: Instant, acquire: SurfaceResult)
      reads this, window, state
    {
      var route := old(CurrentRoute(event));
      var lastUpdate := old(state.lastUpdateTime);
      && controlFlow == ControlFlowAfter(route, Pace(lastUpdate, now), acquire)
      && state.lastUpdateTime == NextUpdateTime(lastUpdate, event, window.id, now)
      && window.redraws == old(window.redraws) + (if RequestsRedraw(lastUpdate, event, now) then 1 else 0)
      // capture is taken by a left click and released by Escape, nothing else
      && state.mousePressed == (if route == CaptureCursor then true else if route == ReleaseCursor then false else old(state.mousePressed))
      && state.guiEvents == old(state.guiEvents) + (if route.ForwardToGui? then [route.event] else [])
      // only size events change the frame targets; a lost surface keeps them
      && state.Targets() ==
           (if route.ResizeSurface? then ResizeTargets(old(state.Targets()), route.size, SampleCount(state.platform))
            else old(state.Targets()))
      && state.Clock() == (if route == RenderFrame then CountFrame(old(state.Clock()), now) else old(state.Clock()))
      && (route.ResizeSurface? ==>
           state.commands == old(state.commands) + (if Positive(route.size) then [Configure(state.config)] else []))
      // a frame asks for an image; it is drawn and presented only if one came,
      // and a lost surface is reconfigured with the current configuration
      && (route == RenderFrame ==>
           state.commands == old(state.commands) + [AcquireTexture]
             + (if acquire.Ok? then FrameCommands(RenderPassFor(SampleCount(state.platform), state.view, state.depthTexture)) else [])
             + (if acquire == Err(Lost) && Positive(state.size) then [Configure(state.config)] else []))
      && (!route.ResizeSurface? && route != RenderFrame ==> state.commands == old(state.commands))
    }

    /** One call of the event-loop closure. `acquire` is what the surface
        returns if this event renders a frame. */
    method Handle(event: Event, now: Instant, acquire: SurfaceResult)
      requires Valid()
      modifies this, window, state
      ensures Valid() && Stepped(event, now, acquire)
    {
      controlFlow := Poll;
      match event {
        case MainEventsCleared =>
          window.RequestRedraw();
        case DeviceEvent(_) =>
          // mouse motion would drive a camera controller, which is not wired up
        case WindowEvent(id, e) =>
          HandleWindowEvent(id, e, now, acquire);
        case RedrawRequested(id) =>
          HandleRedrawRequested(id, now, acquire);
        case RedrawEventsCleared =>
          HandleRedrawEventsCleared(now, acquire);
        case OtherEvent(_) =>
      }
    }

    /** The WindowEvent arm: `State::input` sees the event first, and only an
        event it does not consume is matched further. */
    method HandleWindowEvent(id: WindowId, e: WindowEvent, now: Instant, acquire: SurfaceResult)
      requires Valid() && controlFlow == Poll
      modifies this, window, state
      ensures Valid() && Stepped(WindowEvent(id, e), now, acquire)
    {
      if id == window.id {
        var consumed := state.Input(e, window);
        if !consumed {
          if e == CloseRequested && state.platform == Native {
            controlFlow := Exit;
          } else if IsEscapePress(e) {
            if state.mousePressed {
              window.SetCursorGrab(false);
              window.SetCursorVisible(true);
              state.mousePressed := false;
            } else {
              controlFlow := Exit;
            }
          } else if e.Resized? {
            state.Resize(e.size);
          } else if e.ScaleFactorChanged? {
            state.Resize(e.newInnerSize);
          } else {
            state.guiEvents := state.guiEvents + [e];
          }
        }
      }
    }

    /** The RedrawRequested arm and its surface-error policy. */
    method HandleRedrawRequested(id: WindowId, now: Instant, acquire: SurfaceResult)
      requires Valid() && controlFlow == Poll
      modifies this, window, state
      ensures Valid() && Stepped(RedrawRequested(id), now, acquire)
    {
      if id == window.id {
        state.Update(now);
        var result := state.Render(now, acquire);
        match result {
          case Ok =>
          case Err(Lost) =>
            state.Resize(state.size);
          case Err(OutOfMemory) =>
            controlFlow := Exit;
          case Err(_) =>
            // Outdated and Timeout are only reported; the next frame retries
        }
      }
    }

    /** The RedrawEventsCleared arm: hold the redraw rate to 60 Hz. */
    method HandleRedrawEventsCleared(now: Instant, acquire: SurfaceResult)
      requires Valid() && controlFlow == Poll
      modifies this, window, state
      ensures Valid() && Stepped(RedrawEventsCleared, now, acquire)
    {
      var sinceLast := Elapsed(state.lastUpdateTime, now);
      if sinceLast >= TARGET_FRAMETIME {
        window.RequestRedraw();
        state.lastUpdateTime := now;
      } else {
        controlFlow := WaitUntil(now + TARGET_FRAMETIME - sinceLast);
      }
    }
  }

  /** An event and the instant it is handled at. */
  datatype Timed = Timed(event: Event, at: Instant)

  /** `last_update_time` after handling every event of `trace`. */
  function UpdateTimeAfter(start: Instant, trace: seq<Timed>, windowId: WindowId): Instant
    decreases |trace|
  {
    if trace == [] then start
    else
      var k := |trace| - 1;
      NextUpdateTime(UpdateTimeAfter(start, trace[..k], windowId), trace[k].event, windowId, trace[k].at)
  }

  /** The clock never runs backwards. */
  ghost predicate Monotone(trace: seq<Timed>)
  {
    forall i, j :: 0 <= i < j < |trace| ==> trace[i].at <= trace[j].at
  }

  /** The event at position `i` of `trace` makes a pacing redraw request. */
  predicate PacedRedrawAt(start: Instant, trace: seq<Timed>, windowId: WindowId, i: nat)
    requires i < |trace|
  {
    PacedRedraw(UpdateTimeAfter(start, trace[..i], windowId), trace[i].event, trace[i].at)
  }

  /** After a pacing redraw, the last update is never earlier than it. */
  lemma {:induction false} UpdateTimeStaysAfterPacedRedraw(start: Instant, trace: seq<Timed>, windowId: WindowId, i: nat, k: nat)
    requires Monotone(trace)
    requires i < k <= |trace|
    requires PacedRedrawAt(start, trace, windowId, i)
    ensures UpdateTimeAfter(start, trace[..k], windowId) >= trace[i].at
    decreases k
  {
    assert trace[..k][..k - 1] == trace[..k - 1];
    if k > i + 1 {
      UpdateTimeStaysAfterPacedRedraw(start, trace, windowId, i, k - 1);
    }
  }

  /** Two pacing redraw requests are at least one frame interval apart. */
  lemma PacedRedrawsAreOneFrameApart(start: Instant, trace: seq<Timed>, windowId: WindowId, i: nat, j: nat)
    requires Monotone(trace)
    requires i < j < |trace|
    requires PacedRedrawAt(start, trace, windowId, i) && PacedRedrawAt(start, trace, windowId, j)
    ensures trace[i].at + TARGET_FRAMETIME <= trace[j].at
  {
    UpdateTimeStaysAfterPacedRedraw(start, trace, windowId, i, j);
  }

  /** The event at position `i` of `trace` makes a redraw request of any kind. */
  predicate RequestsRedrawAt(start: Instant, trace: seq<Timed>, windowId: WindowId, i: nat)
    requires i < |trace|
  {
    RequestsRedraw(UpdateTimeAfter(start, trace[..i], windowId), trace[i].event, trace[i].at)
  }

  /** Pacing does not bound the redraw rate: every MainEventsCleared asks
      for a redraw, so a trace whose clock never runs backwards can hold two
      requests less than one interval apart. */
  lemma RedrawRequestsAreNotRateLimited(start: Instant, windowId: WindowId, now: Instant)
    ensures var trace := [Timed(MainEventsCleared, now), Timed(MainEventsCleared, now)];
      && Monotone(trace)
      && RequestsRedrawAt(start, trace, windowId, 0)
      && RequestsRedrawAt(start, trace, windowId, 1)
      && trace[1].at - trace[0].at < TARGET_FRAMETIME
  {
  }
}
