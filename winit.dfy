/** The winit events the renderer receives and the requests it makes of its window. */
module Winit {
  import opened Platform

  datatype PhysicalSize = PhysicalSize(width: u32, height: u32)

  type WindowId = nat

  datatype ElementState = Pressed | Released

  datatype MouseButton = Left | Right | Middle | OtherButton(code: nat)

  datatype VirtualKeyCode = Escape | OtherKey(code: nat)

  datatype WindowEvent =
    | CloseRequested
    | Resized(size: PhysicalSize)
    | ScaleFactorChanged(newInnerSize: PhysicalSize)
    | KeyboardInput(state: ElementState, virtualKeycode: Option<VirtualKeyCode>)
    | MouseInput(state: ElementState, button: MouseButton)
    | OtherWindowEvent(code: nat)

  datatype DeviceEvent = MouseMotion(dx: int, dy: int) | OtherDeviceEvent(code: nat)

  datatype Event =
    | MainEventsCleared
    | DeviceEvent(deviceEvent: DeviceEvent)
    | WindowEvent(windowId: WindowId, event: WindowEvent)
    | RedrawRequested(redrawWindow: WindowId)
    | RedrawEventsCleared
    | OtherEvent(code: nat)

  datatype ControlFlow = Poll | Wait | WaitUntil(deadline: Instant) | Exit

  /** The application window. Its fields record what the renderer last asked
      of it; whether the platform grants a grab is not modelled. */
  class Window {
    const id: WindowId
    ghost var grab: bool
    ghost var visible: bool
    ghost var redraws: nat

    constructor (id: WindowId)
      ensures this.id == id && !grab && visible && redraws == 0
    {
      this.id := id;
      grab, visible, redraws := false, true, 0;
    }

    method SetCursorGrab(grab: bool)
      modifies this
      ensures this.grab == grab && visible == old(visible) && redraws == old(redraws)
    {
      this.grab := grab;
    }

    method SetCursorVisible(visible: bool)
      modifies this
      ensures this.visible == visible && grab == old(grab) && redraws == old(redraws)
    {
      this.visible := visible;
    }

    method RequestRedraw()
      modifies this
      ensures redraws == old(redraws) + 1 && grab == old(grab) && visible == old(visible)
    {
      redraws := redraws + 1;
    }
  }
}
