/** The window-system values the renderer receives from winit. */
module Winit {
  import opened Base

  datatype PhysicalSize = PhysicalSize(width: u32, height: u32)

  datatype ElementState = Pressed | Released

  datatype VirtualKeyCode = Escape | OtherKey(code: nat)

  datatype KeyboardInput = KeyboardInput(state: ElementState, virtualKeycode: Option<VirtualKeyCode>)

  datatype WindowEvent =
    | CloseRequested
    | KeyboardInputEvent(input: KeyboardInput)
    | Resized(size: PhysicalSize)
    | ScaleFactorChanged(newInnerSize: PhysicalSize)
    | OtherWindowEvent(code: nat)

  type WindowId = nat

  datatype Event =
    | MouseMotion(dx: real, dy: real)
    | WindowEventOf(windowId: WindowId, event: WindowEvent)
    | RedrawRequested(windowId: WindowId)
    | MainEventsCleared
    | OtherEvent(code: nat)

  datatype ControlFlow = Poll | Wait | Exit
}
