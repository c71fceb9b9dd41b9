// The window events the demo reacts to, as delivered by the windowing
// library: keyboard input with an optional virtual key code, cursor motion,
// resizes and the close request. Everything else is one catch-all case.
module Winit {
  import opened Wrappers

  datatype ElementState = Pressed | Released

  /** The virtual key codes the demo names; every other key is OtherKey. */
  datatype VirtualKeyCode =
    | Q | E | W | Up | S | Down | A | Left | D | Right
    | Space | T | R | Escape
    | OtherKey(code: nat)

  datatype WindowEvent =
    | KeyboardInput(state: ElementState, virtualKeycode: Option<VirtualKeyCode>)
    | CursorMoved(x: real, y: real)
    | Resized(width: nat, height: nat)
    | ScaleFactorChanged(newWidth: nat, newHeight: nat)
    | CloseRequested
    | OtherEvent
}
