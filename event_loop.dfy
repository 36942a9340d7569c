/** The event loop's dispatch: which state operations each window-system event triggers, in
    which order, and when the loop is asked to exit. The state's answers to the questions the loop
    asks it (is the mouse pressed, did the controller consume the event, did the frame render) and
    the clock's reading are given with each event; the calls the loop makes are appended, in
    order, to a trace. */
module EventLoop {
  import opened Base
  import opened Wgpu
  import opened Winit

  /** A call the loop makes on the state or the window. */
  datatype Call =
    | ProcessMouse(dx: real, dy: real)
    | Input(event: WindowEvent)
    | Resize(size: PhysicalSize)
    | Update(dt: real)
    | Render
    | ReconfigureSurface
    | LogError(error: SurfaceError)
    | RequestRedraw

  /** What the state and the clock answer while one event is handled: `mouse_pressed()`, the
      result of `input`, the instant read on a redraw, and the result of `render`. */
  datatype Answers = Answers(mousePressed: bool, consumed: bool, now: real, rendered: Result<(), SurfaceError>)

  /** `CloseRequested`, or the Escape key pressed. */
  predicate ExitKey(e: WindowEvent) {
    || e.CloseRequested?
    || (e.KeyboardInputEvent? && e.input.state == Pressed && e.input.virtualKeycode == Some(Escape))
  }

  /** What happens after a frame was attempted: nothing if it rendered, a reconfiguration if the
      surface was lost, nothing further (the loop exits) when out of memory, a log line for the
      rest. */
  function AfterRender(rendered: Result<(), SurfaceError>): seq<Call> {
    match rendered
    case Ok(_) => []
    case Err(Lost) => [ReconfigureSurface]
    case Err(OutOfMemory) => []
    case Err(err) => [LogError(err)]
  }

  /** The calls made while handling `event` for window `window`, with `last` the instant of the
      previous redraw. */
  function Calls(window: WindowId, event: Event, a: Answers, last: real): seq<Call> {
    match event
    case MouseMotion(dx, dy) => if a.mousePressed then [ProcessMouse(dx, dy)] else []
    case WindowEventOf(id, e) =>
      if id != window then []
      else if a.consumed then [Input(e)]
      else if e.Resized? then [Input(e), Resize(e.size)]
      else if e.ScaleFactorChanged? then [Input(e), Resize(e.newInnerSize)]
      else [Input(e)]
    case RedrawRequested(id) =>
      if id != window then [] else [Update(a.now - last), Render] + AfterRender(a.rendered)
    case MainEventsCleared => [RequestRedraw]
    case OtherEvent(_) => []
  }

  /** Whether handling `event` sets the control flow to `Exit`. */
  predicate ExitRequested(window: WindowId, event: Event, a: Answers) {
    match event
    case WindowEventOf(id, e) => id == window && !a.consumed && ExitKey(e)
    case RedrawRequested(id) => id == window && a.rendered == Err(OutOfMemory)
    case _ => false
  }

  /** The loop's own state: the window it serves, the control flow and the last redraw's
      instant. */
  class Driver {
    const window: WindowId
    var controlFlow: ControlFlow
    var lastRenderTime: real
    var calls: seq<Call>

    /** The loop as `run` starts it, with the instant read just before. */
    constructor Start(window: WindowId, start: real)
      ensures this.window == window && controlFlow == Poll && lastRenderTime == start && calls == []
    {
      this.window := window;
      controlFlow := Poll;
      lastRenderTime := start;
      calls := [];
    }

    /** The event closure, for one event. */
    method Handle(event: Event, a: Answers)
      modifies this`controlFlow, this`lastRenderTime, this`calls
      ensures calls == old(calls) + Calls(window, event, a, old(lastRenderTime))
      ensures controlFlow == if ExitRequested(window, event, a) then Exit else old(controlFlow)
      ensures lastRenderTime == if event == RedrawRequested(window) then a.now else old(lastRenderTime)
    {
      match event {
        case MouseMotion(dx, dy) =>
          if a.mousePressed {
            calls := calls + [ProcessMouse(dx, dy)];
          }
        case WindowEventOf(id, e) =>
          if id == window {
            calls := calls + [Input(e)];
            if !a.consumed {
              match e {
                case CloseRequested =>
                  controlFlow := Exit;
                case KeyboardInputEvent(input) =>
                  if input.state == Pressed && input.virtualKeycode == Some(Escape) {
                    controlFlow := Exit;
                  }
                case Resized(size) =>
                  calls := calls + [Resize(size)];
                case ScaleFactorChanged(size) =>
                  calls := calls + [Resize(size)];
                case OtherWindowEvent(_) =>
              }
            }
          }
        case RedrawRequested(id) =>
          if id == window {
            var now := a.now;
            var dt := now - lastRenderTime;
            lastRenderTime := now;
            calls := calls + [Update(dt)];
            calls := calls + [Render];
            match a.rendered {
              case Ok(_) =>
              case Err(Lost) =>
                calls := calls + [ReconfigureSurface];
              case Err(OutOfMemory) =>
                controlFlow := Exit;
              case Err(err) =>
                calls := calls + [LogError(err)];
            }
          }
        case MainEventsCleared =>
          calls := calls + [RequestRedraw];
        case OtherEvent(_) =>
      }
    }
  }

  /** Over every event: the surface is reconfigured exactly once when a redraw of this window
      finds it lost, and never otherwise; a lost surface does not end the loop. */
  lemma ReconfigureExactlyWhenLost(window: WindowId, event: Event, a: Answers, last: real)
    ensures multiset(Calls(window, event, a, last))[ReconfigureSurface]
      == if event == RedrawRequested(window) && a.rendered == Err(Lost) then 1 else 0
    ensures event == RedrawRequested(window) && a.rendered == Err(Lost) ==> !ExitRequested(window, event, a)
  {
    var c := Calls(window, event, a, last);
    if event == RedrawRequested(window) {
      assert c == [Update(a.now - last), Render] + AfterRender(a.rendered);
      assert multiset(c) == multiset([Update(a.now - last), Render]) + multiset(AfterRender(a.rendered));
    }
  }

  /** A redraw of this window that runs out of memory asks the loop to exit and makes no call
      after `render`. */
  lemma OutOfMemoryExits(window: WindowId, a: Answers, last: real)
    requires a.rendered == Err(OutOfMemory)
    ensures ExitRequested(window, RedrawRequested(window), a)
    ensures Calls(window, RedrawRequested(window), a, last)[|Calls(window, RedrawRequested(window), a, last)| - 1] == Render
  {
  }

  /** Any other render error (a timeout or an outdated surface) is logged and nothing else
      happens: no reconfiguration, no resize, no exit. */
  lemma OtherErrorsOnlyLogged(window: WindowId, a: Answers, last: real, err: SurfaceError)
    requires a.rendered == Err(err) && err != Lost && err != OutOfMemory
    ensures Calls(window, RedrawRequested(window), a, last) == [Update(a.now - last), Render, LogError(err)]
    ensures !ExitRequested(window, RedrawRequested(window), a)
  {
  }

  /** Over every event: `render` is called exactly when this window is asked to redraw, and then
      it is the second call, directly after `update` with the time elapsed since the last redraw;
      `update` is never called otherwise. */
  lemma UpdateBeforeRender(window: WindowId, event: Event, a: Answers, last: real)
    ensures var c := Calls(window, event, a, last);
      (Render in c <==> event == RedrawRequested(window))
      && (Update(a.now - last) in c <==> event == RedrawRequested(window))
    ensures event == RedrawRequested(window) ==>
      var c := Calls(window, event, a, last);
      && c[0] == Update(a.now - last) && c[1] == Render
      && forall i :: 0 <= i < |c| && c[i] == Render ==> i == 1
  {
    var c := Calls(window, event, a, last);
    if event == RedrawRequested(window) {
      assert c[1] == Render;
      assert c[0] == Update(a.now - last);
      assert c[2..] == AfterRender(a.rendered) && Render !in AfterRender(a.rendered);
    } else {
      match event {
        case RedrawRequested(id) =>
          assert c == [];
        case WindowEventOf(id, e) =>
          assert forall i :: 0 <= i < |c| ==> c[i].Input? || c[i].Resize?;
        case _ =>
      }
    }
  }

  /** A window event the controller consumed goes nowhere else: the only call is `input` and the
      loop does not exit. */
  lemma ConsumedStopsThere(window: WindowId, e: WindowEvent, a: Answers, last: real)
    requires a.consumed
    ensures Calls(window, WindowEventOf(window, e), a, last) == [Input(e)]
    ensures !ExitRequested(window, WindowEventOf(window, e), a)
  {
  }

  /** Over every event: `resize` is called with size s exactly when an unconsumed `Resized(s)` or
      `ScaleFactorChanged(s)` arrives for this window, and then it is called once, after
      `input`. */
  lemma ResizeForwarded(window: WindowId, event: Event, a: Answers, last: real, s: PhysicalSize)
    ensures Resize(s) in Calls(window, event, a, last) <==>
      !a.consumed && (event == WindowEventOf(window, Resized(s)) || event == WindowEventOf(window, ScaleFactorChanged(s)))
    ensures !a.consumed && (event == WindowEventOf(window, Resized(s)) || event == WindowEventOf(window, ScaleFactorChanged(s))) ==>
      Calls(window, event, a, last) == [Input(event.event), Resize(s)]
  {
    var c := Calls(window, event, a, last);
    if event.RedrawRequested? && event.windowId == window {
      assert c == [Update(a.now - last), Render] + AfterRender(a.rendered);
      assert forall i :: 0 <= i < |c| ==> !c[i].Resize?;
    }
  }

  /** Over every event: the loop exits exactly on an unconsumed close request or Escape press for
      this window, or a redraw of this window that runs out of memory. */
  lemma ExitCases(window: WindowId, event: Event, a: Answers)
    ensures ExitRequested(window, event, a) <==>
      || (!a.consumed && event == WindowEventOf(window, CloseRequested))
      || (!a.consumed && exists input: KeyboardInput {:trigger KeyboardInputEvent(input)} ::
            input.state == Pressed && input.virtualKeycode == Some(Escape) && event == WindowEventOf(window, KeyboardInputEvent(input)))
      || (event == RedrawRequested(window) && a.rendered == Err(OutOfMemory))
  {
    if ExitRequested(window, event, a) && event.WindowEventOf? && event.event.KeyboardInputEvent? {
      var input := event.event.input;
      assert event == WindowEventOf(window, KeyboardInputEvent(input));
    }
  }

  /** Over every event: the mouse delta reaches the controller exactly when the mouse moved
      while pressed. */
  lemma MouseOnlyWhilePressed(window: WindowId, event: Event, a: Answers, last: real, dx: real, dy: real)
    ensures ProcessMouse(dx, dy) in Calls(window, event, a, last) <==> event == MouseMotion(dx, dy) && a.mousePressed
  {
    var c := Calls(window, event, a, last);
    if event.RedrawRequested? && event.windowId == window {
      assert c == [Update(a.now - last), Render] + AfterRender(a.rendered);
      assert forall i :: 0 <= i < |c| ==> !c[i].ProcessMouse?;
    }
  }

  /** Events for another window are ignored altogether. */
  lemma OtherWindowIgnored(window: WindowId, other: WindowId, e: WindowEvent, a: Answers, last: real)
    requires other != window
    ensures Calls(window, WindowEventOf(other, e), a, last) == []
    ensures Calls(window, RedrawRequested(other), a, last) == []
    ensures !ExitRequested(window, WindowEventOf(other, e), a) && !ExitRequested(window, RedrawRequested(other), a)
  {
  }
}
