/** The browser as the agents see it: a page that records, in order, the
    primitive input and navigation events it is asked to perform. Pauses are
    recorded too, so that a trace shows where the agent waits. */
module Browser {
  import opened Common

  datatype MouseButton = LeftButton | RightButton

  datatype Event =
    | SetTargetSelf(x: real, y: real)    // retarget the element under (x, y) to `_self`
    | MouseMove(x: real, y: real)
    | MouseDown
    | MouseUp
    | MouseClick(x: real, y: real, button: MouseButton)
    | MouseDblClick(x: real, y: real)
    | MouseWheel(dx: int, dy: int)
    | ScrollBy(dx: int, dy: int)         // `window.scrollBy(dx, dy)`
    | KeyDown(key: string)
    | KeyUp(key: string)
    | KeyPress(key: string)
    | TypeText(text: string)
    | Navigate(url: string)
    | GoBack
    | GoForward
    | Sleep(ms: int)
    | Screenshot(path: string)

  /** The page: everything done to it, oldest first. */
  class Page {
    var log: seq<Event>

    constructor()
      ensures log == []
    {
      log := [];
    }

    method Emit(e: Event)
      modifies this
      ensures log == old(log) + [e]
    {
      log := log + [e];
    }
  }

  // ---------------------------------------------------------------------------
  // Reading a trace back

  /** Replays key events against the stack of held keys: a key-down pushes,
      a key-up must release the most recently pressed key still held. None
      when a release does not match. */
  function Held(held: seq<string>, events: seq<Event>): Option<seq<string>>
    decreases |events|
  {
    if events == [] then Some(held)
    else
      match events[0]
      case KeyDown(k) => Held(held + [k], events[1..])
      case KeyUp(k) =>
        if held != [] && held[|held| - 1] == k then Held(held[..|held| - 1], events[1..]) else None
      case _ => Held(held, events[1..])
  }

  /** The pointer positions a trace visits, each with whether the button is
      down at that moment, and the button state at the end. */
  function Strokes(pressed: bool, events: seq<Event>): (seq<(real, real, bool)>, bool)
    decreases |events|
  {
    if events == [] then ([], pressed)
    else
      match events[0]
      case MouseMove(x, y) =>
        var rest := Strokes(pressed, events[1..]);
        ([(x, y, pressed)] + rest.0, rest.1)
      case MouseDown => Strokes(true, events[1..])
      case MouseUp => Strokes(false, events[1..])
      case _ => Strokes(pressed, events[1..])
  }
}
