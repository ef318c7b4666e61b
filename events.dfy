/** The values a macro recorder captures and replays: raw input notifications
    from the mouse and keyboard listeners, the events stored for them, and the
    controller calls that replay a stored event. Time is counted in integer
    ticks of an abstract clock; an event's `time` is ticks since the recording
    epoch. */
module Events {

  /** A mouse button as the mouse listener reports it. */
  datatype Button = Left | Middle | Right | Extra(code: nat)

  /** A key as the keyboard listener reports it: a named special key or a
      character key. */
  datatype Key = Special(name: string) | Char(c: char)

  /** The recording hotkey. The keyboard callbacks never store it. */
  const F8: Key := Special("f8")

  /** One stored event; `time` is ticks since the recording epoch. */
  datatype Event =
    | Move(time: int, x: int, y: int)
    | Click(time: int, x: int, y: int, button: Button, pressed: bool)
    | Scroll(time: int, x: int, y: int, dx: int, dy: int)
    | Press(time: int, key: Key)
    | Release(time: int, key: Key)

  /** The arguments one listener callback receives. */
  datatype Input =
    | MouseMoved(x: int, y: int)
    | MouseClicked(x: int, y: int, button: Button, pressed: bool)
    | MouseScrolled(x: int, y: int, dx: int, dy: int)
    | KeyPressed(key: Key)
    | KeyReleased(key: Key)

  /** One call on the mouse or keyboard controller. */
  datatype Action =
    | SetPosition(x: int, y: int)
    | PressButton(button: Button)
    | ReleaseButton(button: Button)
    | ScrollBy(dx: int, dy: int)
    | PressKey(key: Key)
    | ReleaseKey(key: Key)

  /** A press or release of the recording hotkey. */
  predicate IsHotkey(i: Input) {
    (i.KeyPressed? || i.KeyReleased?) && i.key == F8
  }

  predicate IsHotkeyEvent(e: Event) {
    (e.Press? || e.Release?) && e.key == F8
  }

  /** The event a callback stores for input `i` observed `t` ticks after the
      epoch: the callback's own arguments, tagged with the time. */
  function Stamp(i: Input, t: int): (e: Event)
    ensures e.time == t
    ensures IsHotkeyEvent(e) <==> IsHotkey(i)
  {
    match i
    case MouseMoved(x, y) => Move(t, x, y)
    case MouseClicked(x, y, b, pressed) => Click(t, x, y, b, pressed)
    case MouseScrolled(x, y, dx, dy) => Scroll(t, x, y, dx, dy)
    case KeyPressed(k) => Press(t, k)
    case KeyReleased(k) => Release(t, k)
  }

  /** The callback arguments a stored event was made from. */
  function Unstamp(e: Event): Input {
    match e
    case Move(_, x, y) => MouseMoved(x, y)
    case Click(_, x, y, b, pressed) => MouseClicked(x, y, b, pressed)
    case Scroll(_, x, y, dx, dy) => MouseScrolled(x, y, dx, dy)
    case Press(_, k) => KeyPressed(k)
    case Release(_, k) => KeyReleased(k)
  }

  /** A stored event keeps exactly the callback's arguments and its time. */
  lemma StampRoundTrip(i: Input, t: int, e: Event)
    ensures Unstamp(Stamp(i, t)) == i
    ensures Stamp(Unstamp(e), e.time) == e
  {
  }

  /** The controller call that replays `e`: a move sets the pointer position,
      a click presses or releases its button according to `pressed`, a scroll
      scrolls by its deltas (its stored position is not used), and key events
      press or release their key. */
  function ActionOf(e: Event): (a: Action)
    ensures forall px, py ::
      ((e.Click? || e.Scroll?) ==> px == e.x && py == e.y) ==> Observe(a, px, py) == Unstamp(e)
  {
    match e
    case Move(_, x, y) => SetPosition(x, y)
    case Click(_, _, _, b, pressed) => if pressed then PressButton(b) else ReleaseButton(b)
    case Scroll(_, _, _, dx, dy) => ScrollBy(dx, dy)
    case Press(_, k) => PressKey(k)
    case Release(_, k) => ReleaseKey(k)
  }

  /** The callback arguments the listeners report when the controllers
      perform `a` while the pointer is at (`px`, `py`): a button or scroll
      is reported at the current pointer position, a pointer move at its
      new position. */
  function Observe(a: Action, px: int, py: int): Input {
    match a
    case SetPosition(x, y) => MouseMoved(x, y)
    case PressButton(b) => MouseClicked(px, py, b, true)
    case ReleaseButton(b) => MouseClicked(px, py, b, false)
    case ScrollBy(dx, dy) => MouseScrolled(px, py, dx, dy)
    case PressKey(k) => KeyPressed(k)
    case ReleaseKey(k) => KeyReleased(k)
  }

  /** Replaying a stored event, with the pointer where it was when a click or
      scroll was captured, makes the listeners report the input it was
      recorded from. */
  lemma ReplayReproducesInput(e: Event, px: int, py: int)
    requires (e.Click? || e.Scroll?) ==> px == e.x && py == e.y
    ensures Observe(ActionOf(e), px, py) == Unstamp(e)
    ensures Stamp(Observe(ActionOf(e), px, py), e.time) == e
  {
    StampRoundTrip(Unstamp(e), e.time, e);
  }

  /** A scroll is replayed at the current pointer position: the stored
      position has no effect on the action. */
  lemma ScrollIgnoresStoredPosition(t: int, x: int, y: int, t': int, x': int, y': int, dx: int, dy: int)
    ensures ActionOf(Scroll(t, x, y, dx, dy)) == ActionOf(Scroll(t', x', y', dx, dy)) == ScrollBy(dx, dy)
  {
  }
}
