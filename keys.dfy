/** The engine's key codes that the VR layer sends to `Key_Event`
    (keys.h is not part of this model; keys are named, not numbered). */
module Keys {

  datatype Key =
    | Space | MouseWheelUp | MouseWheelDown | Shift | Escape | Enter | Mouse1
    | LeftArrow | RightArrow | UpArrow | DownArrow
    | Char(c: char)

  /** One call `Key_Event(key, down)`. */
  datatype KeyEvent = KeyEvent(key: Key, down: bool)
}
