/** The input events the GUI framework delivers to views and view ports. */
module InputEvents {
  /** The six hardware buttons. */
  datatype InputKey = Up | Down | Right | Left | Ok | Back

  /** What happened to the button: pressed, released, a short or long press, or auto-repeat. */
  datatype InputType = Press | Release | Short | Long | Repeat

  /** One input event; `kind` is the field the firmware calls `type`. */
  datatype InputEvent = InputEvent(kind: InputType, key: InputKey)
}
