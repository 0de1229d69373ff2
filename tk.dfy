/** The widget states the windows switch their buttons between. */
module Tk {
  /** tkinter's button states: 'normal', 'active' (under the mouse) and 'disabled'. */
  datatype ButtonState = Normal | Active | Disabled

  /** A button reacts to clicks unless it is disabled. */
  predicate Enabled(b: ButtonState)
  {
    b != Disabled
  }
}
