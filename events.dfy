/**
 * The subset of tcod's input events that the game reacts to.  Events arrive
 * already converted to tile coordinates, so a mouse position is a cell.
 */
module Events {

  /** Key symbols the game distinguishes; every other key is `OtherKey`. */
  datatype KeySym =
    // arrow keys and their diagonals on the navigation block
    | Left | Right | Up | Down
    | Home | End | PageUp | PageDown
    // keypad
    | Kp4 | Kp6 | Kp8 | Kp2 | Kp7 | Kp1 | Kp9 | Kp3
    // vi keys
    | LowerH | LowerL | LowerK | LowerJ | LowerY | LowerB | LowerU | LowerN
    // confirm and cancel keys
    | ReturnKey | Return2Key | KpEnter | Escape
    | OtherKey(code: int)

  datatype MouseButton = LeftButton | MiddleButton | RightButton | OtherButton(index: int)

  datatype Event =
    | Quit
    | KeyDown(sym: KeySym)
    | MouseMotion(x: int, y: int)
    | MouseButtonUp(button: MouseButton)
    | TextInput(text: string)
    | MouseWheel(dy: int)
}
