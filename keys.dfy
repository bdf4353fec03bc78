/** Keyboard events as the console's handlers see them.

    The terminal library delivers a key code together with a set of modifier
    bits. The handlers only ever ask two questions of the modifiers: whether
    CONTROL is among them, and whether there are none at all. */
module Keys {

  /** The number carried by a function key, an unsigned byte. */
  type FKeyNumber = n: int | 0 <= n < 256

  datatype KeyCode =
    | Char(ch: char)
    | F(number: FKeyNumber)
    | Backspace
    | Delete
    | Left
    | Right
    | Home
    | End
    | Enter
    | Other   // every code that no handler matches: Up, Down, Tab, Esc, ...

  /** `control` is the CONTROL bit; `others` is set when any other modifier
      (SHIFT, ALT, SUPER, HYPER, META) is present. */
  datatype Modifiers = Modifiers(control: bool, others: bool) {
    predicate IsEmpty() { !control && !others }
  }

  datatype KeyEvent = KeyEvent(code: KeyCode, modifiers: Modifiers)

  const NoModifiers := Modifiers(false, false)

  /** A key pressed with no modifier at all. */
  function Plain(code: KeyCode): KeyEvent { KeyEvent(code, NoModifiers) }

  /** The plain character keystrokes that type `s`. */
  function Keystrokes(s: string): (keys: seq<KeyEvent>)
    ensures |keys| == |s|
    ensures forall i :: 0 <= i < |s| ==> keys[i] == Plain(Char(s[i]))
  {
    if s == [] then [] else [Plain(Char(s[0]))] + Keystrokes(s[1..])
  }
}
