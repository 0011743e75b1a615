/** The terminal vocabulary the dispatcher consumes: key events and text styles.
    Only their structure and structural equality matter here; colours carry no
    rendering meaning. */
module Crossterm {
  import opened Wrappers

  /** The key that was pressed (crossterm's `KeyCode`). */
  datatype KeyCode =
    | Backspace | Enter | Left | Right | Up | Down | Home | End | PageUp | PageDown
    | Tab | BackTab | Delete | Insert | F(number: nat) | Char(ch: char) | Null | Esc
    | CapsLock | ScrollLock | NumLock | PrintScreen | Pause | Menu | KeypadBegin
    | MediaKey(media: nat) | ModifierKey(modifier: nat)

  /** One bit of crossterm's `KeyModifiers` bit set. */
  datatype ModifierFlag = Shift | Control | Alt | Super | Hyper | Meta

  /** A bit set is modelled as the set of its bits, so equality is bit-for-bit. */
  type KeyModifiers = set<ModifierFlag>

  /** `KeyModifiers::NONE` */
  const NoModifiers: KeyModifiers := {}

  /** `KeyModifiers::SHIFT` */
  const ShiftModifier: KeyModifiers := {Shift}

  datatype KeyEventKind = Press | Repeat | Release

  /** One bit of crossterm's `KeyEventState` bit set. */
  datatype StateFlag = KeypadFlag | CapsLockFlag | NumLockFlag

  type KeyEventState = set<StateFlag>

  /** `KeyEventState::NONE` */
  const NoState: KeyEventState := {}

  /** A keystroke; two keystrokes are the same binding iff all four fields agree. */
  datatype KeyEvent = KeyEvent(code: KeyCode, modifiers: KeyModifiers, kind: KeyEventKind, state: KeyEventState)

  /** A terminal event; mouse events are reduced to their position. */
  datatype Event =
    | FocusGained
    | FocusLost
    | Key(key: KeyEvent)
    | Mouse(column: nat, row: nat)
    | Paste(text: string)
    | Resize(columns: nat, rows: nat)

  datatype Color =
    | Reset | Black | DarkGrey | Red | DarkRed | Green | DarkGreen | Yellow | DarkYellow
    | Blue | DarkBlue | Magenta | DarkMagenta | Cyan | DarkCyan | White | Grey
    | Rgb(r: nat, g: nat, b: nat) | AnsiValue(value: nat)

  /** `ContentStyle`, reduced to its foreground and background colours. */
  datatype ContentStyle = ContentStyle(foreground: Option<Color>, background: Option<Color>)

  /** `ContentStyle::default()`: no colour set. */
  const DefaultStyle: ContentStyle := ContentStyle(None, None)

  /** `StyleBuilder::new().fgc(c).build()` */
  function Foreground(c: Color): ContentStyle
  {
    ContentStyle(Some(c), None)
  }
}
