/**
 * The names of the keyboard plugin's keys: the `Display` printer, the
 * `FromStr` parser that reads the names back, and the round-trip laws that
 * relate the two, including the keypad keys whose names collide with
 * main-keyboard keys.
 *
 * The plugin's `Key` is a transparent wrapper around the `Keycode` of the
 * key-capture library (both conversions are the identity), so the model
 * works on `Keycode` directly.
 */
module KeyNames {
  import opened Wrappers

  /** The keys the plugin records and replays, in the order of `Display`. */
  datatype Keycode =
    | Key0 | Key1 | Key2 | Key3 | Key4 | Key5 | Key6 | Key7
    | Key8 | Key9 | A | B | C | D | E | F
    | G | H | I | J | K | L | M | N
    | O | P | Q | R | S | T | U | V
    | W | X | Y | Z | F1 | F2 | F3 | F4
    | F5 | F6 | F7 | F8 | F9 | F10 | F11 | F12
    | Escape | Space | LControl | RControl | LShift | RShift | LAlt | RAlt
    | Meta | Enter | Up | Down | Left | Right | Backspace | CapsLock
    | Tab | Home | End | PageUp | PageDown | Insert | Delete | Numpad0
    | Numpad1 | Numpad2 | Numpad3 | Numpad4 | Numpad5 | Numpad6 | Numpad7 | Numpad8
    | Numpad9 | NumpadSubtract | NumpadAdd | NumpadDivide | NumpadMultiply | Grave | Minus | Equal
    | LeftBracket | RightBracket | BackSlash | Semicolon | Apostrophe | Comma | Dot | Slash


  /** The `Display` name of a key. */
  function ToString(k: Keycode): (s: string)
    ensures |s| > 0
  {
    match k
    case Key0 => "0"
    case Key1 => "1"
    case Key2 => "2"
    case Key3 => "3"
    case Key4 => "4"
    case Key5 => "5"
    case Key6 => "6"
    case Key7 => "7"
    case Key8 => "8"
    case Key9 => "9"
    case A => "A"
    case B => "B"
    case C => "C"
    case D => "D"
    case E => "E"
    case F => "F"
    case G => "G"
    case H => "H"
    case I => "I"
    case J => "J"
    case K => "K"
    case L => "L"
    case M => "M"
    case N => "N"
    case O => "O"
    case P => "P"
    case Q => "Q"
    case R => "R"
    case S => "S"
    case T => "T"
    case U => "U"
    case V => "V"
    case W => "W"
    case X => "X"
    case Y => "Y"
    case Z => "Z"
    case F1 => "F1"
    case F2 => "F2"
    case F3 => "F3"
    case F4 => "F4"
    case F5 => "F5"
    case F6 => "F6"
    case F7 => "F7"
    case F8 => "F8"
    case F9 => "F9"
    case F10 => "F10"
    case F11 => "F11"
    case F12 => "F12"
    case Escape => "Escape"
    case Space => "Space"
    case LControl => "LControl"
    case RControl => "RControl"
    case LShift => "LShift"
    case RShift => "RShift"
    case LAlt => "LAlt"
    case RAlt => "RAlt"
    case Meta => "Meta"
    case Enter => "Enter"
    case Up => "Up"
    case Down => "Down"
    case Left => "Left"
    case Right => "Right"
    case Backspace => "Backspace"
    case CapsLock => "CapsLock"
    case Tab => "Tab"
    case Home => "Home"
    case End => "End"
    case PageUp => "PageUp"
    case PageDown => "PageDown"
    case Insert => "Insert"
    case Delete => "Delete"
    case Numpad0 => "0"
    case Numpad1 => "1"
    case Numpad2 => "2"
    case Numpad3 => "3"
    case Numpad4 => "4"
    case Numpad5 => "5"
    case Numpad6 => "6"
    case Numpad7 => "7"
    case Numpad8 => "8"
    case Numpad9 => "9"
    case NumpadSubtract => "-"
    case NumpadAdd => "+"
    case NumpadDivide => "/"
    case NumpadMultiply => "*"
    case Grave => "`"
    case Minus => "-"
    case Equal => "="
    case LeftBracket => "["
    case RightBracket => "]"
    case BackSlash => "\\"
    case Semicolon => ";"
    case Apostrophe => "'"
    case Comma => ","
    case Dot => "."
    case Slash => "/"
  }

  /** `from_str`: the key a name stands for, or the plugin's parse error. */
  function FromStr(s: string): (r: Result<Keycode, string>)
    ensures r.Failure? ==> r.error == "failed to parse " + s + " to keyboard key"
  {
    match s
    case "0" => Success(Keycode.Key0)
    case "1" => Success(Keycode.Key1)
    case "2" => Success(Keycode.Key2)
    case "3" => Success(Keycode.Key3)
    case "4" => Success(Keycode.Key4)
    case "5" => Success(Keycode.Key5)
    case "6" => Success(Keycode.Key6)
    case "7" => Success(Keycode.Key7)
    case "8" => Success(Keycode.Key8)
    case "9" => Success(Keycode.Key9)
    case "A" => Success(Keycode.A)
    case "B" => Success(Keycode.B)
    case "C" => Success(Keycode.C)
    case "D" => Success(Keycode.D)
    case "E" => Success(Keycode.E)
    case "F" => Success(Keycode.F)
    case "G" => Success(Keycode.G)
    case "H" => Success(Keycode.H)
    case "I" => Success(Keycode.I)
    case "J" => Success(Keycode.J)
    case "K" => Success(Keycode.K)
    case "L" => Success(Keycode.L)
    case "M" => Success(Keycode.M)
    case "N" => Success(Keycode.N)
    case "O" => Success(Keycode.O)
    case "P" => Success(Keycode.P)
    case "Q" => Success(Keycode.Q)
    case "R" => Success(Keycode.R)
    case "S" => Success(Keycode.S)
    case "T" => Success(Keycode.T)
    case "U" => Success(Keycode.U)
    case "V" => Success(Keycode.V)
    case "W" => Success(Keycode.W)
    case "X" => Success(Keycode.X)
    case "Y" => Success(Keycode.Y)
    case "Z" => Success(Keycode.Z)
    case "F1" => Success(Keycode.F1)
    case "F2" => Success(Keycode.F2)
    case "F3" => Success(Keycode.F3)
    case "F4" => Success(Keycode.F4)
    case "F5" => Success(Keycode.F5)
    case "F6" => Success(Keycode.F6)
    case "F7" => Success(Keycode.F7)
    case "F8" => Success(Keycode.F8)
    case "F9" => Success(Keycode.F9)
    case "F10" => Success(Keycode.F10)
    case "F11" => Success(Keycode.F11)
    case "F12" => Success(Keycode.F12)
    case "Escape" => Success(Keycode.Escape)
    case "Space" => Success(Keycode.Space)
    case "LControl" => Success(Keycode.LControl)
    case "RControl" => Success(Keycode.RControl)
    case "LShift" => Success(Keycode.LShift)
    case "RShift" => Success(Keycode.RShift)
    case "LAlt" => Success(Keycode.LAlt)
    case "RAlt" => Success(Keycode.RAlt)
    case "Meta" => Success(Keycode.Meta)
    case "Enter" => Success(Keycode.Enter)
    case "Up" => Success(Keycode.Up)
    case "Down" => Success(Keycode.Down)
    case "Left" => Success(Keycode.Left)
    case "Right" => Success(Keycode.Right)
    case "Backspace" => Success(Keycode.Backspace)
    case "CapsLock" => Success(Keycode.CapsLock)
    case "Tab" => Success(Keycode.Tab)
    case "Home" => Success(Keycode.Home)
    case "End" => Success(Keycode.End)
    case "PageUp" => Success(Keycode.PageUp)
    case "PageDown" => Success(Keycode.PageDown)
    case "Insert" => Success(Keycode.Insert)
    case "Delete" => Success(Keycode.Delete)
    case "+" => Success(Keycode.NumpadAdd)
    case "*" => Success(Keycode.NumpadMultiply)
    case "`" => Success(Keycode.Grave)
    case "-" => Success(Keycode.Minus)
    case "=" => Success(Keycode.Equal)
    case "[" => Success(Keycode.LeftBracket)
    case "]" => Success(Keycode.RightBracket)
    case "\\" => Success(Keycode.BackSlash)
    case ";" => Success(Keycode.Semicolon)
    case "'" => Success(Keycode.Apostrophe)
    case "," => Success(Keycode.Comma)
    case "." => Success(Keycode.Dot)
    case "/" => Success(Keycode.Slash)
    case _ => Failure("failed to parse " + s + " to keyboard key")
  }

  /** The twelve numeric-keypad keys whose name is also the name of a main-keyboard key. */
  predicate IsNumpadAlias(k: Keycode)
  {
    match k
    case Numpad0 | Numpad1 | Numpad2 | Numpad3 | Numpad4 | Numpad5 | Numpad6 | Numpad7
      | Numpad8 | Numpad9 | NumpadSubtract | NumpadDivide => true
    case _ => false
  }

  /** The key a name parses back to: the main-keyboard key for a keypad alias, the key itself otherwise. */
  function Canonical(k: Keycode): Keycode
  {
    match k
    case Numpad0 => Keycode.Key0
    case Numpad1 => Keycode.Key1
    case Numpad2 => Keycode.Key2
    case Numpad3 => Keycode.Key3
    case Numpad4 => Keycode.Key4
    case Numpad5 => Keycode.Key5
    case Numpad6 => Keycode.Key6
    case Numpad7 => Keycode.Key7
    case Numpad8 => Keycode.Key8
    case Numpad9 => Keycode.Key9
    case NumpadSubtract => Keycode.Minus
    case NumpadDivide => Keycode.Slash
    case _ => k
  }

  /** The ten digit keys of the main keyboard. */
  predicate IsDigitKey(k: Keycode)
  {
    match k
    case Key0 | Key1 | Key2 | Key3 | Key4 | Key5 | Key6 | Key7 | Key8 | Key9 => true
    case _ => false
  }

  /** The twenty-six letter keys. */
  predicate IsLetterKey(k: Keycode)
  {
    match k
    case A | B | C | D | E | F | G | H | I | J | K | L | M | N | O | P | Q | R | S | T | U
      | V | W | X | Y | Z => true
    case _ => false
  }

  /** The function keys F1 to F12. */
  predicate IsFunctionKey(k: Keycode)
  {
    match k
    case F1 | F2 | F3 | F4 | F5 | F6 | F7 | F8 | F9 | F10 | F11 | F12 => true
    case _ => false
  }

  /** The modifier keys. */
  predicate IsModifierKey(k: Keycode)
  {
    match k
    case LControl | RControl | LShift | RShift | LAlt | RAlt | Meta => true
    case _ => false
  }

  /** Escape, the white-space keys, Caps Lock, Insert and Delete. */
  predicate IsEditingKey(k: Keycode)
  {
    match k
    case Escape | Space | Enter | Backspace | CapsLock | Tab | Insert | Delete => true
    case _ => false
  }

  /** The arrow keys and Home, End, Page Up and Page Down. */
  predicate IsNavigationKey(k: Keycode)
  {
    match k
    case Up | Down | Left | Right | Home | End | PageUp | PageDown => true
    case _ => false
  }

  /** The ten digit keys of the numeric keypad. */
  predicate IsKeypadDigitKey(k: Keycode)
  {
    match k
    case Numpad0 | Numpad1 | Numpad2 | Numpad3 | Numpad4 | Numpad5 | Numpad6 | Numpad7
      | Numpad8 | Numpad9 => true
    case _ => false
  }

  /** The four operator keys of the numeric keypad. */
  predicate IsKeypadOperatorKey(k: Keycode)
  {
    match k
    case NumpadSubtract | NumpadAdd | NumpadDivide | NumpadMultiply => true
    case _ => false
  }

  /** The punctuation keys of the number row and of the top letter row. */
  predicate IsUpperPunctuationKey(k: Keycode)
  {
    match k
    case Grave | Minus | Equal | LeftBracket | RightBracket | BackSlash => true
    case _ => false
  }

  /** The punctuation keys of the home row and of the bottom row. */
  predicate IsLowerPunctuationKey(k: Keycode)
  {
    match k
    case Semicolon | Apostrophe | Comma | Dot | Slash => true
    case _ => false
  }

  lemma ParseAfterDisplayDigit(k: Keycode)
    requires IsDigitKey(k)
    ensures FromStr(ToString(k)) == Success(Canonical(k))
  {
    match k
    case Key0 => assert FromStr("0") == Success(Keycode.Key0);
    case Key1 => assert FromStr("1") == Success(Keycode.Key1);
    case Key2 => assert FromStr("2") == Success(Keycode.Key2);
    case Key3 => assert FromStr("3") == Success(Keycode.Key3);
    case Key4 => assert FromStr("4") == Success(Keycode.Key4);
    case Key5 => assert FromStr("5") == Success(Keycode.Key5);
    case Key6 => assert FromStr("6") == Success(Keycode.Key6);
    case Key7 => assert FromStr("7") == Success(Keycode.Key7);
    case Key8 => assert FromStr("8") == Success(Keycode.Key8);
    case Key9 => assert FromStr("9") == Success(Keycode.Key9);
    case _ => assert false;
  }

  lemma ParseAfterDisplayLetterFirst(k: Keycode)
    requires k in {Keycode.A, Keycode.B, Keycode.C, Keycode.D, Keycode.E, Keycode.F, Keycode.G, Keycode.H, Keycode.I, Keycode.J, Keycode.K, Keycode.L, Keycode.M}
    ensures FromStr(ToString(k)) == Success(Canonical(k))
  {
    match k
    case A => assert FromStr("A") == Success(Keycode.A);
    case B => assert FromStr("B") == Success(Keycode.B);
    case C => assert FromStr("C") == Success(Keycode.C);
    case D => assert FromStr("D") == Success(Keycode.D);
    case E => assert FromStr("E") == Success(Keycode.E);
    case F => assert FromStr("F") == Success(Keycode.F);
    case G => assert FromStr("G") == Success(Keycode.G);
    case H => assert FromStr("H") == Success(Keycode.H);
    case I => assert FromStr("I") == Success(Keycode.I);
    case J => assert FromStr("J") == Success(Keycode.J);
    case K => assert FromStr("K") == Success(Keycode.K);
    case L => assert FromStr("L") == Success(Keycode.L);
    case M => assert FromStr("M") == Success(Keycode.M);
    case _ => assert false;
  }

  lemma ParseAfterDisplayLetterRest(k: Keycode)
    requires IsLetterKey(k) && !(k in {Keycode.A, Keycode.B, Keycode.C, Keycode.D, Keycode.E, Keycode.F, Keycode.G, Keycode.H, Keycode.I, Keycode.J, Keycode.K, Keycode.L, Keycode.M})
    ensures FromStr(ToString(k)) == Success(Canonical(k))
  {
    match k
    case N => assert FromStr("N") == Success(Keycode.N);
    case O => assert FromStr("O") == Success(Keycode.O);
    case P => assert FromStr("P") == Success(Keycode.P);
    case Q => assert FromStr("Q") == Success(Keycode.Q);
    case R => assert FromStr("R") == Success(Keycode.R);
    case S => assert FromStr("S") == Success(Keycode.S);
    case T => assert FromStr("T") == Success(Keycode.T);
    case U => assert FromStr("U") == Success(Keycode.U);
    case V => assert FromStr("V") == Success(Keycode.V);
    case W => assert FromStr("W") == Success(Keycode.W);
    case X => assert FromStr("X") == Success(Keycode.X);
    case Y => assert FromStr("Y") == Success(Keycode.Y);
    case Z => assert FromStr("Z") == Success(Keycode.Z);
    case _ => assert false;
  }

  lemma ParseAfterDisplayFunctionFirst(k: Keycode)
    requires k in {Keycode.F1, Keycode.F2, Keycode.F3, Keycode.F4, Keycode.F5, Keycode.F6}
    ensures FromStr(ToString(k)) == Success(Canonical(k))
  {
    match k
    case F1 => assert FromStr("F1") == Success(Keycode.F1);
    case F2 => assert FromStr("F2") == Success(Keycode.F2);
    case F3 => assert FromStr("F3") == Success(Keycode.F3);
    case F4 => assert FromStr("F4") == Success(Keycode.F4);
    case F5 => assert FromStr("F5") == Success(Keycode.F5);
    case F6 => assert FromStr("F6") == Success(Keycode.F6);
    case _ => assert false;
  }

  lemma ParseAfterDisplayFunctionRest(k: Keycode)
    requires IsFunctionKey(k) && !(k in {Keycode.F1, Keycode.F2, Keycode.F3, Keycode.F4, Keycode.F5, Keycode.F6})
    ensures FromStr(ToString(k)) == Success(Canonical(k))
  {
    match k
    case F7 => assert FromStr("F7") == Success(Keycode.F7);
    case F8 => assert FromStr("F8") == Success(Keycode.F8);
    case F9 => assert FromStr("F9") == Success(Keycode.F9);
    case F10 => assert FromStr("F10") == Success(Keycode.F10);
    case F11 => assert FromStr("F11") == Success(Keycode.F11);
    case F12 => assert FromStr("F12") == Success(Keycode.F12);
    case _ => assert false;
  }

  lemma ParseAfterDisplayModifier(k: Keycode)
    requires IsModifierKey(k)
    ensures FromStr(ToString(k)) == Success(Canonical(k))
  {
    match k
    case LControl => assert FromStr("LControl") == Success(Keycode.LControl);
    case RControl => assert FromStr("RControl") == Success(Keycode.RControl);
    case LShift => assert FromStr("LShift") == Success(Keycode.LShift);
    case RShift => assert FromStr("RShift") == Success(Keycode.RShift);
    case LAlt => assert FromStr("LAlt") == Success(Keycode.LAlt);
    case RAlt => assert FromStr("RAlt") == Success(Keycode.RAlt);
    case Meta => assert FromStr("Meta") == Success(Keycode.Meta);
    case _ => assert false;
  }

  lemma ParseAfterDisplayEditingFirst(k: Keycode)
    requires k in {Keycode.Escape, Keycode.Space, Keycode.Enter, Keycode.Backspace}
    ensures FromStr(ToString(k)) == Success(Canonical(k))
  {
    match k
    case Escape => assert FromStr("Escape") == Success(Keycode.Escape);
    case Space => assert FromStr("Space") == Success(Keycode.Space);
    case Enter => assert FromStr("Enter") == Success(Keycode.Enter);
    case Backspace => assert FromStr("Backspace") == Success(Keycode.Backspace);
    case _ => assert false;
  }

  lemma ParseAfterDisplayEditingRest(k: Keycode)
    requires IsEditingKey(k) && !(k in {Keycode.Escape, Keycode.Space, Keycode.Enter, Keycode.Backspace})
    ensures FromStr(ToString(k)) == Success(Canonical(k))
  {
    match k
    case CapsLock => assert FromStr("CapsLock") == Success(Keycode.CapsLock);
    case Tab => assert FromStr("Tab") == Success(Keycode.Tab);
    case Insert => assert FromStr("Insert") == Success(Keycode.Insert);
    case Delete => assert FromStr("Delete") == Success(Keycode.Delete);
    case _ => assert false;
  }

  lemma ParseAfterDisplayNavigationFirst(k: Keycode)
    requires k in {Keycode.Up, Keycode.Down, Keycode.Left, Keycode.Right}
    ensures FromStr(ToString(k)) == Success(Canonical(k))
  {
    match k
    case Up => assert FromStr("Up") == Success(Keycode.Up);
    case Down => assert FromStr("Down") == Success(Keycode.Down);
    case Left => assert FromStr("Left") == Success(Keycode.Left);
    case Right => assert FromStr("Right") == Success(Keycode.Right);
    case _ => assert false;
  }

  lemma ParseAfterDisplayNavigationRest(k: Keycode)
    requires IsNavigationKey(k) && !(k in {Keycode.Up, Keycode.Down, Keycode.Left, Keycode.Right})
    ensures FromStr(ToString(k)) == Success(Canonical(k))
  {
    match k
    case Home => assert FromStr("Home") == Success(Keycode.Home);
    case End => assert FromStr("End") == Success(Keycode.End);
    case PageUp => assert FromStr("PageUp") == Success(Keycode.PageUp);
    case PageDown => assert FromStr("PageDown") == Success(Keycode.PageDown);
    case _ => assert false;
  }

  lemma ParseAfterDisplayKeypadDigit(k: Keycode)
    requires IsKeypadDigitKey(k)
    ensures FromStr(ToString(k)) == Success(Canonical(k))
  {
    match k
    case Numpad0 => assert FromStr("0") == Success(Keycode.Key0);
    case Numpad1 => assert FromStr("1") == Success(Keycode.Key1);
    case Numpad2 => assert FromStr("2") == Success(Keycode.Key2);
    case Numpad3 => assert FromStr("3") == Success(Keycode.Key3);
    case Numpad4 => assert FromStr("4") == Success(Keycode.Key4);
    case Numpad5 => assert FromStr("5") == Success(Keycode.Key5);
    case Numpad6 => assert FromStr("6") == Success(Keycode.Key6);
    case Numpad7 => assert FromStr("7") == Success(Keycode.Key7);
    case Numpad8 => assert FromStr("8") == Success(Keycode.Key8);
    case Numpad9 => assert FromStr("9") == Success(Keycode.Key9);
    case _ => assert false;
  }

  lemma ParseAfterDisplayKeypadOperator(k: Keycode)
    requires IsKeypadOperatorKey(k)
    ensures FromStr(ToString(k)) == Success(Canonical(k))
  {
    match k
    case NumpadSubtract => assert FromStr("-") == Success(Keycode.Minus);
    case NumpadAdd => assert FromStr("+") == Success(Keycode.NumpadAdd);
    case NumpadDivide => assert FromStr("/") == Success(Keycode.Slash);
    case NumpadMultiply => assert FromStr("*") == Success(Keycode.NumpadMultiply);
    case _ => assert false;
  }

  lemma ParseAfterDisplayUpperPunctuation(k: Keycode)
    requires IsUpperPunctuationKey(k)
    ensures FromStr(ToString(k)) == Success(Canonical(k))
  {
    match k
    case Grave => assert FromStr("`") == Success(Keycode.Grave);
    case Minus => assert FromStr("-") == Success(Keycode.Minus);
    case Equal => assert FromStr("=") == Success(Keycode.Equal);
    case LeftBracket => assert FromStr("[") == Success(Keycode.LeftBracket);
    case RightBracket => assert FromStr("]") == Success(Keycode.RightBracket);
    case BackSlash => assert FromStr("\\") == Success(Keycode.BackSlash);
    case _ => assert false;
  }

  lemma ParseAfterDisplayLowerPunctuation(k: Keycode)
    requires IsLowerPunctuationKey(k)
    ensures FromStr(ToString(k)) == Success(Canonical(k))
  {
    match k
    case Semicolon => assert FromStr(";") == Success(Keycode.Semicolon);
    case Apostrophe => assert FromStr("'") == Success(Keycode.Apostrophe);
    case Comma => assert FromStr(",") == Success(Keycode.Comma);
    case Dot => assert FromStr(".") == Success(Keycode.Dot);
    case Slash => assert FromStr("/") == Success(Keycode.Slash);
    case _ => assert false;
  }

  /** Parsing a printed key gives the key back, except that a keypad alias comes back as its main-keyboard key. */
  lemma ParseAfterDisplay(k: Keycode)
    ensures FromStr(ToString(k)) == Success(Canonical(k))
    ensures !IsNumpadAlias(k) ==> FromStr(ToString(k)) == Success(k)
  {
    if IsDigitKey(k) {
      ParseAfterDisplayDigit(k);
    } else if IsLetterKey(k) {
      if k in {Keycode.A, Keycode.B, Keycode.C, Keycode.D, Keycode.E, Keycode.F, Keycode.G, Keycode.H, Keycode.I, Keycode.J, Keycode.K, Keycode.L, Keycode.M} {
        ParseAfterDisplayLetterFirst(k);
      } else {
        ParseAfterDisplayLetterRest(k);
      }
    } else if IsFunctionKey(k) {
      if k in {Keycode.F1, Keycode.F2, Keycode.F3, Keycode.F4, Keycode.F5, Keycode.F6} {
        ParseAfterDisplayFunctionFirst(k);
      } else {
        ParseAfterDisplayFunctionRest(k);
      }
    } else if IsModifierKey(k) {
      ParseAfterDisplayModifier(k);
    } else if IsEditingKey(k) {
      if k in {Keycode.Escape, Keycode.Space, Keycode.Enter, Keycode.Backspace} {
        ParseAfterDisplayEditingFirst(k);
      } else {
        ParseAfterDisplayEditingRest(k);
      }
    } else if IsNavigationKey(k) {
      if k in {Keycode.Up, Keycode.Down, Keycode.Left, Keycode.Right} {
        ParseAfterDisplayNavigationFirst(k);
      } else {
        ParseAfterDisplayNavigationRest(k);
      }
    } else if IsKeypadDigitKey(k) {
      ParseAfterDisplayKeypadDigit(k);
    } else if IsKeypadOperatorKey(k) {
      ParseAfterDisplayKeypadOperator(k);
    } else if IsUpperPunctuationKey(k) {
      ParseAfterDisplayUpperPunctuation(k);
    } else {
      ParseAfterDisplayLowerPunctuation(k);
    }
  }

  /*
   * `DisplayAfterParse`, split by the length of the name and by the range of
   * its first character, so that each proof considers only a few arms of the
   * parser.
   */

  lemma ParsedCharBelowComma(c: char)
    requires c < ','
    ensures FromStr([c]).Success? ==> ToString(FromStr([c]).value) == [c]
  {
  }

  lemma ParsedCharCommaOrMinus(c: char)
    requires ',' <= c <= '-'
    ensures FromStr([c]).Success? ==> ToString(FromStr([c]).value) == [c]
  {
  }

  lemma ParsedCharDotOrSlash(c: char)
    requires '-' < c < '0'
    ensures FromStr([c]).Success? ==> ToString(FromStr([c]).value) == [c]
  {
  }

  lemma ParsedCharDigit(c: char)
    requires '0' <= c <= '9'
    ensures FromStr([c]).Success? ==> ToString(FromStr([c]).value) == [c]
  {
  }

  lemma ParsedCharColonToAt(c: char)
    requires '9' < c < 'A'
    ensures FromStr([c]).Success? ==> ToString(FromStr([c]).value) == [c]
  {
  }

  lemma ParsedCharLetter(c: char)
    requires 'A' <= c <= 'Z'
    ensures FromStr([c]).Success? ==> ToString(FromStr([c]).value) == [c]
  {
  }

  lemma ParsedCharBracketOrBackslash(c: char)
    requires 'Z' < c <= '\\'
    ensures FromStr([c]).Success? ==> ToString(FromStr([c]).value) == [c]
  {
  }

  lemma ParsedCharAboveBackslash(c: char)
    requires '\\' < c
    ensures FromStr([c]).Success? ==> ToString(FromStr([c]).value) == [c]
  {
  }

  lemma ParsedTwoChars(c0: char, c1: char)
    ensures FromStr([c0, c1]).Success? ==> ToString(FromStr([c0, c1]).value) == [c0, c1]
  {
  }

  lemma ParsedThreeCharsF(c0: char, c1: char, c2: char)
    requires c0 == 'F'
    ensures FromStr([c0, c1, c2]).Success? ==> ToString(FromStr([c0, c1, c2]).value) == [c0, c1, c2]
  {
  }

  lemma ParsedThreeCharsOther(c0: char, c1: char, c2: char)
    requires c0 != 'F'
    ensures FromStr([c0, c1, c2]).Success? ==> ToString(FromStr([c0, c1, c2]).value) == [c0, c1, c2]
  {
  }

  lemma ParsedFourChars(c0: char, c1: char, c2: char, c3: char)
    ensures FromStr([c0, c1, c2, c3]).Success? ==> ToString(FromStr([c0, c1, c2, c3]).value) == [c0, c1, c2, c3]
  {
  }

  lemma ParsedFiveChars(c0: char, c1: char, c2: char, c3: char, c4: char)
    ensures FromStr([c0, c1, c2, c3, c4]).Success? ==> ToString(FromStr([c0, c1, c2, c3, c4]).value) == [c0, c1, c2, c3, c4]
  {
  }

  lemma ParsedSixCharsBelowL(c0: char, c1: char, c2: char, c3: char, c4: char, c5: char)
    requires c0 < 'L'
    ensures FromStr([c0, c1, c2, c3, c4, c5]).Success? ==> ToString(FromStr([c0, c1, c2, c3, c4, c5]).value) == [c0, c1, c2, c3, c4, c5]
  {
  }

  lemma ParsedSixCharsFromL(c0: char, c1: char, c2: char, c3: char, c4: char, c5: char)
    requires 'L' <= c0
    ensures FromStr([c0, c1, c2, c3, c4, c5]).Success? ==> ToString(FromStr([c0, c1, c2, c3, c4, c5]).value) == [c0, c1, c2, c3, c4, c5]
  {
  }

  lemma ParsedEightChars(c0: char, c1: char, c2: char, c3: char, c4: char, c5: char, c6: char, c7: char)
    ensures FromStr([c0, c1, c2, c3, c4, c5, c6, c7]).Success? ==> ToString(FromStr([c0, c1, c2, c3, c4, c5, c6, c7]).value) == [c0, c1, c2, c3, c4, c5, c6, c7]
  {
  }

  lemma ParsedNineChars(c0: char, c1: char, c2: char, c3: char, c4: char, c5: char, c6: char, c7: char, c8: char)
    ensures FromStr([c0, c1, c2, c3, c4, c5, c6, c7, c8]).Success? ==> ToString(FromStr([c0, c1, c2, c3, c4, c5, c6, c7, c8]).value) == [c0, c1, c2, c3, c4, c5, c6, c7, c8]
  {
  }

  /** No key has an empty name, a name of seven characters or one longer than nine. */
  lemma NoNameOfLength(s: string)
    requires |s| == 0 || |s| == 7 || |s| > 9
    ensures FromStr(s).Failure?
  {
  }

  /** `DisplayAfterParse` for one-character names. */
  lemma DisplayAfterParseChar(c: char)
    ensures FromStr([c]).Success? ==> ToString(FromStr([c]).value) == [c]
  {
    if c < ',' {
      ParsedCharBelowComma(c);
    } else if c <= '-' {
      ParsedCharCommaOrMinus(c);
    } else if c < '0' {
      ParsedCharDotOrSlash(c);
    } else if c <= '9' {
      ParsedCharDigit(c);
    } else if c < 'A' {
      ParsedCharColonToAt(c);
    } else if c <= 'Z' {
      ParsedCharLetter(c);
    } else if c <= '\\' {
      ParsedCharBracketOrBackslash(c);
    } else {
      ParsedCharAboveBackslash(c);
    }
  }

  /** `DisplayAfterParse` for names of two to four characters. */
  lemma DisplayAfterParseShort(s: string)
    requires 2 <= |s| <= 4
    ensures FromStr(s).Success? ==> ToString(FromStr(s).value) == s
  {
    if |s| == 2 {
      assert s == [s[0], s[1]];
      ParsedTwoChars(s[0], s[1]);
    } else if |s| == 3 {
      assert s == [s[0], s[1], s[2]];
      if s[0] == 'F' {
        ParsedThreeCharsF(s[0], s[1], s[2]);
      } else {
        ParsedThreeCharsOther(s[0], s[1], s[2]);
      }
    } else {
      assert s == [s[0], s[1], s[2], s[3]];
      ParsedFourChars(s[0], s[1], s[2], s[3]);
    }
  }

  /** `DisplayAfterParse` for names of five or more characters. */
  lemma DisplayAfterParseLong(s: string)
    requires |s| >= 5
    ensures FromStr(s).Success? ==> ToString(FromStr(s).value) == s
  {
    if |s| == 5 {
      assert s == [s[0], s[1], s[2], s[3], s[4]];
      ParsedFiveChars(s[0], s[1], s[2], s[3], s[4]);
    } else if |s| == 6 {
      assert s == [s[0], s[1], s[2], s[3], s[4], s[5]];
      if s[0] < 'L' {
        ParsedSixCharsBelowL(s[0], s[1], s[2], s[3], s[4], s[5]);
      } else {
        ParsedSixCharsFromL(s[0], s[1], s[2], s[3], s[4], s[5]);
      }
    } else if |s| == 8 {
      assert s == [s[0], s[1], s[2], s[3], s[4], s[5], s[6], s[7]];
      ParsedEightChars(s[0], s[1], s[2], s[3], s[4], s[5], s[6], s[7]);
    } else if |s| == 9 {
      assert s == [s[0], s[1], s[2], s[3], s[4], s[5], s[6], s[7], s[8]];
      ParsedNineChars(s[0], s[1], s[2], s[3], s[4], s[5], s[6], s[7], s[8]);
    } else {
      NoNameOfLength(s);
    }
  }

  /** Printing a parsed key gives the accepted name back. */
  lemma DisplayAfterParse(s: string)
    requires FromStr(s).Success?
    ensures ToString(FromStr(s).value) == s
  {
    if |s| == 0 {
      NoNameOfLength(s);
      assert false;
    } else if |s| == 1 {
      assert s == [s[0]];
      DisplayAfterParseChar(s[0]);
    } else if |s| <= 4 {
      DisplayAfterParseShort(s);
    } else {
      DisplayAfterParseLong(s);
    }
  }

  /** The parser accepts exactly the names that some key prints as. */
  lemma AcceptsExactlyDisplayNames(s: string)
    ensures FromStr(s).Success? <==> exists k :: ToString(k) == s
  {
    if FromStr(s).Success? {
      DisplayAfterParse(s);
    } else {
      forall k ensures ToString(k) != s {
        ParseAfterDisplay(k);
      }
    }
  }

  /** Two keys share a name only when they are the same key up to the keypad aliases. */
  lemma DisplayCollision(a: Keycode, b: Keycode)
    requires ToString(a) == ToString(b)
    ensures Canonical(a) == Canonical(b)
    ensures a != b ==> IsNumpadAlias(a) || IsNumpadAlias(b)
  {
    ParseAfterDisplay(a);
    ParseAfterDisplay(b);
  }
}
