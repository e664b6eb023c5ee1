/**
 * The rest of the keyboard plugin's key codec: the serde delegation to the
 * name parser, the macro input steps, and the translation of a key into the
 * key the input simulator presses.
 */
module KeyCodec {
  import opened Wrappers
  import opened KeyNames

  /** The keys of the input simulator that the plugin produces. */
  datatype EnigoKey =
    | Layout(ch: char)
    | F1 | F2 | F3 | F4 | F5 | F6 | F7 | F8 | F9 | F10 | F11 | F12
    | Escape | Space | LControl | RControl | LShift | RShift | Alt | Meta | Return
    | UpArrow | DownArrow | LeftArrow | RightArrow
    | Backspace | CapsLock | Tab | Home | End | PageUp | PageDown | Insert | Delete

  /** One step of a recorded macro: press a key, release a key, or type text. */
  datatype Input = KeyDown(key: Keycode) | KeyUp(key: Keycode) | Text(text: string)

  /** The error serde reports: `from_str`'s message wrapped as a custom error. */
  datatype DeError = Custom(message: string)

  /** `Serialize for Key`: the `Display` name, a non-empty string that `from_str` reads back. */
  function Serialize(k: Keycode): (s: string)
    ensures |s| > 0
    ensures FromStr(s) == Success(Canonical(k))
  {
    ParseAfterDisplay(k);
    ToString(k)
  }

  /** The visitor behind `Deserialize for Key`: every string form is handed to `from_str`. */
  function VisitStr(v: string): (r: Result<Keycode, DeError>)
    ensures r.Success? <==> FromStr(v).Success?
    ensures r.Success? ==> ToString(r.value) == v
    ensures r.Failure? ==> r.error == Custom("failed to parse " + v + " to keyboard key")
  {
    match FromStr(v)
    case Success(k) => DisplayAfterParse(v); Success(k)
    case Failure(e) => Failure(Custom(e))
  }

  /** A serialised key deserialises to itself, up to the keypad aliases. */
  lemma SerdeRoundTrip(k: Keycode)
    ensures VisitStr(Serialize(k)) == Success(Canonical(k))
  {
    ParseAfterDisplay(k);
  }

  /** `From<Key> for EnigoKey`, as written. */
  function ToEnigo(k: Keycode): (e: EnigoKey)
    ensures e.Layout? <==> |ToString(k)| == 1
  {
    match k
    case Key0 => Layout('0')
    case Key1 => Layout('1')
    case Key2 => Layout('2')
    case Key3 => Layout('3')
    case Key4 => Layout('4')
    case Key5 => Layout('5')
    case Key6 => Layout('6')
    case Key7 => Layout('7')
    case Key8 => Layout('8')
    case Key9 => Layout('9')
    case A => Layout('a')
    case B => Layout('b')
    case C => Layout('c')
    case D => Layout('d')
    case E => Layout('e')
    case F => Layout('f')
    case G => Layout('g')
    case H => Layout('h')
    case I => Layout('i')
    case J => Layout('j')
    case K => Layout('k')
    case L => Layout('l')
    case M => Layout('m')
    case N => Layout('n')
    case O => Layout('o')
    case P => Layout('p')
    case Q => Layout('q')
    case R => Layout('r')
    case S => Layout('s')
    case T => Layout('t')
    case U => Layout('u')
    case V => Layout('v')
    case W => Layout('w')
    case X => Layout('x')
    case Y => Layout('y')
    case Z => Layout('z')
    case F1 => EnigoKey.F1
    case F2 => EnigoKey.F2
    case F3 => EnigoKey.F3
    case F4 => EnigoKey.F4
    case F5 => EnigoKey.F5
    case F6 => EnigoKey.F6
    case F7 => EnigoKey.F7
    case F8 => EnigoKey.F8
    case F9 => EnigoKey.F9
    case F10 => EnigoKey.F10
    case F11 => EnigoKey.F11
    case F12 => EnigoKey.F12
    case Escape => EnigoKey.Escape
    case Space => EnigoKey.Space
    case LControl => EnigoKey.LControl
    case RControl => EnigoKey.RControl
    case LShift => EnigoKey.LShift
    case RShift => EnigoKey.RShift
    case LAlt => EnigoKey.Alt
    case RAlt => EnigoKey.Alt
    case Meta => EnigoKey.Meta
    case Enter => EnigoKey.Return
    case Up => EnigoKey.UpArrow
    case Down => EnigoKey.DownArrow
    case Left => EnigoKey.LeftArrow
    case Right => EnigoKey.RightArrow
    case Backspace => EnigoKey.Backspace
    case CapsLock => EnigoKey.CapsLock
    case Tab => EnigoKey.Tab
    case Home => EnigoKey.Home
    case End => EnigoKey.End
    case PageUp => EnigoKey.PageUp
    case PageDown => EnigoKey.PageDown
    case Insert => EnigoKey.Insert
    case Delete => EnigoKey.Delete
    case Numpad0 => Layout('0')
    case Numpad1 => Layout('1')
    case Numpad2 => Layout('2')
    case Numpad3 => Layout('3')
    case Numpad4 => Layout('4')
    case Numpad5 => Layout('5')
    case Numpad6 => Layout('6')
    case Numpad7 => Layout('7')
    case Numpad8 => Layout('8')
    case Numpad9 => Layout('9')
    case NumpadSubtract => Layout('-')
    case NumpadAdd => Layout('+')
    case NumpadDivide => Layout('/')
    case NumpadMultiply => Layout('*')
    case Grave => Layout('`')
    case Minus => Layout('-')
    case Equal => Layout('=')
    case LeftBracket => Layout('{')
    case RightBracket => Layout('}')
    case BackSlash => Layout('\\')
    case Semicolon => Layout(';')
    case Apostrophe => Layout('\'')
    case Comma => Layout(',')
    case Dot => Layout('.')
    case Slash => Layout('/')
  }

  /** The lower-case form of an upper-case ASCII letter. */
  function Lower(c: char): char
    requires 'A' <= c <= 'Z'
  {
    (c as int + 32) as char
  }

  /** A letter key types the lower-case form of the letter it prints as. */
  lemma LettersTypeLowercase(k: Keycode)
    requires IsLetterKey(k)
    ensures |ToString(k)| == 1 && 'A' <= ToString(k)[0] <= 'Z'
    ensures ToEnigo(k) == Layout(Lower(ToString(k)[0]))
  {
  }

  /**
   * A digit key, on the main keyboard or on the keypad, types the digit it
   * prints as, so a keypad digit types what its main-keyboard alias types.
   */
  lemma DigitsTypeTheirDigit(k: Keycode)
    requires IsDigitKey(k) || IsKeypadDigitKey(k)
    ensures |ToString(k)| == 1 && '0' <= ToString(k)[0] <= '9'
    ensures ToEnigo(k) == Layout(ToString(k)[0])
    ensures ToEnigo(k) == ToEnigo(Canonical(k))
  {
  }

  /** Both Alt keys press the simulator's single Alt key, and Enter presses Return. */
  lemma AltAndEnter()
    ensures ToEnigo(Keycode.LAlt) == ToEnigo(Keycode.RAlt) == Alt
    ensures ToEnigo(Keycode.Enter) == Return
  {
  }

  /**
   * As written, the bracket keys type braces: the key that prints and parses
   * as "[" types '{', and the one that prints as "]" types '}'.
   */
  lemma BracketKeysTypeBraces()
    ensures ToString(Keycode.LeftBracket) == "[" && ToEnigo(Keycode.LeftBracket) == Layout('{')
    ensures ToString(Keycode.RightBracket) == "]" && ToEnigo(Keycode.RightBracket) == Layout('}')
    ensures ToEnigo(Keycode.LeftBracket) != Layout(ToString(Keycode.LeftBracket)[0])
  {
  }

  /** The translation with the bracket keys typing the brackets they print as. */
  function ToEnigoIntended(k: Keycode): (e: EnigoKey)
    ensures k != Keycode.LeftBracket && k != Keycode.RightBracket ==> e == ToEnigo(k)
    ensures e.Layout? <==> |ToString(k)| == 1
  {
    match k
    case LeftBracket => Layout('[')
    case RightBracket => Layout(']')
    case _ => ToEnigo(k)
  }

  /** With the correction, every key whose name is one digit or punctuation character types that character. */
  lemma SymbolKeysTypeTheirName(k: Keycode)
    requires IsDigitKey(k) || IsKeypadDigitKey(k) || IsKeypadOperatorKey(k)
             || IsUpperPunctuationKey(k) || IsLowerPunctuationKey(k)
    ensures |ToString(k)| == 1
    ensures ToEnigoIntended(k) == Layout(ToString(k)[0])
  {
    if IsDigitKey(k) || IsKeypadDigitKey(k) {
      DigitsTypeTheirDigit(k);
    } else if IsKeypadOperatorKey(k) {
      KeypadOperatorsTypeTheirName(k);
    } else if IsUpperPunctuationKey(k) {
      UpperPunctuationTypesItsName(k);
    } else {
      LowerPunctuationTypesItsName(k);
    }
  }

  /** The keypad operators type the operator they print as. */
  lemma KeypadOperatorsTypeTheirName(k: Keycode)
    requires IsKeypadOperatorKey(k)
    ensures |ToString(k)| == 1 && ToEnigoIntended(k) == Layout(ToString(k)[0])
  {
  }

  /** With the correction, the upper punctuation keys type the character they print as. */
  lemma UpperPunctuationTypesItsName(k: Keycode)
    requires IsUpperPunctuationKey(k)
    ensures |ToString(k)| == 1 && ToEnigoIntended(k) == Layout(ToString(k)[0])
  {
  }

  /** The lower punctuation keys type the character they print as. */
  lemma LowerPunctuationTypesItsName(k: Keycode)
    requires IsLowerPunctuationKey(k)
    ensures |ToString(k)| == 1 && ToEnigoIntended(k) == Layout(ToString(k)[0])
  {
  }
}
