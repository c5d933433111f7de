/**
 * The target's key translator: the table from the key names and characters
 * the controller sends to Linux evdev key codes, the capability set declared
 * for the virtual keyboard, and the device writes that one decoded event
 * causes.
 */
module Translator {
  import opened Wrappers
  import opened PyValue

  /** The evdev key codes the table uses, as abstract constants: their numeric
      values belong to the evdev library. */
  datatype KeyCode =
    KeyLeftAlt | KeyRightAlt | KeyBackspace | KeyCapsLock | KeyLeftMeta | KeyRightMeta |
    KeyLeftCtrl | KeyRightCtrl | KeyDelete | KeyDown | KeyEnd | KeyEnter | KeyEsc | KeyF1 |
    KeyF2 | KeyF3 | KeyF4 | KeyF5 | KeyF6 | KeyF7 | KeyF8 | KeyF9 | KeyF10 | KeyF11 |
    KeyF12 | KeyF13 | KeyF14 | KeyF15 | KeyF16 | KeyF17 | KeyF18 | KeyF19 | KeyF20 |
    KeyHome | KeyInsert | KeyLeft | KeyNextSong | KeyPlayPause | KeyPreviousSong |
    KeyVolumeDown | KeyMute | KeyVolumeUp | KeyMenu | KeyNumLock | KeyPageDown |
    KeyPageUp | KeyPause | KeySysRq | KeyRight | KeyScrollLock | KeyLeftShift |
    KeyRightShift | KeySpace | KeyTab | KeyUp | KeyA | KeyB | KeyC | KeyD | KeyE | KeyF |
    KeyG | KeyH | KeyI | KeyJ | KeyK | KeyL | KeyM | KeyN | KeyO | KeyP | KeyQ | KeyR |
    KeyS | KeyT | KeyU | KeyV | KeyW | KeyX | KeyY | KeyZ | Key1 | Key2 | Key3 | Key4 |
    Key5 | Key6 | Key7 | Key8 | Key9 | Key0 | KeyMinus | KeyEqual | KeyLeftBrace |
    KeyRightBrace | KeyBackslash | KeySemicolon | KeyApostrophe | KeyGrave | KeyComma |
    KeyDot | KeySlash | KeyKpAsterisk | KeyKpPlus

  /** PYNPUT_TO_EVDEV, looked up by key. Every multi-character key belongs to
      the table's first section (symbolic key names), every one-character key
      to the other two (characters, and the numpad characters); the table is
      fixed. */
  function PynputToEvdev(key: string): Option<KeyCode> {
    if |key| == 1 then CharacterKeys(key[0]) else SpecialKeys(key)
  }

  /** The symbolic key names of the table, which it lists in alphabetical
      order: the names before the function keys, the function keys, and the
      names after them. */
  function SpecialKeys(name: string): Option<KeyCode> {
    match name
    case "alt" => Some(KeyLeftAlt)
    case "alt_l" => Some(KeyLeftAlt)
    case "alt_r" => Some(KeyRightAlt)
    case "alt_gr" => Some(KeyRightAlt)
    case "backspace" => Some(KeyBackspace)
    case "caps_lock" => Some(KeyCapsLock)
    case "cmd" => Some(KeyLeftMeta)
    case "cmd_l" => Some(KeyLeftMeta)
    case "cmd_r" => Some(KeyRightMeta)
    case "ctrl" => Some(KeyLeftCtrl)
    case "ctrl_l" => Some(KeyLeftCtrl)
    case "ctrl_r" => Some(KeyRightCtrl)
    case "delete" => Some(KeyDelete)
    case "down" => Some(KeyDown)
    case "end" => Some(KeyEnd)
    case "enter" => Some(KeyEnter)
    case "esc" => Some(KeyEsc)
    case _ => if FunctionKeys(name).Some? then FunctionKeys(name) else LaterSpecialKeys(name)
  }

  /** The symbolic names listed after the function keys. */
  function LaterSpecialKeys(name: string): Option<KeyCode> {
    match name
    case "home" => Some(KeyHome)
    case "insert" => Some(KeyInsert)
    case "left" => Some(KeyLeft)
    case "media_next" => Some(KeyNextSong)
    case "media_play_pause" => Some(KeyPlayPause)
    case "media_previous" => Some(KeyPreviousSong)
    case "media_volume_down" => Some(KeyVolumeDown)
    case "media_volume_mute" => Some(KeyMute)
    case "media_volume_up" => Some(KeyVolumeUp)
    case "menu" => Some(KeyMenu)
    case "num_lock" => Some(KeyNumLock)
    case "page_down" => Some(KeyPageDown)
    case "page_up" => Some(KeyPageUp)
    case "pause" => Some(KeyPause)
    case "print_screen" => Some(KeySysRq)
    case "right" => Some(KeyRight)
    case "scroll_lock" => Some(KeyScrollLock)
    case "shift" => Some(KeyLeftShift)
    case "shift_l" => Some(KeyLeftShift)
    case "shift_r" => Some(KeyRightShift)
    case "space" => Some(KeySpace)
    case "tab" => Some(KeyTab)
    case "up" => Some(KeyUp)
    case _ => None
  }

  /** The function keys f1..f20 of the table's symbolic names. */
  function FunctionKeys(name: string): Option<KeyCode> {
    match name
    case "f1" => Some(KeyF1)
    case "f2" => Some(KeyF2)
    case "f3" => Some(KeyF3)
    case "f4" => Some(KeyF4)
    case "f5" => Some(KeyF5)
    case "f6" => Some(KeyF6)
    case "f7" => Some(KeyF7)
    case "f8" => Some(KeyF8)
    case "f9" => Some(KeyF9)
    case "f10" => Some(KeyF10)
    case "f11" => Some(KeyF11)
    case "f12" => Some(KeyF12)
    case "f13" => Some(KeyF13)
    case "f14" => Some(KeyF14)
    case "f15" => Some(KeyF15)
    case "f16" => Some(KeyF16)
    case "f17" => Some(KeyF17)
    case "f18" => Some(KeyF18)
    case "f19" => Some(KeyF19)
    case "f20" => Some(KeyF20)
    case _ => None
  }

  /** The character keys of the table, main keyboard and numpad. */
  function CharacterKeys(c: char): Option<KeyCode> {
    match c
    case 'a' => Some(KeyA)
    case 'b' => Some(KeyB)
    case 'c' => Some(KeyC)
    case 'd' => Some(KeyD)
    case 'e' => Some(KeyE)
    case 'f' => Some(KeyF)
    case 'g' => Some(KeyG)
    case 'h' => Some(KeyH)
    case 'i' => Some(KeyI)
    case 'j' => Some(KeyJ)
    case 'k' => Some(KeyK)
    case 'l' => Some(KeyL)
    case 'm' => Some(KeyM)
    case 'n' => Some(KeyN)
    case 'o' => Some(KeyO)
    case 'p' => Some(KeyP)
    case 'q' => Some(KeyQ)
    case 'r' => Some(KeyR)
    case 's' => Some(KeyS)
    case 't' => Some(KeyT)
    case 'u' => Some(KeyU)
    case 'v' => Some(KeyV)
    case 'w' => Some(KeyW)
    case 'x' => Some(KeyX)
    case 'y' => Some(KeyY)
    case 'z' => Some(KeyZ)
    case '1' => Some(Key1)
    case '2' => Some(Key2)
    case '3' => Some(Key3)
    case '4' => Some(Key4)
    case '5' => Some(Key5)
    case '6' => Some(Key6)
    case '7' => Some(Key7)
    case '8' => Some(Key8)
    case '9' => Some(Key9)
    case '0' => Some(Key0)
    case '-' => Some(KeyMinus)
    case '=' => Some(KeyEqual)
    case '[' => Some(KeyLeftBrace)
    case ']' => Some(KeyRightBrace)
    case '\\' => Some(KeyBackslash)
    case ';' => Some(KeySemicolon)
    case '\'' => Some(KeyApostrophe)
    case '`' => Some(KeyGrave)
    case ',' => Some(KeyComma)
    case '.' => Some(KeyDot)
    case '/' => Some(KeySlash)
    case '*' => Some(KeyKpAsterisk)
    case '+' => Some(KeyKpPlus)
    case _ => None
  }

  /** The codes declared for the virtual keyboard: the values of the table. */
  ghost function Capabilities(): (caps: iset<KeyCode>)
    ensures forall key :: PynputToEvdev(key).Some? ==> PynputToEvdev(key).value in caps
    ensures forall code :: code in caps ==> exists key :: PynputToEvdev(key) == Some(code)
  {
    iset key: string | PynputToEvdev(key).Some? :: PynputToEvdev(key).value
  }

  /** Every key of two or more characters is a name that starts with a letter. */
  lemma LongKeysAreNames(key: string)
    requires PynputToEvdev(key).Some? && |key| != 1
    ensures |key| >= 2 && 'a' <= key[0] <= 'z'
  {
  }

  /** The symbolic names of the table hold no upper-case letter. */
  lemma SpecialKeysAreLowerCase(name: string)
    requires SpecialKeys(name).Some?
    ensures forall c :: c in name ==> !('A' <= c <= 'Z')
  {
    match name
    case "alt" =>
    case "alt_l" =>
    case "alt_r" =>
    case "alt_gr" =>
    case "backspace" =>
    case "caps_lock" =>
    case "cmd" =>
    case "cmd_l" =>
    case "cmd_r" =>
    case "ctrl" =>
    case "ctrl_l" =>
    case "ctrl_r" =>
    case "delete" =>
    case "down" =>
    case "end" =>
    case "enter" =>
    case "esc" =>
    case _ =>
      if FunctionKeys(name).Some? {
        FunctionKeysAreLowerCase(name);
      } else {
        LaterSpecialKeysAreLowerCase(name);
      }
  }

  lemma LaterSpecialKeysAreLowerCase(name: string)
    requires LaterSpecialKeys(name).Some?
    ensures forall c :: c in name ==> !('A' <= c <= 'Z')
  {
    match name
    case "home" =>
    case "insert" =>
    case "left" =>
    case "media_next" =>
    case "media_play_pause" =>
    case "media_previous" =>
    case "media_volume_down" =>
    case "media_volume_mute" =>
    case "media_volume_up" =>
    case "menu" =>
    case "num_lock" =>
    case "page_down" =>
    case "page_up" =>
    case "pause" =>
    case "print_screen" =>
    case "right" =>
    case "scroll_lock" =>
    case "shift" =>
    case "shift_l" =>
    case "shift_r" =>
    case "space" =>
    case "tab" =>
    case "up" =>
  }

  lemma FunctionKeysAreLowerCase(name: string)
    requires FunctionKeys(name).Some?
    ensures forall c :: c in name ==> !('A' <= c <= 'Z')
  {
    match name
    case "f1" =>
    case "f2" =>
    case "f3" =>
    case "f4" =>
    case "f5" =>
    case "f6" =>
    case "f7" =>
    case "f8" =>
    case "f9" =>
    case "f10" =>
    case "f11" =>
    case "f12" =>
    case "f13" =>
    case "f14" =>
    case "f15" =>
    case "f16" =>
    case "f17" =>
    case "f18" =>
    case "f19" =>
    case "f20" =>
  }

  lemma CharacterKeysAreNotUpperCase(c: char)
    requires CharacterKeys(c).Some?
    ensures !('A' <= c <= 'Z')
  {
  }

  /** The table holds no upper-case key. */
  lemma TableKeysAreLowerCase(key: string)
    requires PynputToEvdev(key).Some?
    ensures Lower(key) == key
  {
    if |key| == 1 {
      CharacterKeysAreNotUpperCase(key[0]);
    } else {
      SpecialKeysAreLowerCase(key);
      assert forall i :: 0 <= i < |key| ==> key[i] in key;
    }
    LowerOfLower(key);
  }

  /** The code an event's value resolves to: the table entry for
      str(value).lower(), if there is one. */
  function KeyFor(v: Value): (r: Option<KeyCode>)
    ensures r.Some? ==> r.value in Capabilities()
  {
    PynputToEvdev(Lower(PyStr(v)))
  }

  /** Every table entry is reached by its own key, sent as a string. */
  lemma EveryKeyResolves(key: string)
    requires PynputToEvdev(key).Some?
    ensures KeyFor(Str(key)) == PynputToEvdev(key)
  {
    TableKeysAreLowerCase(key);
  }

  /** Letter case does not matter: a string resolves as its lower-case form. */
  lemma LookupIgnoresCase(s: string)
    ensures KeyFor(Str(s)) == KeyFor(Str(Lower(s)))
  {
    LowerIdempotent(s);
  }

  /** An integer value 0..9 resolves like the digit character: the lookup never
      looks at the event's key_type. */
  lemma IntegerDigitsResolveAsCharacters(d: nat)
    requires d < 10
    ensures KeyFor(Int(d)) == KeyFor(Str([DigitChar(d)]))
    ensures KeyFor(Int(d)).Some?
  {
  }

  /** Any other integer value resolves to nothing. */
  lemma OtherIntegersResolveToNothing(n: int)
    requires n < 0 || n >= 10
    ensures KeyFor(Int(n)) == None
  {
    var text := Lower(PyStr(Int(n)));
    assert text[0] == PyStr(Int(n))[0];
    if PynputToEvdev(text).Some? {
      LongKeysAreNames(text);
    }
  }

  /** A missing or null value (str gives "None") resolves to nothing. */
  lemma NullResolvesToNothing()
    ensures KeyFor(Null) == None
  {
  }

  /** A boolean value (str gives "True" or "False") resolves to nothing. */
  lemma BooleansResolveToNothing(b: bool)
    ensures KeyFor(Bool(b)) == None
  {
    if b {
      TrueResolvesToNothing();
    } else {
      FalseResolvesToNothing();
    }
  }

  lemma TrueResolvesToNothing()
    ensures KeyFor(Bool(true)) == None
  {
  }

  lemma FalseResolvesToNothing()
    ensures KeyFor(Bool(false)) == None
  {
  }

  /** One operation on the virtual device: a key-state write or a sync. */
  datatype DeviceOp = Write(code: KeyCode, state: int) | Sync

  /** The key state written: 1 for a press, 0 for anything else. */
  function StateFor(kind: Value): (state: int)
    ensures state == 0 || state == 1
    ensures state == 1 <==> kind == Str("press")
  {
    if kind == Str("press") then 1 else 0
  }

  /** The device operations handle_event issues for one decoded event. */
  function Translate(event: Object): (ops: seq<DeviceOp>)
    ensures ops == [] <==> KeyFor(Get(event, "value")).None?
    ensures ops != [] ==> |ops| == 2 && ops[0].Write? && ops[1] == Sync
    ensures ops != [] ==> ops[0].code == KeyFor(Get(event, "value")).value && ops[0].code in Capabilities()
    ensures ops != [] ==> (ops[0].state == 1 <==> Get(event, "type") == Str("press"))
    ensures ops != [] ==> (ops[0].state == 0 <==> Get(event, "type") != Str("press"))
  {
    match KeyFor(Get(event, "value"))
    case None => []
    case Some(code) => [Write(code, StateFor(Get(event, "type"))), Sync]
  }

  /** The writes depend on nothing but str(value).lower() and whether type is
      "press": not on key_type, not on letter case, not on other fields. */
  lemma TranslateSeesOnlyValueAndType(a: Object, b: Object)
    requires Lower(PyStr(Get(a, "value"))) == Lower(PyStr(Get(b, "value")))
    requires (Get(a, "type") == Str("press")) == (Get(b, "type") == Str("press"))
    ensures Translate(a) == Translate(b)
  {
  }
}
