/**
 * The controller's key classification: a key reported by the keyboard
 * listener becomes a key event that names it, gives its character or its
 * virtual key code, or becomes nothing. The event is the dictionary that
 * json.dumps sends to the target.
 */
module Capture {
  import opened Wrappers
  import opened PyValue

  /** The `vk` attribute of a key code object: absent, present but None, or
      a code. */
  datatype Vk = NoVk | VkNone | Vk(code: int)

  /** A key as the listener reports it: a member of the symbolic Key
      enumeration, known by its name, or a KeyCode with a virtual key code
      and a character (None when the key is not printable). */
  datatype Key = Special(name: string) | KeyCode(vk: Vk, character: Option<string>)

  /** The hotkey that toggles keyboard control. */
  const F12: Key := Special("f12")

  /** VK_CLEAR: what the keypad's 5 reports while Num Lock is off. */
  const VkClear: int := 12

  /** VK_NUMPAD_MAP: the keypad digits 96..105 and the keypad decimal point 110. */
  function NumpadChar(code: int): (r: Option<string>)
    ensures r.Some? <==> 96 <= code <= 105 || code == 110
    ensures 96 <= code <= 105 ==> r == Some([DigitChar(code - 96)])
    ensures code == 110 ==> r == Some(".")
  {
    match code
    case 96 => Some("0")
    case 97 => Some("1")
    case 98 => Some("2")
    case 99 => Some("3")
    case 100 => Some("4")
    case 101 => Some("5")
    case 102 => Some("6")
    case 103 => Some("7")
    case 104 => Some("8")
    case 105 => Some("9")
    case 110 => Some(".")
    case _ => None
  }

  /** How an event identifies its key: the `key_type` field and the `value`
      field of the dictionary. */
  datatype Identifier = Name(name: string) | Char(text: string) | VirtualCode(vk: Option<int>)

  /** The event dictionary: its `type` is 'press' when `press` holds. */
  datatype KeyEvent = KeyEvent(press: bool, id: Identifier)

  /** The AltGr workaround: the target knows the key as alt_r. */
  function TargetName(name: string): (r: string)
    ensures name == "alt_gr" ==> r == "alt_r"
    ensures name != "alt_gr" ==> r == name
    ensures r != "alt_gr"
  {
    if name == "alt_gr" then "alt_r" else name
  }

  /** Python truthiness of `key.char`: present and not empty. */
  predicate Printable(character: Option<string>) {
    character.Some? && character.value != ""
  }

  /** A virtual key code the classifier looks at before the character:
      VK_CLEAR, or a keypad code. */
  predicate Intercepted(vk: Vk) {
    vk.Vk? && (vk.code == VkClear || NumpadChar(vk.code).Some?)
  }

  /** on_key_event's classification of one key, in its order of priority:
      symbolic name, VK_CLEAR, keypad code, printable character, virtual key
      code. */
  function Classify(key: Key, isPress: bool): (ev: Option<KeyEvent>)
    ensures ev.Some? ==> ev.value.press == isPress
    ensures key.Special? ==> ev == Some(KeyEvent(isPress, Name(TargetName(key.name))))
    ensures key.KeyCode? && key.vk == Vk(VkClear) ==> ev == None
    ensures key.KeyCode? && key.vk.Vk? && NumpadChar(key.vk.code).Some?
         ==> ev == Some(KeyEvent(isPress, Char(NumpadChar(key.vk.code).value)))
    ensures key.KeyCode? && !Intercepted(key.vk) && Printable(key.character)
         ==> ev == Some(KeyEvent(isPress, Char(key.character.value)))
    ensures key.KeyCode? && !Intercepted(key.vk) && !Printable(key.character) && key.vk.Vk?
         ==> ev == Some(KeyEvent(isPress, VirtualCode(Some(key.vk.code))))
    ensures key.KeyCode? && key.vk == VkNone && !Printable(key.character)
         ==> ev == Some(KeyEvent(isPress, VirtualCode(None)))
    ensures ev.None? <==> key.KeyCode? && (key.vk == Vk(VkClear) || (key.vk == NoVk && !Printable(key.character)))
  {
    match key
    case Special(name) => Some(KeyEvent(isPress, Name(TargetName(name))))
    case KeyCode(vk, character) =>
      if vk.Vk? && vk.code == VkClear then None
      else if vk.Vk? && NumpadChar(vk.code).Some? then Some(KeyEvent(isPress, Char(NumpadChar(vk.code).value)))
      else if Printable(character) then Some(KeyEvent(isPress, Char(character.value)))
      else match vk
        case NoVk => None
        case VkNone => Some(KeyEvent(isPress, VirtualCode(None)))
        case Vk(code) => Some(KeyEvent(isPress, VirtualCode(Some(code))))
  }

  /** The `value` field of an event's dictionary: the key name, the
      character, or the virtual key code (null when vk is None). */
  function WireValue(id: Identifier): (v: Value)
    ensures id.Name? ==> v == Str(id.name)
    ensures id.Char? ==> v == Str(id.text)
    ensures id.VirtualCode? && id.vk.Some? ==> v == Int(id.vk.value)
    ensures id.VirtualCode? ==> (v == Null <==> id.vk.None?)
  {
    match id
    case Name(name) => Str(name)
    case Char(text) => Str(text)
    case VirtualCode(vk) => if vk.Some? then Int(vk.value) else Null
  }

  /** The `key_type` field of an event's dictionary. */
  function KeyType(id: Identifier): string {
    match id
    case Name(_) => "name"
    case Char(_) => "char"
    case VirtualCode(_) => "vk"
  }

  /** The dictionary the target decodes from an event. */
  function ToWire(ev: KeyEvent): (obj: Object)
    ensures Get(obj, "type") == Str("press") <==> ev.press
    ensures Get(obj, "type") == Str("release") <==> !ev.press
    ensures Get(obj, "key_type") == Str("name") <==> ev.id.Name?
    ensures Get(obj, "key_type") == Str("char") <==> ev.id.Char?
    ensures Get(obj, "key_type") == Str("vk") <==> ev.id.VirtualCode?
    ensures Get(obj, "value") == WireValue(ev.id)
    ensures obj.Keys == {"type", "key_type", "value"}
  {
    map[
      "type" := Str(if ev.press then "press" else "release"),
      "key_type" := Str(KeyType(ev.id)),
      "value" := WireValue(ev.id)
    ]
  }

  /** A keypad digit with Num Lock on is sent as the digit itself, whatever
      character the listener attached to it: keypad 5 (vk 101) is the same
      event as the main keyboard's 5. */
  lemma NumpadDigitIsItsCharacter(d: nat, character: Option<string>, isPress: bool)
    requires d < 10
    ensures Classify(KeyCode(Vk(96 + d), character), isPress) == Classify(KeyCode(NoVk, Some([DigitChar(d)])), isPress)
  {
  }

  /** Press and release of one key differ only in the event type. */
  lemma PressAndReleaseAgree(key: Key)
    ensures Classify(key, true).Some? <==> Classify(key, false).Some?
    ensures Classify(key, true).Some? ==> Classify(key, true).value.id == Classify(key, false).value.id
  {
  }

  /** The identifiers that can never be put on the wire: alt_gr, vk 12 and
      the keypad codes, which are sent as characters. */
  predicate Forwardable(id: Identifier) {
    && id != Name("alt_gr")
    && !(id.VirtualCode? && id.vk.Some? && (id.vk.value == VkClear || NumpadChar(id.vk.value).Some?))
  }

  lemma ClassifiedIsForwardable(key: Key, isPress: bool)
    requires Classify(key, isPress).Some?
    ensures Forwardable(Classify(key, isPress).value.id)
  {
  }
}
