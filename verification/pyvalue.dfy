/**
 * The values the target obtains from json.loads on a frame, and the two
 * Python string operations the key lookup applies to one of them:
 * str(value) and str.lower().
 */
module PyValue {

  /** A JSON value after decoding. Floats, arrays and nested objects are
      carried by the text Python's str() gives them, which is all the key
      lookup ever looks at. */
  datatype Value =
    | Null
    | Bool(b: bool)
    | Int(i: int)
    | Str(s: string)
    | Other(text: string)

  /** A decoded frame: a text that starts with '{' decodes, if at all, to an object. */
  type Object = map<string, Value>

  /** dict.get(key): a missing field reads as None. */
  function Get(obj: Object, key: string): (v: Value)
    ensures key !in obj ==> v == Null
    ensures key in obj ==> v == obj[key]
  {
    if key in obj then obj[key] else Null
  }

  function DigitChar(d: nat): (c: char)
    requires d < 10
    ensures '0' <= c <= '9' && c as int - '0' as int == d
  {
    ('0' as int + d) as char
  }

  /** The decimal digits of a natural number, most significant first. */
  function Decimal(n: nat): (r: string)
    ensures |r| >= 1
    ensures forall i :: 0 <= i < |r| ==> '0' <= r[i] <= '9'
    ensures |r| == 1 <==> n < 10
  {
    if n < 10 then [DigitChar(n)] else Decimal(n / 10) + [DigitChar(n % 10)]
  }

  /** Python's str() of a decoded value. */
  function PyStr(v: Value): (r: string)
    ensures v.Str? ==> r == v.s
    ensures v.Int? && 0 <= v.i < 10 ==> r == [DigitChar(v.i)]
    ensures v.Int? && (v.i < 0 || v.i >= 10) ==> |r| >= 2 && (r[0] == '-' || '0' <= r[0] <= '9')
  {
    match v
    case Null => "None"
    case Bool(b) => if b then "True" else "False"
    case Int(i) => if i < 0 then "-" + Decimal(-i) else Decimal(i)
    case Str(s) => s
    case Other(text) => text
  }

  function LowerChar(c: char): (r: char)
    ensures !('A' <= r <= 'Z')
    ensures !('A' <= c <= 'Z') ==> r == c
  {
    if 'A' <= c <= 'Z' then (c as int - 'A' as int + 'a' as int) as char else c
  }

  /** Python's str.lower() on the ASCII letters. */
  function Lower(s: string): (r: string)
    ensures |r| == |s|
    ensures forall i :: 0 <= i < |s| ==> r[i] == LowerChar(s[i])
  {
    if s == [] then [] else [LowerChar(s[0])] + Lower(s[1..])
  }

  /** A text with no upper-case letter is its own lower-case form. */
  lemma LowerOfLower(s: string)
    requires forall i :: 0 <= i < |s| ==> !('A' <= s[i] <= 'Z')
    ensures Lower(s) == s
  {
  }

  lemma LowerIdempotent(s: string)
    ensures Lower(Lower(s)) == Lower(s)
  {
    LowerOfLower(Lower(s));
  }
}
