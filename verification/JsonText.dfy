/**
The compact text serde_json writes for a value.
*/
module JsonText {
  import opened MachineInts
  import opened CanonicalJson

  const BACKSPACE: char := 8 as char
  const FORM_FEED: char := 12 as char

  function HexDigit(d: nat): (c: char)
    requires d < 16
    ensures '0' <= c <= '9' || 'a' <= c <= 'f'
  {
    if d < 10 then '0' + d as char else 'a' + (d - 10) as char
  }

  /** The characters with an escape of their own. */
  function ShortEscape(c: char): Option<char> {
    if c == '"' || c == '\\' then Some(c)
    else if c == BACKSPACE then Some('b')
    else if c == FORM_FEED then Some('f')
    else if c == '\n' then Some('n')
    else if c == '\r' then Some('r')
    else if c == '\t' then Some('t')
    else None
  }

  /** One character inside a string literal; serde_json escapes only what it must. */
  function EscapeChar(c: char): string {
    match ShortEscape(c)
    case Some(letter) => ['\\', letter]
    case None =>
      if c as int < 0x20 then "\\u00" + [HexDigit(c as int / 16), HexDigit(c as int % 16)]
      else [c]
  }

  function Encode(s: string, code: char -> string): string {
    if s == "" then "" else code(s[0]) + Encode(s[1..], code)
  }

  function Quote(s: string): string {
    "\"" + Encode(s, EscapeChar) + "\""
  }

  /** Parts separated by commas, and the closing bracket. */
  function Listed(parts: seq<string>, close: char): string {
    if parts == [] then [close]
    else parts[0] + Continued(parts[1..], close)
  }

  function Continued(parts: seq<string>, close: char): string {
    if parts == [] then [close] else "," + parts[0] + Continued(parts[1..], close)
  }

  function Keyed(key: string, value: string): string {
    Quote(key) + ":" + value
  }

  function Print(j: Json): string {
    match j
    case Null => "null"
    case Bool(flag) => if flag then "true" else "false"
    case Number(text) => text
    case Str(chars) => Quote(chars)
    case Array(items) =>
      "[" + Listed(seq(|items|, i requires 0 <= i < |items| => Print(items[i])), ']')
    case Object(members) =>
      "{" + Listed(seq(|members|, i requires 0 <= i < |members| =>
                         Keyed(members[i].key, Print(members[i].value))), '}')
  }

  /** The text whose digest names a request. */
  function CanonicalText(j: Json): string {
    Print(Canonicalize(j))
  }

  function ItemTexts(items: seq<Json>): (r: seq<string>)
    ensures |r| == |items| && forall i | 0 <= i < |r| :: r[i] == Print(items[i])
  {
    seq(|items|, i requires 0 <= i < |items| => Print(items[i]))
  }

  function MemberTexts(members: seq<Entry>): (r: seq<string>)
    ensures |r| == |members|
    ensures forall i | 0 <= i < |r| :: r[i] == Keyed(members[i].key, Print(members[i].value))
  {
    seq(|members|, i requires 0 <= i < |members| =>
      Keyed(members[i].key, Print(members[i].value)))
  }

  lemma PrintArray(items: seq<Json>)
    ensures Print(Array(items)) == "[" + Listed(ItemTexts(items), ']')
  {
    assert ItemTexts(items) == seq(|items|, i requires 0 <= i < |items| => Print(items[i]));
  }

  lemma PrintObject(members: seq<Entry>)
    ensures Print(Object(members)) == "{" + Listed(MemberTexts(members), '}')
  {
    assert MemberTexts(members) == seq(|members|, i requires 0 <= i < |members| =>
      Keyed(members[i].key, Print(members[i].value)));
  }
}
