/**
A reader for JSON texts (RFC 8259), and what it makes of the text that is digested: every value is
read back from its text, so no two values share one, and with the canonical form the text is a
faithful name for what a tree denotes.
*/
module JsonReader {
  import opened MachineInts
  import opened CanonicalJson
  import opened JsonText

  datatype Reading<T> = NoReading | Reading(value: T, rest: string)

  // ---------------------------------------------------------------- strings

  function HexValue(c: char): Option<nat> {
    if '0' <= c <= '9' then Some((c as int - '0' as int) as nat)
    else if 'a' <= c <= 'f' then Some(10 + (c as int - 'a' as int))
    else if 'A' <= c <= 'F' then Some(10 + (c as int - 'A' as int))
    else None
  }

  /** Four hexadecimal digits. */
  function ReadHex(s: string): (r: Reading<nat>)
    ensures r.Reading? ==> |s| >= 4 && r.value < 0x1_0000 && r.rest == s[4..]
  {
    if |s| < 4 then NoReading
    else match (HexValue(s[0]), HexValue(s[1]), HexValue(s[2]), HexValue(s[3]))
      case (Some(a), Some(b), Some(c), Some(d)) =>
        HexIsSmall(s[0]);
        HexIsSmall(s[1]);
        HexIsSmall(s[2]);
        HexIsSmall(s[3]);
        Reading(((a * 16 + b) * 16 + c) * 16 + d, s[4..])
      case _ => NoReading
  }

  lemma HexIsSmall(c: char)
    ensures HexValue(c).Some? ==> HexValue(c).value < 16
  {
  }

  function ShortMeaning(letter: char): Option<char> {
    match letter
    case '"' => Some('"')
    case '\\' => Some('\\')
    case '/' => Some('/')
    case 'b' => Some(8 as char)
    case 'f' => Some(12 as char)
    case 'n' => Some(10 as char)
    case 'r' => Some(13 as char)
    case 't' => Some(9 as char)
    case _ => None
  }

  /** Behind `\u`: a code point, or a pair of surrogates for one beyond the basic plane. */
  function ReadUnicode(s: string): (r: Reading<char>)
    ensures r.Reading? ==> |r.rest| < |s|
  {
    match ReadHex(s)
    case NoReading => NoReading
    case Reading(high, rest) =>
      if high < 0xD800 || 0xE000 <= high then Reading(high as char, rest)
      else if high < 0xDC00 && "\\u" <= rest then
        match ReadHex(rest[2..])
        case Reading(low, after) =>
          if 0xDC00 <= low < 0xE000 then
            Reading((0x1_0000 + (high - 0xD800) * 0x400 + (low - 0xDC00)) as char, after)
          else NoReading
        case NoReading => NoReading
      else NoReading
  }

  /** One character of a string literal; control characters must be escaped. */
  function ReadChar(s: string): (r: Reading<char>)
    requires s != ""
    ensures r.Reading? ==> |r.rest| < |s|
  {
    if s[0] != '\\' then (if s[0] as int < 0x20 then NoReading else Reading(s[0], s[1..]))
    else if |s| == 1 then NoReading
    else if s[1] == 'u' then ReadUnicode(s[2..])
    else match ShortMeaning(s[1])
      case Some(c) => Reading(c, s[2..])
      case None => NoReading
  }

  /** Up to the closing quote. */
  function ReadChars(s: string): (r: Reading<string>)
    ensures r.Reading? ==> |r.rest| < |s|
    decreases |s|
  {
    if s == "" then NoReading
    else if s[0] == '"' then Reading("", s[1..])
    else match ReadChar(s)
      case NoReading => NoReading
      case Reading(c, rest) =>
        match ReadChars(rest)
        case NoReading => NoReading
        case Reading(chars, after) => Reading([c] + chars, after)
  }

  // ---------------------------------------------------------------- values

  predicate Whitespace(c: char) { c in {' ', '\t', '\n', '\r'} }

  function Skip(s: string): (r: string)
    ensures |r| <= |s| && (r != "" ==> !Whitespace(r[0]))
  {
    if s != "" && Whitespace(s[0]) then Skip(s[1..]) else s
  }

  function NumberRun(s: string): (n: nat)
    ensures n <= |s| && (n < |s| ==> !NumberChar(s[n]))
    ensures forall i | 0 <= i < n :: NumberChar(s[i])
  {
    if s == "" || !NumberChar(s[0]) then 0 else 1 + NumberRun(s[1..])
  }

  /** A literal name or a number. */
  function ReadScalar(s: string): (r: Reading<Json>)
    ensures r.Reading? ==> |r.rest| < |s|
  {
    if "null" <= s then Reading(Null, s[4..])
    else if "true" <= s then Reading(Bool(true), s[4..])
    else if "false" <= s then Reading(Bool(false), s[5..])
    else
      var n := NumberRun(s);
      if NumberLiteral(s[..n]) then Reading(Number(s[..n]), s[n..]) else NoReading
  }

  function ReadValue(s: string): (r: Reading<Json>)
    ensures r.Reading? ==> |r.rest| < |s|
    decreases |s|, 0
  {
    var t := Skip(s);
    if t == "" then NoReading
    else if t[0] == '"' then
      match ReadChars(t[1..])
      case NoReading => NoReading
      case Reading(chars, rest) => Reading(Str(chars), rest)
    else if t[0] == '[' then
      var u := Skip(t[1..]);
      if u != "" && u[0] == ']' then Reading(Array([]), u[1..])
      else
        match ReadItems(u)
        case NoReading => NoReading
        case Reading(items, rest) => Reading(Array(items), rest)
    else if t[0] == '{' then
      var u := Skip(t[1..]);
      if u != "" && u[0] == '}' then Reading(Object([]), u[1..])
      else
        match ReadMembers(u)
        case NoReading => NoReading
        case Reading(members, rest) => Reading(Object(members), rest)
    else ReadScalar(t)
  }

  function ReadItems(s: string): (r: Reading<seq<Json>>)
    ensures r.Reading? ==> |r.rest| < |s|
    decreases |s|, 1
  {
    match ReadValue(s)
    case NoReading => NoReading
    case Reading(first, rest) =>
      var t := Skip(rest);
      if t == "" then NoReading
      else if t[0] == ']' then Reading([first], t[1..])
      else if t[0] == ',' then
        match ReadItems(t[1..])
        case NoReading => NoReading
        case Reading(others, after) => Reading([first] + others, after)
      else NoReading
  }

  function ReadMember(s: string): (r: Reading<Entry>)
    ensures r.Reading? ==> |r.rest| < |s|
    decreases |s|, 1
  {
    var t := Skip(s);
    if t == "" || t[0] != '"' then NoReading
    else match ReadChars(t[1..])
      case NoReading => NoReading
      case Reading(key, rest) =>
        var u := Skip(rest);
        if u == "" || u[0] != ':' then NoReading
        else match ReadValue(u[1..])
          case NoReading => NoReading
          case Reading(value, after) => Reading(Entry(key, value), after)
  }

  function ReadMembers(s: string): (r: Reading<seq<Entry>>)
    ensures r.Reading? ==> |r.rest| < |s|
    decreases |s|, 2
  {
    match ReadMember(s)
    case NoReading => NoReading
    case Reading(first, rest) =>
      var t := Skip(rest);
      if t == "" then NoReading
      else if t[0] == '}' then Reading([first], t[1..])
      else if t[0] == ',' then
        match ReadMembers(t[1..])
        case NoReading => NoReading
        case Reading(others, after) => Reading([first] + others, after)
      else NoReading
  }

  /** A text is one value with nothing but whitespace around it. */
  function Parse(s: string): Option<Json> {
    match ReadValue(s)
    case NoReading => None
    case Reading(j, rest) => if Skip(rest) == "" then Some(j) else None
  }

  // ---------------------------------------------------------------- what was written is read back

  /** What can follow a value: nothing, a comma or a closing bracket. */
  predicate Delimited(rest: string) {
    rest == "" || rest[0] in {',', ']', '}'}
  }

  lemma HexReadsBack(d: nat)
    requires d < 16
    ensures HexValue(HexDigit(d)) == Some(d)
  {
  }

  lemma ControlReadsBack(c: char, more: string)
    requires c as int < 0x20
    ensures var digits := [HexDigit(c as int / 16), HexDigit(c as int % 16)];
            ReadUnicode("00" + digits + more) == Reading(c, more)
  {
    HexReadsBack(0);
    HexReadsBack(c as int / 16);
    HexReadsBack(c as int % 16);
  }

  lemma CharReadsBack(c: char, more: string)
    ensures EscapeChar(c) != "" && EscapeChar(c)[0] != '"'
    ensures ReadChar(EscapeChar(c) + more) == Reading(c, more)
  {
    var s := EscapeChar(c) + more;
    if ShortEscape(c).Some? {
      assert s[2..] == more;
    } else if c as int < 0x20 {
      var digits := [HexDigit(c as int / 16), HexDigit(c as int % 16)];
      assert s[2..] == "00" + digits + more;
      ControlReadsBack(c, more);
    } else {
      assert s[1..] == more;
    }
  }

  lemma CharsAreRead(s: string, c: char, more: string, chars: string, rest: string)
    requires s != "" && s[0] != '"' && ReadChar(s) == Reading(c, more)
    requires ReadChars(more) == Reading(chars, rest)
    ensures ReadChars(s) == Reading([c] + chars, rest)
  {
  }

  lemma EncodeSplits(chars: string, code: char -> string, rest: string)
    requires chars != ""
    ensures Encode(chars, code) + "\"" + rest
            == code(chars[0]) + (Encode(chars[1..], code) + "\"" + rest)
  {
  }

  lemma {:induction false} CharsReadBack(chars: string, rest: string)
    ensures ReadChars(Encode(chars, EscapeChar) + "\"" + rest) == Reading(chars, rest)
  {
    if chars == "" {
      assert (Encode(chars, EscapeChar) + "\"" + rest)[1..] == rest;
    } else {
      var more := Encode(chars[1..], EscapeChar) + "\"" + rest;
      EncodeSplits(chars, EscapeChar, rest);
      CharReadsBack(chars[0], more);
      CharsReadBack(chars[1..], rest);
      CharsAreRead(EscapeChar(chars[0]) + more, chars[0], more, chars[1..], rest);
      assert chars == [chars[0]] + chars[1..];
    }
  }

  lemma QuoteReadsBack(chars: string, rest: string)
    ensures var s := Quote(chars) + rest; s[0] == '"' && ReadChars(s[1..]) == Reading(chars, rest)
  {
    assert (Quote(chars) + rest)[1..] == Encode(chars, EscapeChar) + "\"" + rest;
    CharsReadBack(chars, rest);
  }

  lemma RunEndsBehind(text: string, rest: string)
    requires forall i | 0 <= i < |text| :: NumberChar(text[i])
    requires Delimited(rest)
    ensures NumberRun(text + rest) == |text|
  {
    var s := text + rest;
    assert forall i | 0 <= i < |text| :: s[i] == text[i];
    assert rest != "" ==> s[|text|] == rest[0];
  }

  lemma NumberReadsBack(text: NumberText, rest: string)
    requires Delimited(rest)
    ensures ReadScalar(text + rest) == Reading(Number(text), rest)
  {
    var s := text + rest;
    assert NumberChar(text[0]) && s[0] == text[0];
    RunEndsBehind(text, rest);
    assert s[..|text|] == text && s[|text|..] == rest;
  }

  /** The first character tells the kinds of values apart. */
  lemma PrintStarts(j: Json)
    ensures Print(j) != "" && !Whitespace(Print(j)[0]) && Print(j)[0] !in {']', '}'}
    ensures Print(j)[0] == '"' <==> j.Str?
    ensures Print(j)[0] == '[' <==> j.Array?
    ensures Print(j)[0] == '{' <==> j.Object?
  {
  }

  lemma ScalarReadsBack(j: Json, rest: string)
    requires Delimited(rest) && !j.Str? && !j.Array? && !j.Object?
    ensures ReadValue(Print(j) + rest) == Reading(j, rest)
  {
    var s := Print(j) + rest;
    PrintStarts(j);
    assert s[0] == Print(j)[0];
    assert s[|Print(j)|..] == rest;
    if j.Number? {
      NumberReadsBack(j.text, rest);
    }
  }

  lemma StringReadsBack(chars: string, rest: string)
    ensures ReadValue(Quote(chars) + rest) == Reading(Str(chars), rest)
  {
    QuoteReadsBack(chars, rest);
  }

  /** The text is read as this value, whatever follows it. */
  ghost predicate ReadsAs(text: string, j: Json) {
    forall rest | Delimited(rest) :: ReadValue(text + rest) == Reading(j, rest)
  }

  ghost predicate ReadsAsMember(text: string, e: Entry) {
    forall rest | Delimited(rest) :: ReadMember(text + rest) == Reading(e, rest)
  }

  lemma ListedSplits(parts: seq<string>, close: char, rest: string)
    requires parts != [] && close in {']', '}'}
    ensures var tail := Continued(parts[1..], close) + rest;
            && Listed(parts, close) + rest == parts[0] + tail
            && Delimited(tail) && tail != "" && Skip(tail) == tail
            && (|parts| == 1 ==> tail[0] == close && tail[1..] == rest)
            && (|parts| > 1 ==> tail[0] == ',' && tail[1..] == Listed(parts[1..], close) + rest)
  {
  }

  lemma ItemsAreRead(s: string, first: Json, tail: string, others: seq<Json>, rest: string)
    requires ReadValue(s) == Reading(first, tail) && tail != "" && Skip(tail) == tail
    requires if others == [] then tail[0] == ']' && tail[1..] == rest
             else tail[0] == ',' && ReadItems(tail[1..]) == Reading(others, rest)
    ensures ReadItems(s) == Reading([first] + others, rest)
  {
    assert others == [] ==> [first] + others == [first];
  }

  lemma {:induction false} ItemsReadBack(parts: seq<string>, items: seq<Json>, rest: string)
    requires |parts| == |items| && items != []
    requires forall i | 0 <= i < |items| :: ReadsAs(parts[i], items[i])
    ensures ReadItems(Listed(parts, ']') + rest) == Reading(items, rest)
  {
    var tail := Continued(parts[1..], ']') + rest;
    ListedSplits(parts, ']', rest);
    assert ReadsAs(parts[0], items[0]);
    if |items| > 1 {
      ItemsReadBack(parts[1..], items[1..], rest);
    }
    ItemsAreRead(parts[0] + tail, items[0], tail, items[1..], rest);
    assert items == [items[0]] + items[1..];
  }

  lemma MemberIsRead(s: string, key: string, after: string, value: Json, rest: string)
    requires s != "" && s[0] == '"' && ReadChars(s[1..]) == Reading(key, ":" + after)
    requires ReadValue(after) == Reading(value, rest)
    ensures ReadMember(s) == Reading(Entry(key, value), rest)
  {
    assert (":" + after)[1..] == after;
  }

  lemma KeyedSplits(key: string, value: string, rest: string)
    ensures Keyed(key, value) + rest == Quote(key) + (":" + (value + rest))
  {
  }

  lemma MemberReadsBack(e: Entry, text: string)
    requires ReadsAs(text, e.value)
    ensures ReadsAsMember(Keyed(e.key, text), e)
  {
    forall rest | Delimited(rest)
      ensures ReadMember(Keyed(e.key, text) + rest) == Reading(e, rest)
    {
      var after := text + rest;
      KeyedSplits(e.key, text, rest);
      QuoteReadsBack(e.key, ":" + after);
      MemberIsRead(Quote(e.key) + (":" + after), e.key, after, e.value, rest);
    }
  }

  lemma MembersAreRead(s: string, first: Entry, tail: string, others: seq<Entry>, rest: string)
    requires ReadMember(s) == Reading(first, tail) && tail != "" && Skip(tail) == tail
    requires if others == [] then tail[0] == '}' && tail[1..] == rest
             else tail[0] == ',' && ReadMembers(tail[1..]) == Reading(others, rest)
    ensures ReadMembers(s) == Reading([first] + others, rest)
  {
    assert others == [] ==> [first] + others == [first];
  }

  lemma {:induction false} MembersReadBack(parts: seq<string>, members: seq<Entry>, rest: string)
    requires |parts| == |members| && members != []
    requires forall i | 0 <= i < |members| :: ReadsAsMember(parts[i], members[i])
    ensures ReadMembers(Listed(parts, '}') + rest) == Reading(members, rest)
  {
    var tail := Continued(parts[1..], '}') + rest;
    ListedSplits(parts, '}', rest);
    assert ReadsAsMember(parts[0], members[0]);
    if |members| > 1 {
      MembersReadBack(parts[1..], members[1..], rest);
    }
    MembersAreRead(parts[0] + tail, members[0], tail, members[1..], rest);
    assert members == [members[0]] + members[1..];
  }

  lemma ArrayReadsBack(parts: seq<string>, items: seq<Json>, rest: string)
    requires |parts| == |items|
    requires forall i | 0 <= i < |items| :: ReadsAs(parts[i], items[i])
    requires parts != [] ==> parts[0] != "" && !Whitespace(parts[0][0]) && parts[0][0] != ']'
    ensures ReadValue("[" + Listed(parts, ']') + rest) == Reading(Array(items), rest)
  {
    var s, inner := "[" + Listed(parts, ']') + rest, Listed(parts, ']') + rest;
    assert s[0] == '[' && s[1..] == inner;
    if items == [] {
      assert inner[1..] == rest;
    } else {
      assert inner[0] == parts[0][0];
      ItemsReadBack(parts, items, rest);
    }
  }

  lemma ObjectReadsBack(parts: seq<string>, members: seq<Entry>, rest: string)
    requires |parts| == |members|
    requires forall i | 0 <= i < |members| :: ReadsAsMember(parts[i], members[i])
    requires parts != [] ==> parts[0] != "" && parts[0][0] == '"'
    ensures ReadValue("{" + Listed(parts, '}') + rest) == Reading(Object(members), rest)
  {
    var s, inner := "{" + Listed(parts, '}') + rest, Listed(parts, '}') + rest;
    assert s[0] == '{' && s[1..] == inner;
    if members == [] {
      assert inner[1..] == rest;
    } else {
      assert inner[0] == parts[0][0];
      MembersReadBack(parts, members, rest);
    }
  }

  lemma {:induction false} ValueReadsBack(j: Json)
    ensures ReadsAs(Print(j), j)
  {
    match j {
      case Array(items) =>
        PrintArray(items);
        forall i | 0 <= i < |items| ensures ReadsAs(Print(items[i]), items[i]) {
          ValueReadsBack(items[i]);
        }
        if items != [] {
          PrintStarts(items[0]);
        }
      case Object(members) =>
        PrintObject(members);
        forall i | 0 <= i < |members|
          ensures ReadsAsMember(MemberTexts(members)[i], members[i])
        {
          ValueReadsBack(members[i].value);
          MemberReadsBack(members[i], Print(members[i].value));
        }
      case _ =>
    }
    forall rest | Delimited(rest) ensures ReadValue(Print(j) + rest) == Reading(j, rest) {
      match j
      case Str(chars) => StringReadsBack(chars, rest);
      case Array(items) => ArrayReadsBack(ItemTexts(items), items, rest);
      case Object(members) => ObjectReadsBack(MemberTexts(members), members, rest);
      case _ => ScalarReadsBack(j, rest);
    }
  }

  /** Every value is parsed back from its text. */
  lemma ParsesBack(j: Json)
    ensures Parse(Print(j)) == Some(j)
  {
    ValueReadsBack(j);
    assert Delimited("") && Print(j) + "" == Print(j);
  }

  // ---------------------------------------------------------------- nothing shorter reads the same

  lemma CharIsShort(s: string)
    requires s != "" && s[0] != '"' && ReadChar(s).Reading?
    ensures |EscapeChar(ReadChar(s).value)| + |ReadChar(s).rest| <= |s|
  {
  }

  lemma {:induction false} CharsAreShort(s: string)
    requires ReadChars(s).Reading?
    ensures |Encode(ReadChars(s).value, EscapeChar)| + 1 + |ReadChars(s).rest| <= |s|
    decreases |s|
  {
    if s[0] != '"' {
      CharIsShort(s);
      CharsAreShort(ReadChar(s).rest);
      var chars := ReadChars(s).value;
      assert chars[1..] == ReadChars(ReadChar(s).rest).value;
    }
  }

  lemma QuoteIsShort(s: string)
    requires ReadChars(s).Reading?
    ensures |Quote(ReadChars(s).value)| + |ReadChars(s).rest| <= 1 + |s|
  {
    CharsAreShort(s);
  }

  /** What is read from a text is never written longer. */
  lemma {:induction false} ValueIsShort(s: string)
    requires ReadValue(s).Reading?
    ensures |Print(ReadValue(s).value)| + |ReadValue(s).rest| <= |s|
    decreases |s|, 0
  {
    var t := Skip(s);
    var j := ReadValue(s).value;
    if t[0] == '"' {
      QuoteIsShort(t[1..]);
    } else if t[0] == '[' {
      var u := Skip(t[1..]);
      PrintArray(j.items);
      if u != "" && u[0] != ']' {
        ItemsAreShort(u);
      }
    } else if t[0] == '{' {
      var u := Skip(t[1..]);
      PrintObject(j.members);
      if u != "" && u[0] != '}' {
        MembersAreShort(u);
      }
    }
  }

  lemma {:induction false} ItemsAreShort(s: string)
    requires ReadItems(s).Reading?
    ensures |Listed(ItemTexts(ReadItems(s).value), ']')| + |ReadItems(s).rest| <= |s|
    decreases |s|, 1
  {
    ValueIsShort(s);
    var items := ReadItems(s).value;
    var t := Skip(ReadValue(s).rest);
    if t[0] == ',' {
      ItemsAreShort(t[1..]);
      assert items[1..] == ReadItems(t[1..]).value;
    }
    assert ItemTexts(items)[1..] == ItemTexts(items[1..]);
  }

  lemma {:induction false} MemberIsShort(s: string)
    requires ReadMember(s).Reading?
    ensures var e := ReadMember(s).value;
            |Keyed(e.key, Print(e.value))| + |ReadMember(s).rest| <= |s|
    decreases |s|, 1
  {
    var t := Skip(s);
    QuoteIsShort(t[1..]);
    var u := Skip(ReadChars(t[1..]).rest);
    ValueIsShort(u[1..]);
  }

  lemma {:induction false} MembersAreShort(s: string)
    requires ReadMembers(s).Reading?
    ensures |Listed(MemberTexts(ReadMembers(s).value), '}')| + |ReadMembers(s).rest| <= |s|
    decreases |s|, 2
  {
    MemberIsShort(s);
    var members := ReadMembers(s).value;
    var t := Skip(ReadMember(s).rest);
    if t[0] == ',' {
      MembersAreShort(t[1..]);
      assert members[1..] == ReadMembers(t[1..]).value;
    }
    assert MemberTexts(members)[1..] == MemberTexts(members[1..]);
  }

  /** The text written for a value is a shortest one: no spaces, and only the escapes it needs. */
  lemma PrintIsShortest(text: string, j: Json)
    requires Parse(text) == Some(j)
    ensures |Print(j)| <= |text|
  {
    ValueIsShort(text);
  }

  /** No two values share a text. */
  lemma PrintIsInjective(a: Json, b: Json)
    ensures Print(a) == Print(b) <==> a == b
  {
    ParsesBack(a);
    ParsesBack(b);
  }

  /** Two trees have the same canonical text exactly when they denote the same value. */
  lemma TextDecidesMeaning(a: Json, b: Json)
    requires WellFormed(a) && WellFormed(b)
    ensures CanonicalText(a) == CanonicalText(b) <==> Denote(a) == Denote(b)
  {
    PrintIsInjective(Canonicalize(a), Canonicalize(b));
    CanonicalDecidesMeaning(a, b);
  }

  /**
  The canonical text is JSON for the tree's own value, with every object's keys ascending by code
  point, and no other spelling of that ordered tree is shorter.
  */
  lemma CanonicalTextParses(j: Json)
    requires WellFormed(j)
    ensures var c := Parse(CanonicalText(j));
            && c.Some? && Denote(c.value) == Denote(j) && KeysInOrder(c.value)
            && forall text | Parse(text) == c :: |CanonicalText(j)| <= |text|
  {
    ParsesBack(Canonicalize(j));
    CanonicalKeepsMeaning(j);
    CanonicalKeysInOrder(j);
    forall text | Parse(text) == Some(Canonicalize(j)) ensures |CanonicalText(j)| <= |text| {
      PrintIsShortest(text, Canonicalize(j));
    }
  }
}
