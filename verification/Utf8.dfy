/**
UTF-8 as section 3 of RFC 3629 defines it, the byte positions at which a character starts, and
white space as Rust's string functions see it. A string is a sequence of Unicode scalar values;
its bytes are its encoding.
*/
module Utf8 {
  import opened MachineInts

  type Byte = b: int | 0 <= b < 256

  function EncodeChar(c: char): (bytes: seq<Byte>)
    ensures 1 <= |bytes| <= 4
    ensures !Continues(bytes[0]) && forall i | 1 <= i < |bytes| :: Continues(bytes[i])
  {
    var n := c as int;
    if n < 0x80 then [n]
    else if n < 0x800 then [0xC0 + n / 64, 0x80 + n % 64]
    else if n < 0x1_0000 then [0xE0 + n / 64 / 64, 0x80 + n / 64 % 64, 0x80 + n % 64]
    else [0xF0 + n / 64 / 64 / 64, 0x80 + n / 64 / 64 % 64, 0x80 + n / 64 % 64, 0x80 + n % 64]
  }

  function Encode(s: string): seq<Byte> {
    if s == "" then [] else EncodeChar(s[0]) + Encode(s[1..])
  }

  /** The length Rust reports for a string. */
  function ByteLen(s: string): nat { |Encode(s)| }

  /** A byte of the form 10xxxxxx, which never starts a character. */
  predicate Continues(b: Byte) { 0x80 <= b < 0xC0 }

  /** Where Rust lets a string be cut. */
  predicate IsBoundary(bytes: seq<Byte>, i: nat) {
    i == 0 || i == |bytes| || (i < |bytes| && !Continues(bytes[i]))
  }

  // ---------------------------------------------------------------- decoding

  /** The six bits of a continuation byte behind the bits read so far. */
  function Join(high: nat, b: Byte): nat
    requires Continues(b)
  {
    high * 64 + (b as int - 0x80)
  }

  /** Overlong forms, surrogates and values beyond U+10FFFF are no characters. */
  predicate IsScalar(n: nat, least: nat) {
    least <= n && (n < 0xD800 || 0xE000 <= n <= 0x10_FFFF)
  }

  function DecodeTwo(a: Byte, b: Byte): Option<char>
    requires 0xC0 <= a < 0xE0
  {
    if Continues(b) && IsScalar(Join(a - 0xC0, b), 0x80) then Some(Join(a - 0xC0, b) as char)
    else None
  }

  function DecodeThree(a: Byte, b: Byte, c: Byte): Option<char>
    requires 0xE0 <= a < 0xF0
  {
    if Continues(b) && Continues(c) && IsScalar(Join(Join(a - 0xE0, b), c), 0x800) then
      Some(Join(Join(a - 0xE0, b), c) as char)
    else None
  }

  function DecodeFour(a: Byte, b: Byte, c: Byte, d: Byte): Option<char>
    requires 0xF0 <= a
  {
    if Continues(b) && Continues(c) && Continues(d)
       && IsScalar(Join(Join(Join(a - 0xF0, b), c), d), 0x1_0000) then
      Some(Join(Join(Join(a - 0xF0, b), c), d) as char)
    else None
  }

  /** How many bytes a character with this first byte has; none starts with a continuation. */
  function Width(b: Byte): nat {
    if b < 0x80 then 1
    else if b < 0xC0 then 0
    else if b < 0xE0 then 2
    else if b < 0xF0 then 3
    else 4
  }

  function DecodeFirst(bytes: seq<Byte>): (r: Option<char>)
    ensures r.Some? ==> 1 <= |bytes| && 1 <= Width(bytes[0]) <= |bytes|
  {
    if bytes == [] || Width(bytes[0]) == 0 || |bytes| < Width(bytes[0]) then None
    else match Width(bytes[0])
      case 1 => Some(bytes[0] as char)
      case 2 => DecodeTwo(bytes[0], bytes[1])
      case 3 => DecodeThree(bytes[0], bytes[1], bytes[2])
      case _ => DecodeFour(bytes[0], bytes[1], bytes[2], bytes[3])
  }

  function Decode(bytes: seq<Byte>): Option<string> {
    if bytes == [] then Some("")
    else match DecodeFirst(bytes)
      case None => None
      case Some(c) =>
        match Decode(bytes[Width(bytes[0])..])
        case None => None
        case Some(rest) => Some([c] + rest)
  }

  predicate ValidUtf8(bytes: seq<Byte>) { Decode(bytes).Some? }

  lemma SplitJoin(n: nat)
    ensures n == Join(n / 64, 0x80 + n % 64)
  {
  }

  lemma JoinSplit(high: nat, b: Byte)
    requires Continues(b)
    ensures Join(high, b) / 64 == high && 0x80 + Join(high, b) % 64 == b
  {
  }

  lemma DecodeEncodedChar(c: char, rest: seq<Byte>)
    ensures var bytes := EncodeChar(c) + rest;
            DecodeFirst(bytes) == Some(c) && Width(bytes[0]) == |EncodeChar(c)|
  {
    var n := c as int;
    var bytes := EncodeChar(c) + rest;
    assert forall i | 0 <= i < |EncodeChar(c)| :: bytes[i] == EncodeChar(c)[i];
    SplitJoin(n);
    SplitJoin(n / 64);
    SplitJoin(n / 64 / 64);
  }

  lemma {:induction false} DecodeEncode(s: string)
    ensures Decode(Encode(s)) == Some(s)
  {
    if s != "" {
      var rest := Encode(s[1..]);
      DecodeEncodedChar(s[0], rest);
      DecodeEncode(s[1..]);
      assert Encode(s)[|EncodeChar(s[0])|..] == rest;
      assert s == [s[0]] + s[1..];
    }
  }

  lemma EncodingIsValid(s: string)
    ensures ValidUtf8(Encode(s))
  {
    DecodeEncode(s);
  }

  lemma EncodeTwo(a: Byte, b: Byte)
    requires 0xC0 <= a < 0xE0 && DecodeTwo(a, b).Some?
    ensures EncodeChar(DecodeTwo(a, b).value) == [a, b]
  {
    JoinSplit(a - 0xC0, b);
  }

  lemma EncodeThree(a: Byte, b: Byte, c: Byte)
    requires 0xE0 <= a < 0xF0 && DecodeThree(a, b, c).Some?
    ensures EncodeChar(DecodeThree(a, b, c).value) == [a, b, c]
  {
    JoinSplit(a - 0xE0, b);
    JoinSplit(Join(a - 0xE0, b), c);
  }

  lemma EncodeFour(a: Byte, b: Byte, c: Byte, d: Byte)
    requires 0xF0 <= a && DecodeFour(a, b, c, d).Some?
    ensures EncodeChar(DecodeFour(a, b, c, d).value) == [a, b, c, d]
  {
    JoinSplit(a - 0xF0, b);
    JoinSplit(Join(a - 0xF0, b), c);
    JoinSplit(Join(Join(a - 0xF0, b), c), d);
  }

  lemma EncodeDecodedFirst(bytes: seq<Byte>)
    requires DecodeFirst(bytes).Some?
    ensures EncodeChar(DecodeFirst(bytes).value) == bytes[..Width(bytes[0])]
  {
    match Width(bytes[0])
    case 1 =>
    case 2 => EncodeTwo(bytes[0], bytes[1]);
    case 3 => EncodeThree(bytes[0], bytes[1], bytes[2]);
    case _ => EncodeFour(bytes[0], bytes[1], bytes[2], bytes[3]);
  }

  /** What decodes was encoded from what it decodes to. */
  lemma {:induction false} EncodeDecode(bytes: seq<Byte>)
    requires ValidUtf8(bytes)
    ensures Encode(Decode(bytes).value) == bytes
  {
    if bytes != [] {
      var width := Width(bytes[0]);
      EncodeDecodedFirst(bytes);
      EncodeDecode(bytes[width..]);
      var s := Decode(bytes).value;
      assert s[0] == DecodeFirst(bytes).value && s[1..] == Decode(bytes[width..]).value;
      assert bytes == bytes[..width] + bytes[width..];
    }
  }

  /** Bytes are valid exactly when they are the encoding of some string. */
  lemma ValidExactly(bytes: seq<Byte>)
    ensures ValidUtf8(bytes) <==> exists s :: Encode(s) == bytes
  {
    if ValidUtf8(bytes) {
      EncodeDecode(bytes);
    } else {
      forall s ensures Encode(s) != bytes {
        EncodingIsValid(s);
      }
    }
  }

  // ---------------------------------------------------------------- cutting between characters

  lemma {:induction false} EncodeConcat(s: string, t: string)
    ensures Encode(s + t) == Encode(s) + Encode(t)
  {
    if s == "" {
      assert s + t == t;
    } else {
      assert (s + t)[0] == s[0] && (s + t)[1..] == s[1..] + t;
      EncodeConcat(s[1..], t);
    }
  }

  /** Cutting a string's bytes in front of its k-th character leaves the rest of the string. */
  lemma CutBefore(s: string, k: nat)
    requires k <= |s|
    ensures ByteLen(s[..k]) <= ByteLen(s) && Encode(s)[ByteLen(s[..k])..] == Encode(s[k..])
  {
    assert s == s[..k] + s[k..];
    EncodeConcat(s[..k], s[k..]);
  }

  /** Every boundary is in front of a character or at the end. */
  lemma {:induction false} BoundaryStartsChar(s: string, i: nat) returns (k: nat)
    requires i <= ByteLen(s) && IsBoundary(Encode(s), i)
    ensures k <= |s| && ByteLen(s[..k]) == i
  {
    if i == 0 {
      k := 0;
    } else {
      var width := |EncodeChar(s[0])|;
      assert forall j | 0 <= j < width :: Encode(s)[j] == EncodeChar(s[0])[j];
      assert i >= width;
      assert i < ByteLen(s) ==> Encode(s)[i] == Encode(s[1..])[i - width];
      var tail := BoundaryStartsChar(s[1..], i - width);
      k := tail + 1;
      assert s[..k][1..] == s[1..][..tail] && s[..k][0] == s[0];
    }
  }

  /** From any position the next boundary is at most three bytes away. */
  lemma {:induction false} BoundaryIsNear(s: string, i: nat) returns (d: nat)
    requires i <= ByteLen(s)
    ensures d <= 3 && i + d <= ByteLen(s) && IsBoundary(Encode(s), i + d)
  {
    if s == "" {
      d := 0;
    } else {
      var width := |EncodeChar(s[0])|;
      if i == 0 {
        d := 0;
      } else {
        var at := if i < width then 0 else i - width;
        var near := BoundaryIsNear(s[1..], at);
        d := if i < width then width - i else near;
        if i < width {
          assert s[1..] != "" ==> Encode(s)[width] == EncodeChar(s[1])[0];
        } else {
          assert i + d < ByteLen(s) ==> Encode(s)[i + d] == Encode(s[1..])[at + d];
          assert at + d == 0 && s[1..] != "" ==> Encode(s)[width] == EncodeChar(s[1])[0];
        }
      }
    }
  }

  // ---------------------------------------------------------------- white space

  predicate IsWhitespace(c: char) {
    var n := c as int;
    || 0x09 <= n <= 0x0D || n == 0x20 || n == 0x85 || n == 0xA0 || n == 0x1680
    || 0x2000 <= n <= 0x200A || n == 0x2028 || n == 0x2029 || n == 0x202F || n == 0x205F
    || n == 0x3000
  }

  function TrimStart(s: string): string {
    if s != "" && IsWhitespace(s[0]) then TrimStart(s[1..]) else s
  }

  function TrimEnd(s: string): string {
    if s != "" && IsWhitespace(s[|s| - 1]) then TrimEnd(s[..|s| - 1]) else s
  }

  function Trim(s: string): string { TrimEnd(TrimStart(s)) }
}
