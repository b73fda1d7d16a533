/** The character count in front of a string, against the characters that the bytes encode. */
module Utf8 {
  import opened Bytes
  import opened Items

  /** Up to 21 bits, which is what four bytes hold. */
  type CodePoint = c: int | 0 <= c < 0x20_0000

  /** The bytes of a character: UTF-8, with zero in two bytes so that no byte is zero. */
  function Utf8Of(c: CodePoint): (s: seq<Byte>)
    ensures |s| > 0
  {
    if 0 < c < 0x80 then [c]
    else if c < 0x800 then [0xC0 + c / 64, 0x80 + c % 64]
    else if c < 0x1_0000 then [0xE0 + c / 0x1000, 0x80 + c / 64 % 64, 0x80 + c % 64]
    else [0xF0 + c / 0x4_0000, 0x80 + c / 0x1000 % 64, 0x80 + c / 64 % 64, 0x80 + c % 64]
  }

  /** The UTF-16 units of a character: above the basic plane, a surrogate pair. */
  function Utf16Of(c: CodePoint): seq<UInt16> {
    if c < 0x1_0000 then [c] else [0xD800 + (c - 0x1_0000) / 0x400, 0xDC00 + (c - 0x1_0000) % 0x400]
  }

  function Utf8Text(cs: seq<CodePoint>): seq<Byte> {
    if cs == [] then [] else Utf8Of(cs[0]) + Utf8Text(cs[1..])
  }

  function Utf16Text(cs: seq<CodePoint>): seq<UInt16> {
    if cs == [] then [] else Utf16Of(cs[0]) + Utf16Text(cs[1..])
  }

  lemma DropPrefix(a: seq<Byte>, b: seq<Byte>)
    ensures Drop(a + b, |a|) == b
  {
  }

  /** The lead byte tells how many bytes follow, and only four bytes make two units. */
  lemma LeadByte(c: CodePoint)
    ensures var s := Utf8Of(c);
            && |s| <= 4 && |Utf16Of(c)| == (if |s| == 4 then 2 else 1)
            && (|s| == 1 <==> s[0] < 0x80)
            && (|s| == 2 ==> s[0] / 0x20 % 2 == 0)
            && (|s| >= 3 ==> s[0] / 0x20 % 2 == 1)
            && (|s| == 3 ==> s[0] / 0x10 % 2 == 0)
            && (|s| == 4 ==> s[0] / 0x10 % 2 == 1)
  {
  }

  lemma CountOne(c: CodePoint, rest: seq<Byte>)
    ensures CountUtf8Chars(Utf8Of(c) + rest) == |Utf16Of(c)| + CountUtf8Chars(rest)
  {
    LeadByte(c);
    hide Utf8Of, Utf16Of;
    DropPrefix(Utf8Of(c), rest);
    assert |Utf8Of(c)| == 1 ==> (Utf8Of(c) + rest)[1..] == rest;
  }

  /** `CountModifiedUtf8Chars` counts the UTF-16 units of the text. */
  lemma {:induction false} CountsUnits(cs: seq<CodePoint>)
    ensures CountUtf8Chars(Utf8Text(cs)) == |Utf16Text(cs)|
  {
    hide Utf8Of, Utf16Of, CountUtf8Chars;
    if cs == [] {
      CountNone();
    } else {
      CountOne(cs[0], Utf8Text(cs[1..]));
      CountsUnits(cs[1..]);
    }
  }

  lemma CountNone()
    ensures CountUtf8Chars([]) == 0
  {
  }
}
