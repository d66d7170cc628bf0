/**
 Well-formed UTF-8, section 4 of RFC 3629, as a check of a byte string takes it: one character at a
 time, by the ranges of its bytes. The encoding of section 3 is what it is checked against.
 */
module Utf8 {
  import opened Base64

  // ----- the check -----

  predicate Continuation(b: Byte) {
    0x80 <= b <= 0xBF
  }

  /** Length of the character at the head of a text, or 0 when there is none. */
  function CharLength(s: seq<Byte>): (n: nat)
    ensures n <= |s| && n <= 4
  {
    if s == [] then 0
    else if s[0] < 0x80 then 1
    else if |s| >= 2 && 0xC2 <= s[0] <= 0xDF && Continuation(s[1]) then 2
    else if |s| >= 3 && SecondOfThree(s[0], s[1]) && Continuation(s[2]) then 3
    else if |s| >= 4 && SecondOfFour(s[0], s[1]) && Continuation(s[2]) && Continuation(s[3]) then 4
    else 0
  }

  /** No overlong form and no surrogate. */
  predicate SecondOfThree(lead: Byte, second: Byte) {
    if lead == 0xE0 then 0xA0 <= second <= 0xBF
    else if lead == 0xED then 0x80 <= second <= 0x9F
    else 0xE1 <= lead <= 0xEF && Continuation(second)
  }

  /** No overlong form and nothing above U+10FFFF. */
  predicate SecondOfFour(lead: Byte, second: Byte) {
    if lead == 0xF0 then 0x90 <= second <= 0xBF
    else if lead == 0xF4 then 0x80 <= second <= 0x8F
    else 0xF1 <= lead <= 0xF3 && Continuation(second)
  }

  predicate ValidUtf8(s: seq<Byte>) {
    s == [] || (CharLength(s) > 0 && ValidUtf8(s[CharLength(s)..]))
  }

  // ----- the encoding -----

  /** A code point that is not a surrogate. */
  type Scalar = c: int | 0 <= c < 0xD800 || 0xE000 <= c < 0x110000

  /** The last six bits of a number, as a continuation byte. */
  function Tail(c: nat): Byte {
    0x80 + c % 64
  }

  /** A first byte that tells the length and has the highest bits, and six bits in each other byte. */
  function EncodeChar(c: Scalar): seq<Byte> {
    if c < 0x80 then [c]
    else if c < 0x800 then [0xC0 + c / 64, Tail(c)]
    else if c < 0x10000 then [0xE0 + c / 64 / 64, Tail(c / 64), Tail(c)]
    else
      assert c / 64 / 64 / 64 <= 4;
      [0xF0 + c / 64 / 64 / 64, Tail(c / 64 / 64), Tail(c / 64), Tail(c)]
  }

  function EncodeText(text: seq<Scalar>): seq<Byte> {
    if text == [] then [] else EncodeChar(text[0]) + EncodeText(text[1..])
  }

  lemma ThreeBytes(c: Scalar)
    requires 0x800 <= c < 0x10000
    ensures SecondOfThree(0xE0 + c / 64 / 64, Tail(c / 64))
  {
    var high, low := c / 64 / 64, c / 64 % 64;
    assert c / 64 == high * 64 + low;
    assert c < 0xD800 ==> c / 64 < 0x360;
    assert c >= 0xE000 ==> c / 64 >= 0x380;
    assert 0x20 <= c / 64 < 0x400;
  }

  lemma FourBytes(c: Scalar)
    requires c >= 0x10000
    ensures c / 64 / 64 / 64 <= 4 && SecondOfFour(0xF0 + c / 64 / 64 / 64, Tail(c / 64 / 64))
  {
    var high, low := c / 64 / 64 / 64, c / 64 / 64 % 64;
    assert c / 64 / 64 == high * 64 + low;
    assert 0x10 <= c / 64 / 64 < 0x110;
  }

  lemma EncodedCharIsValid(c: Scalar, rest: seq<Byte>)
    ensures CharLength(EncodeChar(c) + rest) == |EncodeChar(c)|
  {
    var s := EncodeChar(c) + rest;
    if 0x800 <= c < 0x10000 {
      assert s[0] == 0xE0 + c / 64 / 64 && s[1] == Tail(c / 64) && s[2] == Tail(c);
      ThreeBytes(c);
    } else if c >= 0x10000 {
      assert s[0] == 0xF0 + c / 64 / 64 / 64 && s[1] == Tail(c / 64 / 64) && s[2] == Tail(c / 64) && s[3] == Tail(c);
      FourBytes(c);
    }
  }

  /** Six more bits. */
  function Join(high: nat, b: Byte): nat
    requires Continuation(b)
  {
    high * 64 + (b - 0x80)
  }

  /** The character at the head of a text. */
  function CharAt(s: seq<Byte>): int
    requires CharLength(s) > 0
  {
    match CharLength(s)
    case 1 => s[0]
    case 2 => Join(s[0] - 0xC0, s[1])
    case 3 => Join(Join(s[0] - 0xE0, s[1]), s[2])
    case _ => Join(Join(Join(s[0] - 0xF0, s[1]), s[2]), s[3])
  }

  lemma JoinSplits(high: nat, b: Byte)
    requires Continuation(b)
    ensures Join(high, b) / 64 == high && Tail(Join(high, b)) == b
  {
  }

  lemma CharIsEncoded(s: seq<Byte>) returns (c: Scalar)
    requires CharLength(s) > 0
    ensures EncodeChar(c) == s[..CharLength(s)]
  {
    c := CharAt(s);
    match CharLength(s)
    case 1 =>
    case 2 => JoinSplits(s[0] - 0xC0, s[1]);
    case 3 =>
      JoinSplits(s[0] - 0xE0, s[1]);
      JoinSplits(Join(s[0] - 0xE0, s[1]), s[2]);
    case _ =>
      JoinSplits(s[0] - 0xF0, s[1]);
      JoinSplits(Join(s[0] - 0xF0, s[1]), s[2]);
      JoinSplits(Join(Join(s[0] - 0xF0, s[1]), s[2]), s[3]);
  }

  lemma {:induction false} EncodedIsValid(text: seq<Scalar>)
    ensures ValidUtf8(EncodeText(text))
  {
    if text == [] {
    } else {
      var first, rest := EncodeChar(text[0]), EncodeText(text[1..]);
      EncodedCharIsValid(text[0], rest);
      assert (first + rest)[|first|..] == rest;
      EncodedIsValid(text[1..]);
    }
  }

  lemma {:induction false} ValidIsEncoded(s: seq<Byte>) returns (text: seq<Scalar>)
    requires ValidUtf8(s)
    ensures EncodeText(text) == s
  {
    if s == [] {
      text := [];
    } else {
      var n := CharLength(s);
      var c := CharIsEncoded(s);
      var rest := ValidIsEncoded(s[n..]);
      text := [c] + rest;
      assert text[1..] == rest && s == s[..n] + s[n..];
    }
  }

  /** Exactly the encodings of texts are well formed. */
  lemma ValidIffEncoded(s: seq<Byte>)
    ensures ValidUtf8(s) <==> exists text :: EncodeText(text) == s
  {
    if ValidUtf8(s) {
      var text := ValidIsEncoded(s);
    }
    forall text | EncodeText(text) == s ensures ValidUtf8(s) {
      EncodedIsValid(text);
    }
  }
}
