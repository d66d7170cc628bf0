/**
 The standard base64 encoding of section 4 of RFC 4648, over bytes: padding is required, must be
 canonical, and unused trailing bits must be zero, as the decoder of the follower demands.
 A text is a sequence of digits below 64, or the padding digit 64, each written as one ASCII byte.
 */
module Base64 {
  import opened Common

  type Byte = b: int | 0 <= b < 256
  type Digit = v: int | 0 <= v <= 64

  const PAD: Digit := 64

  // ----- digits to ASCII -----

  function Range(first: char, n: nat): seq<Byte>
    requires first as int + n <= 256
  {
    seq(n, i requires 0 <= i < n => first as int + i)
  }

  /** The alphabet of table 1 of RFC 4648, and the padding. */
  const ALPHABET: seq<Byte> :=
    Range('A', 26) + Range('a', 26) + Range('0', 10) + ['+' as int, '/' as int, '=' as int]

  function Symbol(v: Digit): (b: Byte)
    ensures IsSymbol(b)
  {
    ALPHABET[v]
  }

  predicate IsSymbol(b: Byte) {
    65 <= b <= 90 || 97 <= b <= 122 || 48 <= b <= 57 || b == 43 || b == 47 || b == 61
  }

  function Value(b: Byte): (v: Digit)
    requires IsSymbol(b)
    ensures Symbol(v) == b
  {
    if 65 <= b <= 90 then b - 65
    else if 97 <= b <= 122 then b - 97 + 26
    else if 48 <= b <= 57 then b - 48 + 52
    else if b == 43 then 62
    else if b == 47 then 63
    else 64
  }

  function Written(ds: seq<Digit>): (t: seq<Byte>)
    ensures |t| == |ds| && AllSymbols(t)
  {
    seq(|ds|, i requires 0 <= i < |ds| => Symbol(ds[i]))
  }

  predicate AllSymbols(t: seq<Byte>) {
    forall i | 0 <= i < |t| :: IsSymbol(t[i])
  }

  function Values(t: seq<Byte>): (ds: seq<Digit>)
    requires AllSymbols(t)
    ensures Written(ds) == t
  {
    seq(|t|, i requires 0 <= i < |t| => Value(t[i]))
  }

  lemma ValuesOfWritten(ds: seq<Digit>)
    ensures Values(Written(ds)) == ds
  {
    forall i | 0 <= i < |ds| ensures Value(Symbol(ds[i])) == ds[i] {}
  }

  // ----- bytes to digits -----

  function Digits(s: seq<Byte>): seq<Digit> {
    if |s| == 0 then []
    else if |s| == 1 then [s[0] / 4, s[0] % 4 * 16, PAD, PAD]
    else if |s| == 2 then [s[0] / 4, s[0] % 4 * 16 + s[1] / 16, s[1] % 16 * 4, PAD]
    else
      [s[0] / 4, s[0] % 4 * 16 + s[1] / 16, s[1] % 16 * 4 + s[2] / 64, s[2] % 64] + Digits(s[3..])
  }

  function OfBytes(a: int, b: int, c: int): int {
    (a * 256 + b) * 256 + c
  }

  function OfDigits(a: int, b: int, c: int, d: int): int {
    ((a * 64 + b) * 64 + c) * 64 + d
  }

  /** Section 4: 24 bits are four digits of six; fewer are filled up with zero bits, and padded. */
  lemma DigitsAreSixBits(s: seq<Byte>)
    ensures |s| == 0 ==> Digits(s) == []
    ensures |s| == 1 ==>
      var d := Digits(s); |d| == 4 && d[2] == d[3] == PAD && OfDigits(d[0], d[1], 0, 0) == OfBytes(s[0], 0, 0)
    ensures |s| == 2 ==>
      var d := Digits(s); |d| == 4 && d[3] == PAD && OfDigits(d[0], d[1], d[2], 0) == OfBytes(s[0], s[1], 0)
    ensures |s| >= 3 ==>
      var d := Digits(s);
      |d| >= 4 && d[4..] == Digits(s[3..]) && OfDigits(d[0], d[1], d[2], d[3]) == OfBytes(s[0], s[1], s[2])
    ensures forall i | 0 <= i < |Digits(s)| && i < 4 :: Digits(s)[i] == PAD ==> i > |s|
  {
  }

  function First(v0: Digit, v1: Digit): Byte
    requires v0 != PAD && v1 != PAD
  {
    v0 * 4 + v1 / 16
  }

  function Second(v1: Digit, v2: Digit): Byte
    requires v1 != PAD && v2 != PAD
  {
    v1 % 16 * 16 + v2 / 4
  }

  function Third(v2: Digit, v3: Digit): Byte
    requires v2 != PAD && v3 != PAD
  {
    v2 % 4 * 64 + v3
  }

  /** The bytes of one group of four digits; only the last group may be padded. */
  function Group(ds: seq<Digit>, last: bool): Option<seq<Byte>>
    requires |ds| == 4
  {
    if ds[0] == PAD || ds[1] == PAD then None
    else if ds[2] != PAD && ds[3] != PAD then
      Some([First(ds[0], ds[1]), Second(ds[1], ds[2]), Third(ds[2], ds[3])])
    else if !last then None
    else if ds[2] != PAD && ds[2] % 4 == 0 then Some([First(ds[0], ds[1]), Second(ds[1], ds[2])])
    else if ds[2] == PAD && ds[3] == PAD && ds[1] % 16 == 0 then Some([First(ds[0], ds[1])])
    else None
  }

  function Bytes(ds: seq<Digit>): Option<seq<Byte>> {
    if |ds| == 0 then Some([])
    else if |ds| < 4 then None
    else
      match (Group(ds[..4], |ds| == 4), Bytes(ds[4..]))
      case (Some(first), Some(rest)) => Some(first + rest)
      case _ => None
  }

  lemma {:induction false} DigitsLength(s: seq<Byte>)
    ensures |Digits(s)| == (|s| + 2) / 3 * 4
  {
    if |s| <= 2 {
    } else {
      DigitsLength(s[3..]);
    }
  }

  /** Splitting three bytes over four digits and joining them gives the same bytes. */
  lemma Rejoin(a: Byte, b: Byte, c: Byte) returns (v0: Digit, v1: Digit, v2: Digit, v3: Digit)
    ensures v0 == a / 4 && v1 == a % 4 * 16 + b / 16 && v2 == b % 16 * 4 + c / 64 && v3 == c % 64
    ensures v0 != PAD && v1 != PAD && v2 != PAD && v3 != PAD
    ensures First(v0, v1) == a && Second(v1, v2) == b && Third(v2, v3) == c
  {
    v0, v1, v2, v3 := a / 4, a % 4 * 16 + b / 16, b % 16 * 4 + c / 64, c % 64;
  }

  lemma RejoinTwo(a: Byte, b: Byte) returns (v0: Digit, v1: Digit, v2: Digit)
    ensures v0 == a / 4 && v1 == a % 4 * 16 + b / 16 && v2 == b % 16 * 4 && v2 % 4 == 0
    ensures v0 != PAD && v1 != PAD && v2 != PAD && First(v0, v1) == a && Second(v1, v2) == b
  {
    v0, v1, v2 := a / 4, a % 4 * 16 + b / 16, b % 16 * 4;
  }

  lemma RejoinOne(a: Byte) returns (v0: Digit, v1: Digit)
    ensures v0 == a / 4 && v1 == a % 4 * 16 && v1 % 16 == 0
    ensures v0 != PAD && v1 != PAD && First(v0, v1) == a
  {
    v0, v1 := a / 4, a % 4 * 16;
  }

  lemma GroupOfThree(s: seq<Byte>, last: bool)
    requires |s| == 3
    ensures |Digits(s)| == 4 && Group(Digits(s), last) == Some(s)
  {
    var v0, v1, v2, v3 := Rejoin(s[0], s[1], s[2]);
    assert Digits(s) == [v0, v1, v2, v3] by { assert Digits(s[3..]) == []; }
    assert Group([v0, v1, v2, v3], last).value == [s[0], s[1], s[2]] == s;
  }

  lemma GroupOfTwo(s: seq<Byte>)
    requires |s| == 2
    ensures |Digits(s)| == 4 && Group(Digits(s), true) == Some(s)
  {
    var v0, v1, v2 := RejoinTwo(s[0], s[1]);
    assert Digits(s) == [v0, v1, v2, PAD];
    assert Group([v0, v1, v2, PAD], true).value == [s[0], s[1]] == s;
  }

  lemma GroupOfOne(s: seq<Byte>)
    requires |s| == 1
    ensures |Digits(s)| == 4 && Group(Digits(s), true) == Some(s)
  {
    var v0, v1 := RejoinOne(s[0]);
    assert Digits(s) == [v0, v1, PAD, PAD];
    assert Group([v0, v1, PAD, PAD], true).value == [s[0]] == s;
  }

  lemma {:induction false} BytesOfDigits(s: seq<Byte>)
    ensures Bytes(Digits(s)) == Some(s)
  {
    if s == [] {
    } else if |s| <= 2 {
      if |s| == 1 { GroupOfOne(s); } else { GroupOfTwo(s); }
      assert Digits(s)[..4] == Digits(s) && Digits(s)[4..] == [] && s + [] == s;
    } else {
      GroupOfThree(s[..3], |s| == 3);
      DigitsLength(s[3..]);
      BytesOfDigits(s[3..]);
      assert Digits(s[..3][3..]) == [];
      assert Digits(s)[..4] == Digits(s[..3]) && Digits(s)[4..] == Digits(s[3..]);
      assert s == s[..3] + s[3..];
    }
  }

  /** Splitting four digits over three bytes and regrouping them gives the same digits. */
  lemma Regroup(v0: Digit, v1: Digit, v2: Digit, v3: Digit)
    requires v0 < 64 && v1 < 64 && v2 < 64 && v3 < 64
    ensures (v0 * 4 + v1 / 16) / 4 == v0
    ensures (v0 * 4 + v1 / 16) % 4 * 16 + (v1 % 16 * 16 + v2 / 4) / 16 == v1
    ensures (v1 % 16 * 16 + v2 / 4) % 16 * 4 + (v2 % 4 * 64 + v3) / 64 == v2
    ensures (v2 % 4 * 64 + v3) % 64 == v3
  {
  }

  /** A group is the one its bytes are encoded to. */
  lemma DigitsOfGroup(ds: seq<Digit>, last: bool)
    requires |ds| == 4 && Group(ds, last).Some?
    ensures Digits(Group(ds, last).value) == ds
  {
    var s := Group(ds, last).value;
    if ds[2] != PAD && ds[3] != PAD {
      Regroup(ds[0], ds[1], ds[2], ds[3]);
      assert Digits(s[3..]) == [];
    } else if ds[2] != PAD {
      Regroup(ds[0], ds[1], ds[2], 0);
    } else {
      Regroup(ds[0], ds[1], 0, 0);
    }
  }

  lemma DigitsOfThree(a: seq<Byte>, b: seq<Byte>)
    requires |a| == 3
    ensures Digits(a + b) == Digits(a) + Digits(b)
  {
    assert (a + b)[3..] == b && a[3..] == [];
  }

  lemma {:induction false} DigitsOfBytes(ds: seq<Digit>)
    requires Bytes(ds).Some?
    ensures Digits(Bytes(ds).value) == ds
  {
    if ds == [] {
    } else {
      var first, rest := Group(ds[..4], |ds| == 4).value, Bytes(ds[4..]).value;
      DigitsOfGroup(ds[..4], |ds| == 4);
      assert ds == ds[..4] + ds[4..];
      if |ds| == 4 {
        assert first + rest == first;
      } else {
        DigitsOfBytes(ds[4..]);
        DigitsOfThree(first, rest);
      }
    }
  }

  // ----- the encoding -----

  function Encode(s: seq<Byte>): seq<Byte> {
    Written(Digits(s))
  }

  function Decode(t: seq<Byte>): Option<seq<Byte>> {
    if AllSymbols(t) then Bytes(Values(t)) else None
  }

  lemma EncodedLength(s: seq<Byte>)
    ensures |Encode(s)| == (|s| + 2) / 3 * 4
  {
    DigitsLength(s);
  }

  /** Every byte string is decoded to itself. */
  lemma DecodeEncode(s: seq<Byte>)
    ensures Decode(Encode(s)) == Some(s)
  {
    ValuesOfWritten(Digits(s));
    BytesOfDigits(s);
  }

  /** Nothing else is accepted: a text that decodes is the encoding of what it decodes to. */
  lemma DecodeIsCanonical(t: seq<Byte>)
    requires Decode(t).Some?
    ensures Encode(Decode(t).value) == t
  {
    DigitsOfBytes(Values(t));
  }
}
