/**
 The outline of JSON texts (RFC 8259): strings with their escapes, what may follow a string, and the
 nesting of objects and arrays. Every object text passes `IsObject`; it is a necessary condition,
 not a parser.
 */
module JsonText {
  import opened Base64

  const QUOTE: Byte := 34
  const BACKSLASH: Byte := 92
  const COMMA: Byte := 44
  const COLON: Byte := 58

  predicate Opens(b: Byte) {
    b == 123 || b == 91  // '{', '['
  }

  predicate Closes(b: Byte) {
    b == 125 || b == 93  // '}', ']'
  }

  predicate IsSpace(b: Byte) {
    b == 32 || b == 9 || b == 10 || b == 13
  }

  /** What a backslash may be followed by. */
  predicate Escapes(b: Byte) {
    || b == QUOTE || b == BACKSLASH || b == 47
    || b == 98 || b == 102 || b == 110 || b == 114 || b == 116 || b == 117
  }

  datatype Mode = Out | InString | InEscape | AfterString

  datatype Scan = Inside(depth: nat, mode: Mode) | Closed | Broken

  function Close(depth: nat): Scan {
    if depth <= 1 then Closed else Inside(depth - 1, Out)
  }

  function Next(s: Scan, b: Byte): Scan {
    match s
    case Broken => Broken
    case Closed => if IsSpace(b) then Closed else Broken
    case Inside(d, Out) =>
      if b == QUOTE then Inside(d, InString)
      else if Opens(b) then Inside(d + 1, Out)
      else if Closes(b) then Close(d)
      else s
    case Inside(d, InString) =>
      if b == QUOTE then Inside(d, AfterString) else if b == BACKSLASH then Inside(d, InEscape) else s
    case Inside(d, InEscape) => if Escapes(b) then Inside(d, InString) else Broken
    case Inside(d, AfterString) =>
      if IsSpace(b) then s
      else if b == COMMA || b == COLON then Inside(d, Out)
      else if Closes(b) then Close(d)
      else Broken
  }

  function ScanFrom(s: Scan, text: seq<Byte>): Scan
    decreases |text|
  {
    if text == [] then s else ScanFrom(Next(s, text[0]), text[1..])
  }

  const START: Scan := Inside(0, Out)

  /** A text that opens an object with its first byte and closes it with nothing but space after. */
  predicate IsObject(text: seq<Byte>) {
    text != [] && Opens(text[0]) && ScanFrom(START, text) == Closed
  }

  lemma {:induction false} ScanConcat(s: Scan, a: seq<Byte>, b: seq<Byte>)
    ensures ScanFrom(s, a + b) == ScanFrom(ScanFrom(s, a), b)
    decreases |a|
  {
    if a == [] {
      assert a + b == b;
    } else {
      assert (a + b)[0] == a[0] && (a + b)[1..] == a[1..] + b;
      ScanConcat(Next(s, a[0]), a[1..], b);
    }
  }

  lemma {:induction false} BrokenStaysBroken(text: seq<Byte>)
    ensures ScanFrom(Broken, text) == Broken
  {
    if text == [] {
    } else {
      BrokenStaysBroken(text[1..]);
    }
  }

  lemma {:induction false} ClosedStaysClosed(text: seq<Byte>)
    ensures !ScanFrom(Closed, text).Inside?
  {
    if text == [] {
    } else if IsSpace(text[0]) {
      ClosedStaysClosed(text[1..]);
    } else {
      BrokenStaysBroken(text[1..]);
    }
  }

  /** A text that stays inside does so at any greater depth, and ends that much deeper. */
  lemma {:induction false} ScanDeeper(s: Scan, text: seq<Byte>, more: nat)
    requires s.Inside? && ScanFrom(s, text).Inside?
    ensures var end := ScanFrom(s, text);
            ScanFrom(Inside(s.depth + more, s.mode), text) == Inside(end.depth + more, end.mode)
    decreases |text|
  {
    if text == [] {
    } else {
      var next := Next(s, text[0]);
      match next
      case Inside(_, _) => ScanDeeper(next, text[1..], more);
      case Closed => ClosedStaysClosed(text[1..]);
      case Broken => BrokenStaysBroken(text[1..]);
    }
  }

  // ----- space around a value -----

  predicate AllSpace(text: seq<Byte>) {
    forall i | 0 <= i < |text| :: IsSpace(text[i])
  }

  /** `text` is `value` with `before` bytes of space before it and nothing but space after it. */
  predicate SurroundedBy(text: seq<Byte>, value: seq<Byte>, before: nat) {
    && before + |value| <= |text|
    && text[before..before + |value|] == value
    && AllSpace(text[..before]) && AllSpace(text[before + |value|..])
  }

  /** Space changes nothing, except that it cannot be escaped. */
  lemma {:induction false} ScanSpace(s: Scan, text: seq<Byte>)
    requires AllSpace(text)
    ensures ScanFrom(s, text) == s || (s.Inside? && s.mode == InEscape && ScanFrom(s, text) == Broken)
    decreases |text|
  {
    if text == [] {
    } else {
      var next := Next(s, text[0]);
      if next == Broken {
        BrokenStaysBroken(text[1..]);
      } else {
        ScanSpace(next, text[1..]);
      }
    }
  }

  lemma ScanSurrounded(text: seq<Byte>, value: seq<Byte>, before: nat)
    requires SurroundedBy(text, value, before) && ScanFrom(START, value) == Closed
    ensures ScanFrom(START, text) == Closed
  {
    var head, tail := text[..before], text[before + |value|..];
    assert text == head + value + tail;
    ScanConcat(START, head + value, tail);
    ScanConcat(START, head, value);
    ScanSpace(START, head);
    ScanSpace(Closed, tail);
  }

  // ----- pieces of a text -----

  predicate IsPlain(b: Byte) {
    b != QUOTE && b != BACKSLASH
  }

  lemma {:induction false} ScanPlain(d: nat, text: seq<Byte>)
    requires forall i | 0 <= i < |text| :: IsPlain(text[i])
    ensures ScanFrom(Inside(d, InString), text) == Inside(d, InString)
  {
    if text == [] {
    } else {
      ScanPlain(d, text[1..]);
    }
  }

  lemma {:induction false} ScanBare(d: nat, text: seq<Byte>)
    requires forall i | 0 <= i < |text| :: text[i] != QUOTE && !Opens(text[i]) && !Closes(text[i])
    ensures ScanFrom(Inside(d, Out), text) == Inside(d, Out)
  {
    if text == [] {
    } else {
      ScanBare(d, text[1..]);
    }
  }

  lemma ScanOne(s: Scan, b: Byte)
    ensures ScanFrom(s, [b]) == Next(s, b)
  {
    assert ScanFrom(Next(s, b), [b][1..]) == Next(s, b);
  }

  /** A key with its colon. */
  lemma ScanKey(d: nat, name: seq<Byte>)
    requires forall i | 0 <= i < |name| :: IsPlain(name[i])
    ensures ScanFrom(Inside(d, Out), [QUOTE] + name + [QUOTE] + [COLON]) == Inside(d, Out)
  {
    ScanConcat(Inside(d, Out), [QUOTE] + name + [QUOTE], [COLON]);
    ScanConcat(Inside(d, Out), [QUOTE] + name, [QUOTE]);
    ScanConcat(Inside(d, Out), [QUOTE], name);
    ScanOne(Inside(d, Out), QUOTE);
    ScanPlain(d, name);
    ScanOne(Inside(d, InString), QUOTE);
    ScanOne(Inside(d, AfterString), COLON);
  }
}
