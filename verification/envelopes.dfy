/**
 The wire text of a paginated response: one JSON object whose only key is the marker, holding the
 size of the whole response in decimal and one base64 chunk.
 Source: src/eth/rpc/pagination.rs.
 */
module Envelopes {
  import opened Common
  import opened Base64
  import opened JsonText

  const U64_MAX: nat := 0xFFFF_FFFF_FFFF_FFFF

  datatype Envelope = Envelope(total: nat, chunk: seq<Byte>)

  function Ascii(s: string): (t: seq<Byte>)
    ensures |t| == |s|
  {
    seq(|s|, i requires 0 <= i < |s| => s[i] as int % 256)
  }

  const OPEN: Byte := 123   // '{'
  const CLOSE: Byte := 125  // '}'

  /** A quoted name and its colon. */
  function Quoted(name: seq<Byte>): seq<Byte> {
    [QUOTE] + name + [QUOTE] + [COLON]
  }

  function KeyText(name: string): seq<Byte> {
    Quoted(Ascii(name))
  }

  const PREFIX: seq<Byte> := [OPEN] + KeyText("stratus_paginated")
  const TOTAL_KEY: seq<Byte> := [OPEN] + KeyText("total")
  const CHUNK_KEY: seq<Byte> := [COMMA] + KeyText("chunk") + [QUOTE]
  const TAIL: seq<Byte> := [QUOTE, CLOSE, CLOSE]

  /** The text of a null result. */
  const NULL: seq<Byte> := Ascii("null")

  // ----- decimal numbers -----

  predicate IsDigit(b: Byte) {
    48 <= b <= 57
  }

  function Decimal(n: nat): (t: seq<Byte>)
    ensures |t| > 0 && forall i | 0 <= i < |t| :: IsDigit(t[i])
    ensures n > 0 ==> t[0] != 48
  {
    if n < 10 then [48 + n] else Decimal(n / 10) + [48 + n % 10]
  }

  function Number(t: seq<Byte>): (n: nat)
    requires forall i | 0 <= i < |t| :: IsDigit(t[i])
  {
    if t == [] then 0 else assert IsDigit(t[|t| - 1]); Number(t[..|t| - 1]) * 10 + (t[|t| - 1] - 48)
  }

  lemma {:induction false} NumberOfDecimal(n: nat)
    ensures Number(Decimal(n)) == n
  {
    var t := Decimal(n);
    if n < 10 {
      assert t[..0] == [];
    } else {
      NumberOfDecimal(n / 10);
      assert t[..|t| - 1] == Decimal(n / 10);
    }
  }

  function Power10(k: nat): nat {
    if k == 0 then 1 else 10 * Power10(k - 1)
  }

  lemma {:induction false} DecimalLength(n: nat, k: nat)
    requires n < Power10(k) && k > 0
    ensures |Decimal(n)| <= k
  {
    if n < 10 {
    } else {
      assert Power10(1) == 10;
      DecimalLength(n / 10, k - 1);
    }
  }

  /** The 64-bit numbers have at most 20 digits. */
  lemma U64Length(n: nat)
    requires n <= U64_MAX
    ensures |Decimal(n)| <= 20
  {
    assert Power10(20) == 100_000_000_000_000_000_000 by {
      assert Power10(4) == 10_000;
      assert Power10(8) == 100_000_000;
      assert Power10(12) == 1_000_000_000_000;
      assert Power10(16) == 10_000_000_000_000_000;
    }
    DecimalLength(n, 20);
  }

  // ----- text of an envelope -----

  const HEAD: seq<Byte> := PREFIX + TOTAL_KEY

  function Body(e: Envelope): seq<Byte> {
    Decimal(e.total) + (CHUNK_KEY + (e.chunk + TAIL))
  }

  function Serialize(e: Envelope): seq<Byte> {
    HEAD + Body(e)
  }

  /** The quotes, colons and brackets between names and values. */
  lemma Punctuation()
    ensures Ascii("{\"") == [OPEN, QUOTE] && Ascii("\":{\"") == [QUOTE, COLON, OPEN, QUOTE]
    ensures Ascii("\":") == [QUOTE, COLON] && Ascii(",\"") == [COMMA, QUOTE]
    ensures Ascii("\":\"") == [QUOTE, COLON, QUOTE] && Ascii("\"}}") == TAIL
  {
  }

  lemma Flat(name: seq<Byte>, total: seq<Byte>, number: seq<Byte>, chunk: seq<Byte>, data: seq<Byte>, tail: seq<Byte>)
    ensures [OPEN] + Quoted(name) + ([OPEN] + Quoted(total))
            + (number + ([COMMA] + Quoted(chunk) + [QUOTE] + (data + tail)))
         == [OPEN, QUOTE] + name + [QUOTE, COLON, OPEN, QUOTE] + total + [QUOTE, COLON] + number
            + [COMMA, QUOTE] + chunk + [QUOTE, COLON, QUOTE] + data + tail
  {
  }

  /** The text on the wire, from its first byte to its last. */
  lemma WireText(e: Envelope)
    ensures Serialize(e) ==
      Ascii("{\"") + Ascii("stratus_paginated") + Ascii("\":{\"") + Ascii("total") + Ascii("\":") + Decimal(e.total)
      + Ascii(",\"") + Ascii("chunk") + Ascii("\":\"") + e.chunk + Ascii("\"}}")
  {
    Punctuation();
    Flat(Ascii("stratus_paginated"), Ascii("total"), Decimal(e.total), Ascii("chunk"), e.chunk, TAIL);
  }

  predicate IsEnvelope(raw: seq<Byte>) {
    PREFIX <= raw
  }

  /** Length of the longest prefix whose bytes satisfy `p`. */
  function Span(p: Byte -> bool, s: seq<Byte>): (n: nat)
    ensures n <= |s|
    ensures forall i | 0 <= i < n :: p(s[i])
    ensures n < |s| ==> !p(s[n])
  {
    if s == [] || !p(s[0]) then 0 else 1 + Span(p, s[1..])
  }

  lemma SpanStopsAt(p: Byte -> bool, a: seq<Byte>, b: seq<Byte>)
    requires forall i | 0 <= i < |a| :: p(a[i])
    requires b != [] && !p(b[0])
    ensures Span(p, a + b) == |a|
  {
    var s := a + b;
    assert s[|a|] == b[0];
    assert forall i | 0 <= i < |a| :: s[i] == a[i];
  }

  predicate IsNumber(t: seq<Byte>) {
    && t != []
    && (forall i | 0 <= i < |t| :: IsDigit(t[i]))
    && (|t| == 1 || t[0] != 48)
    && Number(t) <= U64_MAX
  }

  /** The part after the key of the total: a number, the chunk, and nothing more. */
  function ParseBody(body: seq<Byte>): Option<Envelope> {
    var n := Span(IsDigit, body);
    var number, rest := body[..n], body[n..];
    if !IsNumber(number) || !(CHUNK_KEY <= rest) then None
    else
      var text := rest[|CHUNK_KEY|..];
      var m := Span(IsSymbol, text);
      if text[m..] == TAIL then Some(Envelope(Number(number), text[..m])) else None
  }

  function ParseEnvelope(raw: seq<Byte>): Option<Envelope> {
    if HEAD <= raw then ParseBody(raw[|HEAD|..]) else None
  }

  lemma ParseBodyOf(e: Envelope)
    requires e.total <= U64_MAX && AllSymbols(e.chunk)
    ensures ParseBody(Body(e)) == Some(e)
  {
    var number, text := Decimal(e.total), e.chunk + TAIL;
    SpanStopsAt(IsDigit, number, CHUNK_KEY + text);
    NumberOfDecimal(e.total);
    assert Body(e)[..|number|] == number && Body(e)[|number|..] == CHUNK_KEY + text;
    assert IsNumber(number);
    assert (CHUNK_KEY + text)[|CHUNK_KEY|..] == text;
    SpanStopsAt(IsSymbol, e.chunk, TAIL);
    assert text[..|e.chunk|] == e.chunk && text[|e.chunk|..] == TAIL;
  }

  lemma SplitHead(a: seq<Byte>, b: seq<Byte>)
    ensures a <= a + b && (a + b)[|a|..] == b
  {
  }

  /** What the leader writes is recognised by its prefix and read back unchanged. */
  lemma EnvelopeRoundTrip(e: Envelope)
    requires e.total <= U64_MAX && AllSymbols(e.chunk)
    ensures IsEnvelope(Serialize(e)) && Serialize(e) != NULL
    ensures ParseEnvelope(Serialize(e)) == Some(e)
  {
    assert Serialize(e)[0] == HEAD[0] == PREFIX[0] == OPEN && NULL[0] != OPEN;
    SplitHead(PREFIX, TOTAL_KEY);
    SplitHead(HEAD, Body(e));
    ParseBodyOf(e);
  }

  /** Around its chunk an envelope adds at most 63 bytes. */
  lemma EnvelopeOverhead(e: Envelope)
    requires e.total <= U64_MAX
    ensures |Serialize(e)| <= |e.chunk| + 63
  {
    U64Length(e.total);
    assert |PREFIX| == 21 && |TOTAL_KEY| == 9 && |CHUNK_KEY| == 10 && |TAIL| == 3;
  }

  // ----- any JSON reader -----

  /** A JSON library: the raw value in a text, if it is one, and how a text is read as an envelope. */
  datatype Json = Json(value: seq<Byte> -> Option<seq<Byte>>, envelope: seq<Byte> -> Option<Envelope>)

  /** It reads what the leader writes; it may accept other layouts, white space and escapes as well. */
  ghost predicate ReadsLeader(json: Json) {
    forall e: Envelope | e.total <= U64_MAX && AllSymbols(e.chunk) :: json.envelope(Serialize(e)) == Some(e)
  }

  /**
   Of the texts that start with the marker, it reads only objects, and a string is shorter than the
   text it stands in.
   */
  ghost predicate ReadsObjects(json: Json) {
    forall raw | IsEnvelope(raw) && json.envelope(raw).Some? ::
      IsObject(raw) && |json.envelope(raw).value.chunk| < |raw|
  }

  /** A raw value is its text without the space around it. */
  ghost predicate ReadsValues(json: Json) {
    forall text | json.value(text).Some? :: exists before: nat :: SurroundedBy(text, json.value(text).value, before)
  }

  /** The names of the keys need no escapes. */
  lemma NamesArePlain(name: string)
    requires name == "stratus_paginated" || name == "total" || name == "chunk"
    ensures forall i | 0 <= i < |Ascii(name)| :: IsPlain(Ascii(name)[i])
  {
  }

  lemma ScanObjectKey(d: nat, name: string)
    requires name == "stratus_paginated" || name == "total"
    ensures ScanFrom(Inside(d, Out), [OPEN] + KeyText(name)) == Inside(d + 1, Out)
  {
    ScanConcat(Inside(d, Out), [OPEN], KeyText(name));
    ScanOne(Inside(d, Out), OPEN);
    NamesArePlain(name);
    ScanKey(d + 1, Ascii(name));
  }

  lemma ScanChunkKey()
    ensures ScanFrom(Inside(2, Out), CHUNK_KEY) == Inside(2, InString)
  {
    ScanConcat(Inside(2, Out), [COMMA] + KeyText("chunk"), [QUOTE]);
    ScanConcat(Inside(2, Out), [COMMA], KeyText("chunk"));
    ScanOne(Inside(2, Out), COMMA);
    NamesArePlain("chunk");
    ScanKey(2, Ascii("chunk"));
    ScanOne(Inside(2, Out), QUOTE);
  }

  lemma ScanTail()
    ensures ScanFrom(Inside(2, InString), TAIL) == Closed
  {
    assert TAIL == [QUOTE] + [CLOSE] + [CLOSE];
    ScanConcat(Inside(2, InString), [QUOTE] + [CLOSE], [CLOSE]);
    ScanConcat(Inside(2, InString), [QUOTE], [CLOSE]);
    ScanOne(Inside(2, InString), QUOTE);
    ScanOne(Inside(2, AfterString), CLOSE);
    ScanOne(Inside(1, Out), CLOSE);
  }

  lemma ScanTwo(a: seq<Byte>, b: seq<Byte>)
    requires ScanFrom(START, a) == Inside(1, Out) && ScanFrom(Inside(1, Out), b) == Inside(2, Out)
    ensures ScanFrom(START, a + b) == Inside(2, Out)
  {
    ScanConcat(START, a, b);
  }

  lemma ScanHead()
    ensures ScanFrom(START, HEAD) == Inside(2, Out)
  {
    ScanObjectKey(0, "stratus_paginated");
    ScanObjectKey(1, "total");
    ScanTwo(PREFIX, TOTAL_KEY);
  }

  lemma ScanLayout(number: seq<Byte>, chunk: seq<Byte>)
    requires (forall i | 0 <= i < |number| :: IsDigit(number[i])) && AllSymbols(chunk)
    ensures ScanFrom(START, HEAD + (number + (CHUNK_KEY + (chunk + TAIL)))) == Closed
  {
    ScanHead();
    ScanBare(2, number);
    ScanChunkKey();
    ScanPlain(2, chunk);
    ScanTail();
    ScanParts(HEAD, number, CHUNK_KEY, chunk, TAIL);
  }

  lemma ScanParts(head: seq<Byte>, number: seq<Byte>, key: seq<Byte>, chunk: seq<Byte>, tail: seq<Byte>)
    requires ScanFrom(START, head) == Inside(2, Out) && ScanFrom(Inside(2, Out), number) == Inside(2, Out)
    requires ScanFrom(Inside(2, Out), key) == Inside(2, InString)
    requires ScanFrom(Inside(2, InString), chunk) == Inside(2, InString)
    requires ScanFrom(Inside(2, InString), tail) == Closed
    ensures ScanFrom(START, head + (number + (key + (chunk + tail)))) == Closed
  {
    ScanConcat(START, head, number + (key + (chunk + tail)));
    ScanConcat(Inside(2, Out), number, key + (chunk + tail));
    ScanConcat(Inside(2, Out), key, chunk + tail);
    ScanConcat(Inside(2, InString), chunk, tail);
  }

  /** What is read has the leader's layout. */
  lemma ParsedBody(body: seq<Byte>) returns (number: seq<Byte>, chunk: seq<Byte>)
    requires ParseBody(body).Some?
    ensures body == number + (CHUNK_KEY + (chunk + TAIL))
    ensures IsNumber(number) && AllSymbols(chunk)
    ensures ParseBody(body).value == Envelope(Number(number), chunk)
  {
    var n := Span(IsDigit, body);
    var text := body[n..][|CHUNK_KEY|..];
    var m := Span(IsSymbol, text);
    number, chunk := body[..n], text[..m];
    assert text == chunk + TAIL;
    assert body[n..] == CHUNK_KEY + text;
  }

  lemma {:induction false} DecimalOfNumber(t: seq<Byte>)
    requires t != [] && (forall i | 0 <= i < |t| :: IsDigit(t[i])) && (|t| == 1 || t[0] != 48)
    ensures Decimal(Number(t)) == t
    ensures |t| > 1 ==> Number(t) >= 10
  {
    var before, last := t[..|t| - 1], t[|t| - 1];
    if |t| == 1 {
      assert before == [] && t == [last];
    } else {
      assert before[0] == t[0];
      DecimalOfNumber(before);
      assert t == before + [last];
      assert |before| == 1 ==> Number(before) == before[0] - 48 by { assert before[..0] == []; }
    }
  }

  /** Only what the leader writes is read: no other spelling of the total, no larger one, no other layout. */
  lemma ParsedIsWritten(raw: seq<Byte>)
    requires ParseEnvelope(raw).Some?
    ensures ParseEnvelope(raw).value.total <= U64_MAX && AllSymbols(ParseEnvelope(raw).value.chunk)
    ensures raw == Serialize(ParseEnvelope(raw).value)
  {
    var body := raw[|HEAD|..];
    var number, chunk := ParsedBody(body);
    assert raw == HEAD + body;
    DecimalOfNumber(number);
  }

  /** A text starts with the marker, whatever follows it. */
  lemma IsEnvelopeIff(raw: seq<Byte>)
    ensures IsEnvelope(raw) <==> exists rest :: raw == PREFIX + rest
  {
    if IsEnvelope(raw) { assert raw == PREFIX + raw[|PREFIX|..]; }
  }

  lemma ParsedIsObject(raw: seq<Byte>)
    requires ParseEnvelope(raw).Some?
    ensures IsObject(raw) && |ParseEnvelope(raw).value.chunk| < |raw|
  {
    var number, chunk := ParsedBody(raw[|HEAD|..]);
    assert raw == HEAD + raw[|HEAD|..];
    ScanLayout(number, chunk);
    assert raw[0] == HEAD[0] == PREFIX[0] == OPEN;
  }

  const LAYOUT_READER: Json := Json((text: seq<Byte>) => Some(text), ParseEnvelope)

  /** A reader of exactly the leader's layout is one of them. */
  lemma LayoutReaderIsOne()
    ensures ReadsLeader(LAYOUT_READER) && ReadsObjects(LAYOUT_READER) && ReadsValues(LAYOUT_READER)
  {
    forall e: Envelope | e.total <= U64_MAX && AllSymbols(e.chunk) ensures ParseEnvelope(Serialize(e)) == Some(e) {
      EnvelopeRoundTrip(e);
    }
    forall raw | ParseEnvelope(raw).Some? ensures IsObject(raw) && |ParseEnvelope(raw).value.chunk| < |raw| {
      ParsedIsObject(raw);
    }
    forall text: seq<Byte>
      ensures exists before: nat :: SurroundedBy(text, LAYOUT_READER.value(text).value, before)
    {
      assert text[0..|text|] == text;
      assert SurroundedBy(text, LAYOUT_READER.value(text).value, 0);
    }
  }

  // ----- no envelope is a repetition -----

  lemma PrefixHasOneBrace(j: nat)
    requires 0 < j < |PREFIX|
    ensures PREFIX[j] != PREFIX[0]
  {
  }

  lemma PrefixHasNoSpace(j: nat)
    requires j < |PREFIX|
    ensures !IsSpace(PREFIX[j])
  {
  }

  /** Where the marker follows a piece of text, that piece ends between tokens, or the text is broken. */
  lemma MarkerNeedsOut(s: Scan, rest: seq<Byte>)
    requires PREFIX <= rest && ScanFrom(s, rest) != Broken
    ensures s.Inside? && s.mode == Out
  {
    var first, second, third := PREFIX[0], PREFIX[1], PREFIX[2];
    assert first == OPEN && second == QUOTE && third == 115;
    assert rest == [first] + [second] + [third] + rest[3..];
    ScanConcat(s, [first] + [second] + [third], rest[3..]);
    ScanConcat(s, [first] + [second], [third]);
    ScanConcat(s, [first], [second]);
    ScanOne(s, first);
    ScanOne(Next(s, first), second);
    ScanOne(Next(Next(s, first), second), third);
    BrokenStaysBroken(rest[3..]);
  }
}
