/**
 The grammar of JSON (RFC 8259) as far as it bears on the outline of a text: strings with their escapes
 (section 7), arrays and objects (sections 4 and 5) with space wherever it may stand (section 2), and
 numbers and names as bare tokens. Every object written by it passes the scan of `JsonText`.
 */
module JsonValues {
  import opened Common
  import opened Base64
  import opened JsonText

  /** A piece of a string: a byte that stands for itself, or a backslash with what follows it. */
  datatype Piece = Plain(b: Byte) | Escape(b: Byte, digits: seq<Byte>)

  datatype Value =
    | Text(pieces: seq<Piece>)
    | Bare(token: seq<Byte>)
    | Braces(isObject: bool, inner: Inner)

  datatype Inner = Blank(space: seq<Byte>) | Filled(first: Item, rest: More)

  datatype More = End | Then(item: Item, rest: More)

  /** An element of an array, or, with its name, a member of an object. */
  datatype Item = Item(name: Option<Name>, before: seq<Byte>, value: Value, after: seq<Byte>)

  datatype Name = Name(before: seq<Byte>, pieces: seq<Piece>, after: seq<Byte>)

  // ----- well formed -----

  /** Space, tab, line feed and carriage return. */
  const BLANKS: set<Byte> := {32, 9, 10, 13}

  /** `"`, `\`, `/`, `b`, `f`, `n`, `r`, `t` and `u`. */
  const ESCAPED: set<Byte> := {34, 92, 47, 98, 102, 110, 114, 116, 117}

  predicate IsBlank(text: seq<Byte>) {
    forall i | 0 <= i < |text| :: text[i] in BLANKS
  }

  lemma BlankIsSpace(text: seq<Byte>)
    requires IsBlank(text)
    ensures AllSpace(text)
  {
  }

  predicate IsHex(b: Byte) {
    48 <= b <= 57 || 65 <= b <= 70 || 97 <= b <= 102
  }

  /** Only the escape with a `u` has digits, and it has four. */
  predicate PieceOk(p: Piece) {
    match p
    case Plain(b) => IsPlain(b) && b >= 32
    case Escape(b, digits) =>
      && b in ESCAPED
      && |digits| == (if b == 117 then 4 else 0)
      && forall i | 0 <= i < |digits| :: IsHex(digits[i])
  }

  predicate PiecesOk(pieces: seq<Piece>) {
    forall i | 0 <= i < |pieces| :: PieceOk(pieces[i])
  }

  predicate TokenOk(token: seq<Byte>) {
    forall i | 0 <= i < |token| ::
      && token[i] != QUOTE && !Opens(token[i]) && !Closes(token[i])
      && token[i] != COMMA && token[i] != COLON && !IsSpace(token[i])
  }

  predicate ValueOk(v: Value)
    decreases v
  {
    match v
    case Text(pieces) => PiecesOk(pieces)
    case Bare(token) => token != [] && TokenOk(token)
    case Braces(isObject, Blank(space)) => IsBlank(space)
    case Braces(isObject, Filled(first, rest)) => ItemOk(isObject, first) && MoreOk(isObject, rest)
  }

  predicate ItemOk(isObject: bool, item: Item)
    decreases item
  {
    && item.name.Some? == isObject
    && (item.name.Some? ==> NameOk(item.name.value))
    && IsBlank(item.before) && ValueOk(item.value) && IsBlank(item.after)
  }

  predicate MoreOk(isObject: bool, more: More)
    decreases more
  {
    more.Then? ==> ItemOk(isObject, more.item) && MoreOk(isObject, more.rest)
  }

  predicate NameOk(name: Name) {
    IsBlank(name.before) && PiecesOk(name.pieces) && IsBlank(name.after)
  }

  // ----- written -----

  function WritePiece(p: Piece): seq<Byte> {
    match p
    case Plain(b) => [b]
    case Escape(b, digits) => [BACKSLASH, b] + digits
  }

  function WritePieces(pieces: seq<Piece>): seq<Byte> {
    if pieces == [] then [] else WritePiece(pieces[0]) + WritePieces(pieces[1..])
  }

  function WriteString(pieces: seq<Piece>): seq<Byte> {
    [QUOTE] + WritePieces(pieces) + [QUOTE]
  }

  function Write(v: Value): seq<Byte> {
    match v
    case Text(pieces) => WriteString(pieces)
    case Bare(token) => token
    case Braces(isObject, inner) => [if isObject then 123 else 91] + WriteInner(inner) + [if isObject then 125 else 93]
  }

  function WriteInner(inner: Inner): seq<Byte> {
    match inner
    case Blank(space) => space
    case Filled(first, rest) => WriteItem(first) + WriteMore(rest)
  }

  function WriteMore(more: More): seq<Byte> {
    match more
    case End => []
    case Then(item, rest) => [COMMA] + WriteItem(item) + WriteMore(rest)
  }

  function WriteName(name: Name): seq<Byte> {
    name.before + WriteString(name.pieces) + name.after + [COLON]
  }

  function WriteItem(item: Item): seq<Byte> {
    (if item.name.Some? then WriteName(item.name.value) else []) + item.before + Write(item.value) + item.after
  }

  // ----- scanned -----

  lemma ScanBlank(s: Scan, text: seq<Byte>)
    requires IsBlank(text) && (s.Inside? ==> s.mode != InEscape)
    ensures ScanFrom(s, text) == s
  {
    BlankIsSpace(text);
    ScanSpace(s, text);
  }

  lemma ScanPiece(d: nat, p: Piece)
    requires PieceOk(p)
    ensures ScanFrom(Inside(d, InString), WritePiece(p)) == Inside(d, InString)
  {
    match p
    case Plain(b) => ScanOne(Inside(d, InString), b);
    case Escape(b, digits) =>
      ScanConcat(Inside(d, InString), [BACKSLASH, b], digits);
      assert [BACKSLASH, b] == [BACKSLASH] + [b];
      ScanConcat(Inside(d, InString), [BACKSLASH], [b]);
      ScanOne(Inside(d, InString), BACKSLASH);
      ScanOne(Inside(d, InEscape), b);
      ScanPlain(d, digits);
  }

  lemma {:induction false} ScanPieces(d: nat, pieces: seq<Piece>)
    requires PiecesOk(pieces)
    ensures ScanFrom(Inside(d, InString), WritePieces(pieces)) == Inside(d, InString)
  {
    if pieces == [] {
    } else {
      ScanPiece(d, pieces[0]);
      ScanPieces(d, pieces[1..]);
      ScanConcat(Inside(d, InString), WritePiece(pieces[0]), WritePieces(pieces[1..]));
    }
  }

  lemma ScanString(d: nat, pieces: seq<Piece>)
    requires PiecesOk(pieces)
    ensures ScanFrom(Inside(d, Out), WriteString(pieces)) == Inside(d, AfterString)
  {
    ScanConcat(Inside(d, Out), [QUOTE] + WritePieces(pieces), [QUOTE]);
    ScanConcat(Inside(d, Out), [QUOTE], WritePieces(pieces));
    ScanOne(Inside(d, Out), QUOTE);
    ScanPieces(d, pieces);
    ScanOne(Inside(d, InString), QUOTE);
  }

  /** Between tokens: where a value may begin, or where one has ended. */
  predicate Between(s: Scan, d: nat) {
    s == Inside(d, Out) || s == Inside(d, AfterString)
  }

  lemma ScanName(d: nat, name: Name)
    requires NameOk(name)
    ensures ScanFrom(Inside(d, Out), WriteName(name)) == Inside(d, Out)
  {
    var text := WriteString(name.pieces);
    ScanConcat(Inside(d, Out), name.before + text + name.after, [COLON]);
    ScanConcat(Inside(d, Out), name.before + text, name.after);
    ScanConcat(Inside(d, Out), name.before, text);
    ScanBlank(Inside(d, Out), name.before);
    ScanString(d, name.pieces);
    ScanBlank(Inside(d, AfterString), name.after);
    ScanOne(Inside(d, AfterString), COLON);
  }

  lemma {:induction false} ScanValue(d: nat, v: Value)
    requires ValueOk(v) && d > 0
    ensures Between(ScanFrom(Inside(d, Out), Write(v)), d)
    decreases v
  {
    match v
    case Text(pieces) => ScanString(d, pieces);
    case Bare(token) => ScanBare(d, token);
    case Braces(isObject, inner) => ScanBraces(d, isObject, inner);
  }

  /** The text between the brackets stays between tokens, one level deeper. */
  lemma {:induction false} ScanInner(d: nat, isObject: bool, inner: Inner)
    requires d > 0 && ValueOk(Braces(isObject, inner))
    ensures Between(ScanFrom(Inside(d, Out), WriteInner(inner)), d)
    decreases inner, 0
  {
    match inner
    case Blank(space) => ScanBlank(Inside(d, Out), space);
    case Filled(first, rest) =>
      ScanItem(d, isObject, first);
      ScanConcat(Inside(d, Out), WriteItem(first), WriteMore(rest));
      ScanMore(d, isObject, rest, ScanFrom(Inside(d, Out), WriteItem(first)));
  }

  lemma {:induction false} ScanItem(d: nat, isObject: bool, item: Item)
    requires d > 0 && ItemOk(isObject, item)
    ensures Between(ScanFrom(Inside(d, Out), WriteItem(item)), d)
    decreases item
  {
    var name := if item.name.Some? then WriteName(item.name.value) else [];
    if item.name.Some? { ScanName(d, item.name.value); }
    var at := Inside(d, Out);
    ScanConcat(at, name + item.before + Write(item.value), item.after);
    ScanConcat(at, name + item.before, Write(item.value));
    ScanConcat(at, name, item.before);
    ScanBlank(at, item.before);
    ScanValue(d, item.value);
    ScanBlank(ScanFrom(at, Write(item.value)), item.after);
  }

  lemma {:induction false} ScanMore(d: nat, isObject: bool, more: More, s: Scan)
    requires d > 0 && MoreOk(isObject, more) && Between(s, d)
    ensures Between(ScanFrom(s, WriteMore(more)), d)
    decreases more
  {
    match more
    case End =>
    case Then(item, rest) =>
      ScanConcat(s, [COMMA] + WriteItem(item), WriteMore(rest));
      ScanConcat(s, [COMMA], WriteItem(item));
      ScanOne(s, COMMA);
      ScanItem(d, isObject, item);
      ScanMore(d, isObject, rest, ScanFrom(Inside(d, Out), WriteItem(item)));
  }

  lemma {:induction false} ScanBraces(d: nat, isObject: bool, inner: Inner)
    requires ValueOk(Braces(isObject, inner))
    ensures ScanFrom(Inside(d, Out), Write(Braces(isObject, inner))) == if d == 0 then Closed else Inside(d, Out)
    decreases inner, 1
  {
    var open: Byte, close: Byte := if isObject then 123 else 91, if isObject then 125 else 93;
    ScanConcat(Inside(d, Out), [open] + WriteInner(inner), [close]);
    ScanConcat(Inside(d, Out), [open], WriteInner(inner));
    ScanOne(Inside(d, Out), open);
    ScanInner(d + 1, isObject, inner);
    ScanOne(ScanFrom(Inside(d + 1, Out), WriteInner(inner)), close);
  }

  /** Every object, with any space in it, is closed by its last bracket and not before. */
  lemma ObjectsPass(v: Value)
    requires ValueOk(v) && v.Braces? && v.isObject
    ensures IsObject(Write(v))
  {
    ScanBraces(0, true, v.inner);
  }
}
