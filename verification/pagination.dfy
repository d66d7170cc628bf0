/**
 Pagination of importer responses that are larger than one message: how the leader cuts the
 serialized response, and how the follower asks for the pieces and puts them together.
 Source: src/eth/rpc/pagination.rs and
 src/eth/follower/importer/importers/blockchain_client.rs.
 */
module Pagination {
  import opened Common
  import opened Base64
  import opened Envelopes
  import opened JsonText
  import opened Utf8

  const MARGIN: nat := 512
  const MIN_CHUNK_BUDGET: nat := 64
  const MIN_RESPONSE_SIZE_BYTES: nat := MARGIN + MIN_CHUNK_BUDGET + 128
  const MAX_REASSEMBLY_TOTAL: nat := 512 * 1024 * 1024

  // ----- leader -----

  datatype RpcError = ParameterInvalid

  function Budget(limit: nat): nat {
    if limit < MARGIN then 0 else limit - MARGIN
  }

  /** Raw bytes of a chunk: base64 writes three of them as four. */
  function RawBudget(limit: nat): nat {
    Budget(limit) / 4 * 3
  }

  function ChunkEnd(full: seq<Byte>, offset: nat, limit: nat): (end: nat)
    requires offset <= |full|
    ensures offset <= end <= |full|
  {
    if offset + RawBudget(limit) < |full| then offset + RawBudget(limit) else |full|
  }

  function ChunkAt(full: seq<Byte>, offset: nat, limit: nat): Envelope
    requires offset <= |full|
  {
    Envelope(|full|, Encode(full[offset..ChunkEnd(full, offset, limit)]))
  }

  function Respond(full: seq<Byte>, offset: Option<nat>, limit: nat): Result<seq<Byte>, RpcError> {
    if offset.None? || |full| <= Budget(limit) then Ok(full)
    else if offset.value > |full| then Err(ParameterInvalid)
    else Ok(Serialize(ChunkAt(full, offset.value, limit)))
  }

  /** A client that does not paginate gets the whole response, whatever its size. */
  lemma PlainClientGetsAll(full: seq<Byte>, limit: nat)
    ensures Respond(full, None, limit) == Ok(full)
  {
  }

  predicate PartAt(text: seq<Byte>, offset: nat, part: seq<Byte>) {
    offset + |part| <= |text| && text[offset..offset + |part|] == part
  }

  /** As much of the text at `offset` as three quarters of the budget hold, or the rest. */
  predicate IsChunk(full: seq<Byte>, offset: nat, limit: nat, bytes: seq<Byte>) {
    && PartAt(full, offset, bytes)
    && |bytes| <= RawBudget(limit)
    && (|bytes| < RawBudget(limit) ==> offset + |bytes| == |full|)
  }

  /**
   A client that does gets an error exactly for an offset beyond a response that is too large, a response
   that is not too large as it is, and otherwise its size and, in base64, the chunk at the offset.
   */
  lemma PaginatingClientGets(full: seq<Byte>, offset: nat, limit: nat) returns (bytes: seq<Byte>)
    ensures Respond(full, Some(offset), limit).Err? <==> Budget(limit) < |full| < offset
    ensures |full| <= Budget(limit) ==> Respond(full, Some(offset), limit) == Ok(full)
    ensures Budget(limit) < |full| && offset <= |full| ==>
      && IsChunk(full, offset, limit, bytes)
      && Respond(full, Some(offset), limit) == Ok(Serialize(Envelope(|full|, Encode(bytes))))
  {
    bytes := if offset <= |full| then full[offset..ChunkEnd(full, offset, limit)] else [];
  }

  lemma ChunkFitsBudget(full: seq<Byte>, offset: nat, limit: nat)
    requires offset <= |full|
    ensures |ChunkAt(full, offset, limit).chunk| <= Budget(limit)
    ensures offset < |full| && Budget(limit) >= 4 ==> ChunkAt(full, offset, limit).chunk != []
  {
    EncodedLength(full[offset..ChunkEnd(full, offset, limit)]);
  }

  /**
   A paginated answer leaves at least 449 bytes of the limit for the JSON-RPC wrapper, whatever
   the response and the offset; the largest chunk uses the budget to the last multiple of four.
   */
  lemma AnswerFitsLimit(full: seq<Byte>, offset: nat, limit: nat)
    requires |full| <= U64_MAX && MARGIN <= limit
    requires Respond(full, Some(offset), limit).Ok?
    ensures |Respond(full, Some(offset), limit).value| + 449 <= limit
  {
    if |full| > Budget(limit) {
      ChunkFitsBudget(full, offset, limit);
      EnvelopeOverhead(ChunkAt(full, offset, limit));
    }
  }

  // ----- follower: reassembly -----

  datatype FetchError =
    | RequestFailed
    | MalformedEnvelope
    | CapExceeded
    | TotalChanged
    | InvalidBase64
    | EmptyChunk
    | NotPaginated
    | WrongSize
    | InvalidUtf8
    | InvalidJson

  /** An envelope with its chunk decoded, when it is base64. */
  datatype Piece = Piece(total: nat, bytes: Option<seq<Byte>>)

  function Opened(e: Envelope): Piece {
    Piece(e.total, Decode(e.chunk))
  }

  datatype Reassembly = Reassembly(total: nat, received: seq<Byte>)

  function Pushed(r: Reassembly, piece: Piece): Result<(Reassembly, bool), FetchError> {
    if piece.total != r.total then Err(TotalChanged)
    else
      match piece.bytes
      case None => Err(InvalidBase64)
      case Some(chunk) =>
        var done := |r.received| + |chunk| >= r.total;
        if !done && chunk == [] then Err(EmptyChunk)
        else Ok((r.(received := r.received + chunk), done))
  }

  function Finished(r: Reassembly): Result<seq<Byte>, FetchError> {
    if |r.received| != r.total then Err(WrongSize)
    else if !ValidUtf8(r.received) then Err(InvalidUtf8)
    else Ok(r.received)
  }

  class Reassembler {
    const total: nat
    var received: seq<Byte>

    ghost function View(): Reassembly
      reads this
    {
      Reassembly(total, received)
    }

    constructor (total: nat)
      ensures View() == Reassembly(total, [])
    {
      this.total := total;
      this.received := [];
    }

    method Push(e: Envelope) returns (r: Result<bool, FetchError>)
      modifies this`received
      ensures r.Err? ==> Pushed(old(View()), Opened(e)) == Err(r.error) && View() == old(View())
      ensures r.Ok? ==> Pushed(old(View()), Opened(e)) == Ok((View(), r.value))
      ensures r == Ok(false) ==> old(|received|) < |received| < total
    {
      if e.total != total {
        return Err(TotalChanged);
      }
      var decoded := Decode(e.chunk);
      if decoded.None? {
        return Err(InvalidBase64);
      }
      var chunk := decoded.value;
      var done := |received| + |chunk| >= total;
      if !done && chunk == [] {
        return Err(EmptyChunk);
      }
      received := received + chunk;
      return Ok(done);
    }

    method NextOffset() returns (offset: nat)
      ensures offset == |View().received|
    {
      return |received|;
    }

    method Finish() returns (r: Result<seq<Byte>, FetchError>)
      ensures r == Finished(View())
    {
      if |received| != total {
        return Err(WrongSize);
      }
      if !ValidUtf8(received) {
        return Err(InvalidUtf8);
      }
      return Ok(received);
    }
  }

  // ----- follower: requests -----

  /** What comes back for a request; `Missing` is a null result. */
  datatype Reply = Failed | Missing | Raw(text: seq<Byte>)

  /** Any peer: its answer may depend on how often it was asked and for which offset. */
  type Peer = (nat, nat) -> Reply

  /** The piece in the answer to a later request, for which null is a value that is no envelope. */
  function Answer(json: Json, peer: Peer, asked: nat, offset: nat): Result<Piece, FetchError> {
    match peer(asked, offset)
    case Failed => Err(RequestFailed)
    case Missing => Err(NotPaginated)
    case Raw(raw) =>
      if !IsEnvelope(raw) then Err(NotPaginated)
      else
        match json.envelope(raw)
        case None => Err(MalformedEnvelope)
        case Some(e) => Ok(Opened(e))
  }

  type Source = (nat, nat) -> Result<Piece, FetchError>

  function Answers(json: Json, peer: Peer): Source {
    (asked: nat, offset: nat) => Answer(json, peer, asked, offset)
  }

  /** What the follower ends up with when it has `piece` in hand after `asked` requests. */
  function Assembled(source: Source, asked: nat, r: Reassembly, piece: Piece): Result<seq<Byte>, FetchError>
    decreases r.total - |r.received|
  {
    match Pushed(r, piece)
    case Err(e) => Err(e)
    case Ok((next, true)) => Finished(next)
    case Ok((next, false)) =>
      match source(asked, |next.received|)
      case Err(e) => Err(e)
      case Ok(following) => Assembled(source, asked + 1, next, following)
  }

  function Fetched(json: Json, peer: Peer): Result<Option<seq<Byte>>, FetchError> {
    match peer(0, 0)
    case Failed => Err(RequestFailed)
    case Missing => Ok(None)
    case Raw(raw) =>
      if !IsEnvelope(raw) then Ok(Some(raw))
      else
        match json.envelope(raw)
        case None => Err(MalformedEnvelope)
        case Some(first) => FetchedFrom(json, Answers(json, peer), Opened(first))
  }

  function FetchedFrom(json: Json, source: Source, first: Piece): Result<Option<seq<Byte>>, FetchError> {
    if first.total > MAX_REASSEMBLY_TOTAL then Err(CapExceeded)
    else
      match Assembled(source, 1, Reassembly(first.total, []), first)
      case Ok(full) => if json.value(full).Some? then Ok(json.value(full)) else Err(InvalidJson)
      case Err(e) => Err(e)
  }

  /**
   The request loop. It ends against every peer, after at most as many requests as the total it
   was promised has bytes.
   */
  method Fetch(json: Json, peer: Peer) returns (r: Result<Option<seq<Byte>>, FetchError>, requests: nat)
    ensures r == Fetched(json, peer)
    ensures 1 <= requests <= MAX_REASSEMBLY_TOTAL
  {
    requests := 1;
    var reply := peer(0, 0);
    if reply.Failed? {
      return Err(RequestFailed), requests;
    }
    if reply.Missing? {
      return Ok(None), requests;
    }
    if !IsEnvelope(reply.text) {
      return Ok(Some(reply.text)), requests;
    }
    var first := json.envelope(reply.text);
    if first.None? {
      return Err(MalformedEnvelope), requests;
    }
    if first.value.total > MAX_REASSEMBLY_TOTAL {
      return Err(CapExceeded), requests;
    }
    var assembled;
    assembled, requests := Assemble(json, peer, first.value);
    match assembled
    case Ok(full) => r := if json.value(full).Some? then Ok(json.value(full)) else Err(InvalidJson);
    case Err(e) => r := Err(e);
  }

  /** One later request, which has to bring an envelope. */
  method RequestPiece(json: Json, peer: Peer, asked: nat, offset: nat) returns (r: Result<Envelope, FetchError>)
    ensures Answers(json, peer)(asked, offset) == if r.Ok? then Ok(Opened(r.value)) else Err(r.error)
  {
    var reply := peer(asked, offset);
    if reply.Failed? {
      return Err(RequestFailed);
    }
    if reply.Missing? || !IsEnvelope(reply.text) {
      return Err(NotPaginated);
    }
    var parsed := json.envelope(reply.text);
    if parsed.None? {
      return Err(MalformedEnvelope);
    }
    return Ok(parsed.value);
  }

  /** One round of the loop. */
  lemma AssembledRound(source: Source, asked: nat, r: Reassembly, piece: Piece, next: Reassembly, done: bool)
    requires Pushed(r, piece) == Ok((next, done))
    ensures done ==> Assembled(source, asked, r, piece) == Finished(next)
    ensures !done && source(asked, |next.received|).Err? ==>
      Assembled(source, asked, r, piece) == Err(source(asked, |next.received|).error)
    ensures !done && source(asked, |next.received|).Ok? ==>
      Assembled(source, asked, r, piece)
      == Assembled(source, asked + 1, next, source(asked, |next.received|).value)
  {
  }

  method Assemble(json: Json, peer: Peer, first: Envelope) returns (r: Result<seq<Byte>, FetchError>, requests: nat)
    ensures r == Assembled(Answers(json, peer), 1, Reassembly(first.total, []), Opened(first))
    ensures requests == 1 || 1 < requests <= first.total
  {
    var reassembler := new Reassembler(first.total);
    var envelope := first;
    requests := 1;
    ghost var source := Answers(json, peer);
    while true
      invariant 1 <= requests <= |reassembler.received| + 1
      invariant requests > 1 ==> |reassembler.received| < first.total
      invariant reassembler.total == first.total && fresh(reassembler)
      invariant Assembled(source, 1, Reassembly(first.total, []), Opened(first))
             == Assembled(source, requests, reassembler.View(), Opened(envelope))
      decreases first.total - |reassembler.received|
    {
      ghost var before := reassembler.View();
      var pushed := reassembler.Push(envelope);
      if pushed.Ok? {
        AssembledRound(source, requests, before, Opened(envelope), reassembler.View(), pushed.value);
      }
      if pushed.Err? {
        return Err(pushed.error), requests;
      }
      if pushed.value {
        break;
      }
      var offset := reassembler.NextOffset();
      var answer := RequestPiece(json, peer, requests, offset);
      requests := requests + 1;
      if answer.Err? {
        return Err(answer.error), requests;
      }
      envelope := answer.value;
    }
    r := reassembler.Finish();
  }

  // ----- what the follower accepts from any peer -----

  /** Pushes in a row, none of which completes the response. */
  function PushAll(r: Reassembly, pieces: seq<Piece>): Option<Reassembly>
    decreases |pieces|
  {
    if pieces == [] then Some(r)
    else
      match Pushed(r, pieces[0])
      case Ok((next, false)) => PushAll(next, pieces[1..])
      case _ => None
  }

  function Joined(pieces: seq<Piece>): seq<Byte> {
    if pieces == [] then []
    else (if pieces[0].bytes.Some? then pieces[0].bytes.value else []) + Joined(pieces[1..])
  }

  /**
   Whatever envelopes arrive, the buffer is the concatenation of the accepted chunks, and fewer
   than `total` pushes can be accepted before the one that completes the response.
   */
  lemma {:induction false} PushesAccumulate(r: Reassembly, pieces: seq<Piece>)
    requires PushAll(r, pieces).Some? && |r.received| < r.total
    ensures PushAll(r, pieces).value.received == r.received + Joined(pieces)
    ensures |r.received| + |pieces| <= |PushAll(r, pieces).value.received| < r.total
    decreases |pieces|
  {
    if pieces == [] {
      assert r.received + [] == r.received;
    } else {
      var (next, done) := Pushed(r, pieces[0]).value;
      PushesAccumulate(next, pieces[1..]);
      var first := pieces[0].bytes.value;
      assert r.received + first + Joined(pieces[1..]) == r.received + (first + Joined(pieces[1..]));
    }
  }

  /**
   `text` is made of the pieces the source sent: each one, starting with `piece`, is the part of
   `text` at the offset it was asked for, and announces the size of `text`.
   */
  predicate Pieces(source: Source, asked: nat, offset: nat, piece: Piece, text: seq<Byte>)
    requires offset <= |text|
    decreases |text| - offset
  {
    && piece.total == |text|
    && piece.bytes.Some?
    && PartAt(text, offset, piece.bytes.value)
    && var end := offset + |piece.bytes.value|;
       end == |text| || (end > offset && source(asked, end).Ok?
                         && Pieces(source, asked + 1, end, source(asked, end).value, text))
  }

  lemma {:induction false} AssembledExtends(source: Source, asked: nat, r: Reassembly, piece: Piece)
    requires Assembled(source, asked, r, piece).Ok?
    ensures r.received <= Assembled(source, asked, r, piece).value
    ensures |Assembled(source, asked, r, piece).value| == r.total
    decreases r.total - |r.received|
  {
    var (next, done) := Pushed(r, piece).value;
    if done {
    } else {
      AssembledExtends(source, asked + 1, next, source(asked, |next.received|).value);
    }
  }

  lemma PrefixGrows(a: seq<Byte>, b: seq<Byte>, text: seq<Byte>)
    requires a <= text
    ensures a + b <= text <==> PartAt(text, |a|, b)
  {
    if |a| + |b| <= |text| {
      assert text[..|a| + |b|] == a + text[|a|..|a| + |b|];
      if a + b <= text { assert (a + b)[|a|..] == b; }
    }
  }

  lemma {:induction false} AssembledIffPieces(source: Source, asked: nat, r: Reassembly, piece: Piece, text: seq<Byte>)
    requires r.received <= text && r.total == |text|
    ensures Assembled(source, asked, r, piece) == Ok(text)
       <==> ValidUtf8(text) && Pieces(source, asked, |r.received|, piece, text)
    decreases r.total - |r.received|
  {
    if Pushed(r, piece).Err? {
    } else {
      var (next, done) := Pushed(r, piece).value;
      PrefixGrows(r.received, piece.bytes.value, text);
      if done {
        assert |next.received| == |text| ==> (next.received == text <==> next.received <= text);
      } else if source(asked, |next.received|).Ok? {
        var following := source(asked, |next.received|).value;
        if next.received <= text {
          AssembledIffPieces(source, asked + 1, next, following, text);
        } else if Assembled(source, asked + 1, next, following).Ok? {
          AssembledExtends(source, asked + 1, next, following);
        }
      }
    }
  }

  /** `text` is within the cap, well formed, and made of the pieces sent. */
  ghost predicate Assembles(source: Source, first: Piece, text: seq<Byte>) {
    |text| <= MAX_REASSEMBLY_TOTAL && ValidUtf8(text) && Pieces(source, 1, 0, first, text)
  }

  /**
   Whatever the JSON library reads as an envelope, a value is accepted from a paginated answer exactly
   when it is the raw value of a text that is within the cap, well formed, and made of the pieces the
   peer sent for the offsets it was asked for.
   */
  lemma AcceptedIffPiecesMatch(json: Json, peer: Peer, value: seq<Byte>)
    requires peer(0, 0).Raw? && IsEnvelope(peer(0, 0).text)
    ensures Fetched(json, peer) == Ok(Some(value))
       <==> && Answer(json, peer, 0, 0).Ok?
            && exists text :: && Assembles(Answers(json, peer), Answer(json, peer, 0, 0).value, text)
                              && json.value(text) == Some(value)
  {
    if Answer(json, peer, 0, 0).Ok? {
      var source, first := Answers(json, peer), Answer(json, peer, 0, 0).value;
      if Fetched(json, peer).Ok? {
        var text := FetchedHasPieces(json, source, first);
      }
      forall text | Assembles(source, first, text) ensures FetchedFrom(json, source, first) == Read(json, text) {
        FetchedOfPieces(json, source, first, text);
      }
    }
  }

  /** What becomes of a text that was put together. */
  function Read(json: Json, text: seq<Byte>): Result<Option<seq<Byte>>, FetchError> {
    if json.value(text).Some? then Ok(json.value(text)) else Err(InvalidJson)
  }

  lemma FetchedOfPieces(json: Json, source: Source, first: Piece, text: seq<Byte>)
    requires Assembles(source, first, text)
    ensures FetchedFrom(json, source, first) == Read(json, text)
  {
    AssembledIffPieces(source, 1, Reassembly(first.total, []), first, text);
  }

  lemma FetchedHasPieces(json: Json, source: Source, first: Piece) returns (text: seq<Byte>)
    requires FetchedFrom(json, source, first).Ok?
    ensures Assembles(source, first, text) && FetchedFrom(json, source, first) == Read(json, text)
  {
    var start := Reassembly(first.total, []);
    text := Assembled(source, 1, start, first).value;
    AssembledExtends(source, 1, start, first);
    AssembledIffPieces(source, 1, start, first, text);
  }

  // ----- a response served by the leader -----

  /** A null response reaches the follower as a result that is missing. */
  function Leader(full: seq<Byte>, limit: nat): Peer {
    (asked: nat, offset: nat) =>
      match Respond(full, Some(offset), limit)
      case Ok(text) => if text == NULL then Missing else Raw(text)
      case Err(_) => Failed
  }

  /** The bytes of the response from an offset on, as far as a chunk reaches. */
  function PieceAt(full: seq<Byte>, offset: nat, limit: nat): (p: Piece)
    requires offset <= |full|
    ensures Budget(limit) < 4 && offset < |full| ==> p.bytes == Some([])
  {
    var part := full[offset..ChunkEnd(full, offset, limit)];
    assert |part| == 0 ==> part == [];
    Piece(|full|, Some(part))
  }

  lemma LeaderText(full: seq<Byte>, limit: nat, asked: nat, offset: nat)
    requires Budget(limit) < |full| <= U64_MAX && offset <= |full|
    ensures Leader(full, limit)(asked, offset) == Raw(Serialize(ChunkAt(full, offset, limit)))
    ensures IsEnvelope(Serialize(ChunkAt(full, offset, limit)))
  {
    EnvelopeRoundTrip(ChunkAt(full, offset, limit));
  }

  lemma OpenedChunk(full: seq<Byte>, limit: nat, offset: nat)
    requires offset <= |full|
    ensures Opened(ChunkAt(full, offset, limit)) == PieceAt(full, offset, limit)
  {
    DecodeEncode(full[offset..ChunkEnd(full, offset, limit)]);
  }

  lemma ServedPiece(json: Json, full: seq<Byte>, limit: nat, asked: nat, offset: nat)
    requires ReadsLeader(json) && Budget(limit) < |full| <= U64_MAX && offset <= |full|
    ensures Leader(full, limit)(asked, offset).Raw? && IsEnvelope(Leader(full, limit)(asked, offset).text)
    ensures Answers(json, Leader(full, limit))(asked, offset) == Ok(PieceAt(full, offset, limit))
  {
    var e := ChunkAt(full, offset, limit);
    LeaderText(full, limit, asked, offset);
    OpenedChunk(full, limit, offset);
    assert json.envelope(Serialize(e)) == Some(e);
  }

  /** A source that serves a response piece by piece. */
  ghost predicate Serves(source: Source, full: seq<Byte>, limit: nat) {
    forall asked: nat, offset: nat | offset <= |full| :: source(asked, offset) == Ok(PieceAt(full, offset, limit))
  }

  lemma {:induction false} ServedPiecesMatch(source: Source, full: seq<Byte>, limit: nat, asked: nat, offset: nat)
    requires Serves(source, full, limit) && offset <= |full| && Budget(limit) >= 4
    ensures Pieces(source, asked, offset, PieceAt(full, offset, limit), full)
    decreases |full| - offset
  {
    var end := ChunkEnd(full, offset, limit);
    if end == |full| {
    } else {
      assert source(asked, end) == Ok(PieceAt(full, end, limit));
      ServedPiecesMatch(source, full, limit, asked + 1, end);
    }
  }

  lemma LeaderServes(json: Json, full: seq<Byte>, limit: nat)
    requires ReadsLeader(json) && Budget(limit) < |full| <= U64_MAX
    ensures Serves(Answers(json, Leader(full, limit)), full, limit)
    ensures Fetched(json, Leader(full, limit))
         == FetchedFrom(json, Answers(json, Leader(full, limit)), PieceAt(full, 0, limit))
  {
    var source := Answers(json, Leader(full, limit));
    forall asked: nat, offset: nat | offset <= |full|
      ensures source(asked, offset) == Ok(PieceAt(full, offset, limit))
    {
      ServedPiece(json, full, limit, asked, offset);
    }
    ServedPiece(json, full, limit, 0, 0);
    FirstAnswer(json, Leader(full, limit));
  }

  lemma FirstAnswer(json: Json, peer: Peer)
    requires peer(0, 0).Raw? && IsEnvelope(peer(0, 0).text) && Answers(json, peer)(0, 0).Ok?
    ensures Fetched(json, peer) == FetchedFrom(json, Answers(json, peer), Answers(json, peer)(0, 0).value)
  {
  }

  lemma EmptyFirstPiece(json: Json, source: Source, first: Piece)
    requires first.bytes == Some([]) && first.total > 0
    ensures FetchedFrom(json, source, first) ==
            if first.total > MAX_REASSEMBLY_TOTAL then Err(CapExceeded) else Err(EmptyChunk)
  {
  }

  lemma ServedResult(json: Json, source: Source, full: seq<Byte>, limit: nat)
    requires Serves(source, full, limit) && Budget(limit) < |full| && ValidUtf8(full)
    ensures FetchedFrom(json, source, PieceAt(full, 0, limit)) ==
            if |full| > MAX_REASSEMBLY_TOTAL then Err(CapExceeded)
            else if Budget(limit) < 4 then Err(EmptyChunk)
            else Read(json, full)
  {
    if Budget(limit) < 4 {
      EmptyFirstPiece(json, source, PieceAt(full, 0, limit));
    } else {
      ServedPiecesMatch(source, full, limit, 1, 0);
      if |full| <= MAX_REASSEMBLY_TOTAL { FetchedOfPieces(json, source, PieceAt(full, 0, limit), full); }
    }
  }

  /**
   A response too large for one message arrives byte for byte, for every limit that leaves room
   for one group of base64, however its characters are cut; a smaller limit makes no progress and
   ends in an error, and so do a response above the cap and one that is no JSON value.
   */
  lemma PaginatedResponseArrives(json: Json, full: seq<Byte>, limit: nat)
    requires ReadsLeader(json) && Budget(limit) < |full| <= U64_MAX && ValidUtf8(full)
    ensures Fetched(json, Leader(full, limit)) ==
            if |full| > MAX_REASSEMBLY_TOTAL then Err(CapExceeded)
            else if Budget(limit) < 4 then Err(EmptyChunk)
            else Read(json, full)
  {
    LeaderServes(json, full, limit);
    ServedResult(json, Answers(json, Leader(full, limit)), full, limit);
  }

  // ----- a response that looks like an envelope -----

  lemma DecodedIsShorter(chunk: seq<Byte>)
    requires Decode(chunk).Some?
    ensures |Decode(chunk).value| <= |chunk|
  {
    DecodeIsCanonical(chunk);
    EncodedLength(Decode(chunk).value);
  }

  /** Copies of a piece that ends between tokens never close the object the first one opens. */
  lemma {:induction false} CopiesStayInside(source: Source, asked: nat, offset: nat, piece: Piece, raw: seq<Byte>)
    requires forall asked: nat, offset: nat :: source(asked, offset) == Ok(piece)
    requires offset <= |raw| && Pieces(source, asked, offset, piece, raw)
    requires ScanFrom(START, raw[..offset]).Inside? && ScanFrom(START, raw[..offset]).mode == Out
    requires ScanFrom(START, piece.bytes.value).Inside? && ScanFrom(START, piece.bytes.value).mode == Out
    ensures ScanFrom(START, raw).Inside?
    decreases |raw| - offset
  {
    var w := piece.bytes.value;
    var end := offset + |w|;
    assert raw[..end] == raw[..offset] + w;
    ScanConcat(START, raw[..offset], w);
    ScanDeeper(START, w, ScanFrom(START, raw[..offset]).depth);
    if end == |raw| {
      assert raw[..end] == raw;
    } else {
      CopiesStayInside(source, asked + 1, end, piece, raw);
    }
  }

  /** A text made of copies of a piece repeats itself. */
  lemma {:induction false} CopiesRepeat(source: Source, asked: nat, offset: nat, piece: Piece, text: seq<Byte>)
    requires forall asked: nat, offset: nat :: source(asked, offset) == Ok(piece)
    requires offset <= |text| && Pieces(source, asked, offset, piece, text)
    requires |piece.bytes.value| <= offset && text[offset - |piece.bytes.value|..offset] == piece.bytes.value
    ensures forall i | offset <= i < |text| :: text[i] == text[i - |piece.bytes.value|]
    decreases |text| - offset
  {
    var w := piece.bytes.value;
    var end := offset + |w|;
    forall i | offset <= i < end ensures text[i] == text[i - |w|] {
      assert text[i] == text[offset..end][i - offset] && text[i - |w|] == text[offset - |w|..offset][i - offset];
    }
    if end == |text| {
    } else {
      CopiesRepeat(source, asked + 1, end, piece, text);
    }
  }

  /** What repeats itself and starts with the marker, but for space, repeats at least the marker. */
  lemma MarkerIsRepeated(text: seq<Byte>, before: nat, j: nat)
    requires 0 < j && before + |PREFIX| <= |text| && j < |text|
    requires AllSpace(text[..before]) && PREFIX <= text[before..]
    requires forall i | j <= i < |text| :: text[i] == text[i - j]
    ensures before + |PREFIX| <= j
  {
    assert j <= before ==> text[before] == text[before - j];
    forall i | 0 <= i < before ensures IsSpace(text[i]) { assert text[..before][i] == text[i]; }
    forall i | 0 <= i < |PREFIX| ensures text[before + i] == PREFIX[i] { assert text[before..][i] == PREFIX[i]; }
    PrefixHasNoSpace(0);
    assert text[before] == PREFIX[0];
    assert before < j ==> text[j] == text[0] && (before == 0 ==> text[0] == PREFIX[0]);
    if before < j < before + |PREFIX| {
      assert text[before + (j - before)] == PREFIX[j - before];
      PrefixHasNoSpace(j - before);
      PrefixHasOneBrace(j - before);
    }
  }

  /** So the first copy ends between tokens, in a text that is not broken. */
  lemma FirstCopyEndsOut(text: seq<Byte>, before: nat, j: nat)
    requires 0 < j && before + |PREFIX| <= j && j + j <= |text|
    requires AllSpace(text[..before]) && PREFIX <= text[before..]
    requires forall i | j <= i < |text| :: text[i] == text[i - j]
    requires ScanFrom(START, text) != Broken
    ensures ScanFrom(START, text[..j]).Inside? && ScanFrom(START, text[..j]).mode == Out
  {
    SecondCopy(text, before, j, PREFIX);
    EndsOutBeforeMarker(text[..j], text[j..j + before], text[j + before..]);
  }

  /** What a repeated text starts with, space and then a marker, comes again after the first copy. */
  lemma SecondCopy(text: seq<Byte>, before: nat, j: nat, marker: seq<Byte>)
    requires before + |marker| <= j && j + j <= |text|
    requires AllSpace(text[..before]) && marker <= text[before..]
    requires forall i | j <= i < |text| :: text[i] == text[i - j]
    ensures text == text[..j] + text[j..j + before] + text[j + before..]
    ensures AllSpace(text[j..j + before]) && marker <= text[j + before..]
  {
    var space, rest := text[j..j + before], text[j + before..];
    forall i | 0 <= i < before ensures IsSpace(space[i]) {
      assert space[i] == text[j + i] == text[..before][i];
    }
    forall i | 0 <= i < |marker| ensures rest[i] == marker[i] {
      assert rest[i] == text[j + before + i] == text[before..][i];
    }
    assert rest[..|marker|] == marker;
  }

  lemma EndsOutBeforeMarker(head: seq<Byte>, space: seq<Byte>, rest: seq<Byte>)
    requires AllSpace(space) && PREFIX <= rest && ScanFrom(START, head + space + rest) != Broken
    ensures ScanFrom(START, head).Inside? && ScanFrom(START, head).mode == Out
  {
    ScanConcat(START, head + space, rest);
    ScanConcat(START, head, space);
    MarkerNeedsOut(ScanFrom(ScanFrom(START, head), space), rest);
    ScanSpace(ScanFrom(START, head), space);
  }

  /** A text whose value is an object that starts with the marker is not made of copies of a smaller piece. */
  lemma NoPiecesOfItself(source: Source, text: seq<Byte>, raw: seq<Byte>, before: nat, piece: Piece)
    requires SurroundedBy(text, raw, before) && IsEnvelope(raw) && IsObject(raw)
    requires piece.bytes.Some? && |piece.bytes.value| < |raw|
    requires forall asked: nat, offset: nat :: source(asked, offset) == Ok(piece)
    ensures !Pieces(source, 1, 0, piece, text)
  {
    var j := |piece.bytes.value|;
    ScanSurrounded(text, raw, before);
    if Pieces(source, 1, 0, piece, text) {
      assert Pieces(source, 2, j, piece, text);
      assert text[0..j] == text[..j] == piece.bytes.value;
      CopiesRepeat(source, 2, j, piece, text);
      assert forall i | 0 <= i < |PREFIX| :: text[before..][i] == text[before..before + |raw|][i] == PREFIX[i];
      assert text[before..][..|PREFIX|] == PREFIX;
      MarkerIsRepeated(text, before, j);
      FirstCopyEndsOut(text, before, j);
      CopiesStayInside(source, 2, j, piece, text);
    }
  }

  /**
   A one-message response that starts like an envelope is taken for one, and never arrives, whatever
   layouts the JSON library accepts.
   */
  lemma LookalikeNeverArrives(json: Json, full: seq<Byte>, limit: nat)
    requires ReadsObjects(json) && ReadsValues(json) && |full| <= Budget(limit) && IsEnvelope(full)
    ensures Fetched(json, Leader(full, limit)) != Ok(Some(full))
  {
    var peer := Leader(full, limit);
    assert full[0] == PREFIX[0] != NULL[0];
    if Fetched(json, peer) == Ok(Some(full)) {
      var e := json.envelope(full).value;
      var text := FetchedHasPieces(json, Answers(json, peer), Opened(e));
      var before: nat :| SurroundedBy(text, full, before);
      DecodedIsShorter(e.chunk);
      NoPiecesOfItself(Answers(json, peer), text, full, before, Opened(e));
    }
  }

  // ----- when a response arrives -----

  /** A response that fits one message arrives unless it is null or starts like an envelope. */
  lemma OneMessageArrivesIff(json: Json, full: seq<Byte>, limit: nat)
    requires ReadsObjects(json) && ReadsValues(json) && |full| <= Budget(limit)
    ensures Fetched(json, Leader(full, limit)) == Ok(Some(full)) <==> !IsEnvelope(full) && full != NULL
    ensures full == NULL ==> Fetched(json, Leader(full, limit)) == Ok(None)
  {
    if IsEnvelope(full) { LookalikeNeverArrives(json, full, limit); }
  }

  /** The exact condition under which a response of the leader reaches the follower. */
  lemma ResponseArrivesIff(json: Json, full: seq<Byte>, limit: nat)
    requires ReadsLeader(json) && ReadsObjects(json) && ReadsValues(json) && |full| <= U64_MAX && ValidUtf8(full)
    ensures Fetched(json, Leader(full, limit)) == Ok(Some(full))
       <==> if |full| <= Budget(limit) then !IsEnvelope(full) && full != NULL
            else 4 <= Budget(limit) && |full| <= MAX_REASSEMBLY_TOTAL && json.value(full) == Some(full)
  {
    if |full| > Budget(limit) {
      PaginatedResponseArrives(json, full, limit);
    } else {
      OneMessageArrivesIff(json, full, limit);
    }
  }

  /** With a limit the leader starts with, only null, the cap and the marker are left to stop a response. */
  lemma StartedLeaderGetsThroughIff(json: Json, full: seq<Byte>, limit: nat)
    requires ReadsLeader(json) && ReadsObjects(json) && ReadsValues(json) && |full| <= U64_MAX && ValidUtf8(full)
    requires json.value(full) == Some(full) && limit >= MIN_RESPONSE_SIZE_BYTES
    ensures Fetched(json, Leader(full, limit)) == Ok(Some(full))
       <==> if |full| <= Budget(limit) then !IsEnvelope(full) && full != NULL else |full| <= MAX_REASSEMBLY_TOTAL
  {
    ResponseArrivesIff(json, full, limit);
  }

  /** Chunks are cut without regard to characters: a piece of a text need not be a text. */
  lemma PieceNeedNotBeText()
    ensures exists full: seq<Byte>, cut: nat ::
              cut <= |full| && ValidUtf8(full) && !ValidUtf8(full[..cut]) && !ValidUtf8(full[cut..])
  {
    var full: seq<Byte> := [0xC3, 0xA9];
    assert CharLength(full) == 2 && full[2..] == [] && ValidUtf8(full);
    assert full[..1] == [0xC3] && CharLength(full[..1]) == 0;
    assert full[1..] == [0xA9] && CharLength(full[1..]) == 0;
    assert !ValidUtf8(full[..1]) && !ValidUtf8(full[1..]);
  }
}
