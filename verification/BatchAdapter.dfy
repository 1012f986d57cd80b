/**
 The adapter on the Lambda side: what a handler returned for one request, and the records it turns
 into. Records are written as the gateway reads them, so an omitted field is its default.
 */
module BatchAdapter {
  import opened Prelude
  import opened StreamWire
  import opened ClientTrace

  datatype ResponseChunk = TextChunk(text: string) | BinaryChunk(bytes: Bytes)

  datatype ResponseBody =
    | EmptyBody
    | TextBody(text: string)
    | BinaryBody(bytes: Bytes)
    | StreamedBody(chunks: seq<ResponseChunk>)

  datatype HandlerResponse =
    HandlerResponse(statusCode: nat, headers: RawHeaders, cookies: seq<string>, body: ResponseBody, isBase64: bool)

  datatype HandlerResult = Returned(resp: HandlerResponse) | HandlerFailed

  /** String trimming and base64 are library behaviour. */
  datatype Library = Library(trim: string -> string, base64: Bytes -> string) {

    function StatusOf(resp: HandlerResponse): nat {
      if resp.statusCode == 0 then 200 else resp.statusCode
    }

    function HeadersOf(resp: HandlerResponse): RawHeaders {
      map name | name in resp.headers && trim(name) != "" :: resp.headers[name]
    }

    function CookiesOf(cookies: seq<string>): seq<string> {
      if cookies == [] then []
      else (if trim(cookies[0]) == "" then [] else [trim(cookies[0])]) + CookiesOf(cookies[1..])
    }

    /** A whole body for a one-record answer; streamed bodies have none. */
    function WholeBody(resp: HandlerResponse): Option<(string, bool)> {
      match resp.body
      case EmptyBody => Some(("", resp.isBase64))
      case TextBody(s) => Some((s, resp.isBase64))
      case BinaryBody(b) => Some((base64(b), true))
      case StreamedBody(_) => None
    }

    function LegacyRecord(id: Id, result: HandlerResult): Record {
      if result.Returned? && WholeBody(result.resp).Some? then
        var (body, isBase64) := WholeBody(result.resp).value;
        Legacy(1, id, StatusOf(result.resp), HeadersOf(result.resp), CookiesOf(result.resp.cookies), body, isBase64)
      else
        Legacy(1, id, 500, map["content-type" := "text/plain"], [], "internal error", false)
    }

    function Head(id: Id, resp: HandlerResponse): Record {
      Interleaved(1, id, HeadRecord, Some(StatusOf(resp)), HeadersOf(resp), CookiesOf(resp.cookies), None, false, None)
    }

    function ChunkOf(id: Id, text: string, isBase64: bool): Record {
      Interleaved(1, id, ChunkRecord, None, map[], [], Some(text), isBase64, None)
    }

    function End(id: Id): Record {
      Interleaved(1, id, EndRecord, None, map[], [], None, false, None)
    }

    function Error(id: Id): Record {
      Interleaved(1, id, ErrorRecord, Some(500), map[], [], None, false, Some("internal error"))
    }

    /** The pieces of the body: a plain body is one piece, an empty one none. */
    function Pieces(resp: HandlerResponse): seq<ResponseChunk> {
      match resp.body
      case EmptyBody => []
      case TextBody(s) => [TextChunk(s)]
      case BinaryBody(b) => [BinaryChunk(b)]
      case StreamedBody(chunks) => chunks
    }

    function Chunks(id: Id, pieces: seq<ResponseChunk>, isBase64: bool): seq<Record> {
      if pieces == [] then []
      else
        [match pieces[0]
         case TextChunk(s) => ChunkOf(id, s, isBase64)
         case BinaryChunk(b) => ChunkOf(id, base64(b), true)] + Chunks(id, pieces[1..], isBase64)
    }

    /** The record stream of one request. */
    function RequestRecords(interleaved: bool, id: Id, result: HandlerResult): seq<Record> {
      if !interleaved then [LegacyRecord(id, result)]
      else
        match result
        case HandlerFailed => [Error(id)]
        case Returned(resp) => [Head(id, resp)] + Chunks(id, Pieces(resp), resp.isBase64) + [End(id)]
    }
  }

  // ---------------------------------------------------------------- what the client should see

  /** A piece of a body as bytes: binary as it is, text through the flag the handler set. */
  function PieceBytes(env: Env, piece: ResponseChunk, isBase64: bool): Result<Bytes> {
    match piece
    case TextChunk(s) => env.conv.decode(s, isBase64)
    case BinaryChunk(b) => Ok(b)
  }

  ghost function PieceEvents(env: Env, pieces: seq<ResponseChunk>, isBase64: bool): seq<Event> {
    if pieces == [] then []
    else [Chunk(PieceBytes(env, pieces[0], isBase64).GetOr([]))] + PieceEvents(env, pieces[1..], isBase64)
  }

  /** The whole body as bytes. */
  function BodyBytes(env: Env, resp: HandlerResponse): Result<Bytes> {
    match resp.body
    case EmptyBody => env.conv.decode("", resp.isBase64)
    case TextBody(s) => env.conv.decode(s, resp.isBase64)
    case BinaryBody(b) => Ok(b)
    case StreamedBody(_) => Err("")
  }

  /** The trace of a client that stays: its own head, its own body in order, then the end. */
  ghost function ExpectedTrace(env: Env, lib: Library, interleaved: bool, result: HandlerResult): seq<Event> {
    match result
    case HandlerFailed =>
      if interleaved then [Response(env.ErrorAnswer(Some(500), Some("internal error"))), Close]
      else [Response(InternalError(env)), Close]
    case Returned(resp) =>
      var head := env.HeadOf(lib.StatusOf(resp), lib.HeadersOf(resp), lib.CookiesOf(resp.cookies))
                  .GetOr(StreamHead(200, [], env.batchSize, env.waitMs));
      if interleaved then [ClientTrace.Head(head)] + PieceEvents(env, lib.Pieces(resp), resp.isBase64) + [Close]
      else if resp.body.StreamedBody? then [Response(InternalError(env)), Close]
      else [Response(GatewayResponse(head.status, head.headers, BodyBytes(env, resp).GetOr([]),
                                     env.batchSize, env.waitMs)), Close]
  }

  /** The plain 500 the one-record mode falls back to. */
  function InternalError(env: Env): GatewayResponse {
    env.ResponseOf(500, map["content-type" := "text/plain"], [], "internal error", false)
    .GetOr(env.TextResponse(500, ""))
  }

  // ---------------------------------------------------------------- conversion

  /** The record converts: no dispatcher state makes it fail. */
  ghost predicate Convertible(env: Env, r: Record) {
    && r.v == 1
    && match r
       case Legacy(_, _, code, headers, cookies, body, isBase64) =>
         env.ResponseOf(code, headers, cookies, body, isBase64).Ok?
       case Interleaved(_, _, HeadRecord, code, headers, cookies, _, _, _) =>
         env.HeadOf(if code.Some? then code.value else 200, headers, cookies).Ok?
       case Interleaved(_, _, ChunkRecord, _, _, _, text, isBase64, _) =>
         env.HeadOf(200, map[], []).Ok? && env.conv.decode(if text.Some? then text.value else "", isBase64).Ok?
       case Interleaved(_, _, EndRecord, _, _, _, _, _, _) => env.HeadOf(200, map[], []).Ok?
       case Interleaved(_, _, ErrorRecord, _, _, _, _, _, _) => true
  }

  ghost predicate AllConvertible(env: Env, records: seq<Record>) {
    forall k :: 0 <= k < |records| ==> Convertible(env, records[k])
  }

  /** base64 decodes to what was encoded. */
  ghost predicate Base64RoundTrips(env: Env, lib: Library) {
    forall b: Bytes :: env.conv.decode(lib.base64(b), true) == Ok(b)
  }
}
