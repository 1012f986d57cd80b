/**
 The records a streaming Lambda target sends back, the responses built from them, and the
 conversions in between. Status codes, header values, cookies, base64 and JSON are library
 behaviour: they enter as functions, each of which may refuse its input with a message.
 */
module StreamWire {
  import opened Prelude

  type RawHeaders = map<string, string>

  type HeaderMap = seq<(string, string)>

  datatype RecordKind = HeadRecord | ChunkRecord | EndRecord | ErrorRecord

  datatype Record =
    | Legacy(v: nat, id: Id, statusCode: nat, headers: RawHeaders, cookies: seq<string>,
             body: string, isBase64: bool)
    | Interleaved(v: nat, id: Id, kind: RecordKind, code: Option<nat>, headers: RawHeaders,
                  cookies: seq<string>, text: Option<string>, isBase64: bool, message: Option<string>)

  const BAD_GATEWAY: nat := 502

  datatype Conversions = Conversions(
    parse: Bytes -> Result<Record>,
    status: nat -> Result<nat>,
    headers: RawHeaders -> Result<HeaderMap>,
    cookies: (HeaderMap, seq<string>) -> Result<HeaderMap>,
    decode: (string, bool) -> Result<Bytes>,
    utf8: string -> Bytes,
    show: nat -> string
  )

  datatype StreamHead = StreamHead(status: nat, headers: HeaderMap, batchSize: nat, waitMs: nat)

  datatype GatewayResponse =
    GatewayResponse(status: nat, headers: HeaderMap, body: Bytes, batchSize: nat, waitMs: nat)

  /** What is fixed while one batch is answered: the conversions and the batch's metadata. */
  datatype Env = Env(conv: Conversions, batchSize: nat, waitMs: nat) {

    function TextResponse(status: nat, msg: string): GatewayResponse {
      GatewayResponse(status, [], conv.utf8(msg), batchSize, waitMs)
    }

    /** Status, headers and cookies in the order the dispatcher converts them. */
    function HeadOf(statusCode: nat, raw: RawHeaders, cookies: seq<string>): Result<StreamHead> {
      match conv.status(statusCode)
      case Err(e) => Err("bad status code: " + e)
      case Ok(status) =>
        match conv.headers(raw)
        case Err(e) => Err("bad response headers: " + e)
        case Ok(headers) =>
          match conv.cookies(headers, cookies)
          case Err(e) => Err("bad response cookies: " + e)
          case Ok(all) => Ok(StreamHead(status, all, batchSize, waitMs))
    }

    function ResponseOf(statusCode: nat, raw: RawHeaders, cookies: seq<string>, body: string, isBase64: bool)
      : Result<GatewayResponse>
    {
      match conv.status(statusCode)
      case Err(e) => Err(e)
      case Ok(status) =>
        match conv.headers(raw)
        case Err(e) => Err(e)
        case Ok(headers) =>
          match conv.cookies(headers, cookies)
          case Err(e) => Err(e)
          case Ok(all) =>
            match conv.decode(body, isBase64)
            case Err(e) => Err(e)
            case Ok(bytes) => Ok(GatewayResponse(status, all, bytes, batchSize, waitMs))
    }

    /** The plain answer an error record turns into; an unusable status becomes 502. */
    function ErrorAnswer(code: Option<nat>, message: Option<string>): GatewayResponse {
      var wanted := if code.Some? then code.value else BAD_GATEWAY;
      var status := conv.status(wanted);
      TextResponse(if status.Ok? then status.value else BAD_GATEWAY,
                   if message.Some? then message.value else "error")
    }
  }

  // ---------------------------------------------------------------- what a response says

  /** The first of status, headers and cookies that is refused, and why. */
  ghost predicate HeadRefused(conv: Conversions, code: nat, raw: RawHeaders, cookies: seq<string>, why: string) {
    || conv.status(code) == Err(why)
    || (conv.status(code).Ok? && conv.headers(raw) == Err(why))
    || (conv.status(code).Ok? && conv.headers(raw).Ok? && conv.cookies(conv.headers(raw).value, cookies) == Err(why))
  }

  /** The status and the header lines are the converted ones. */
  ghost predicate HeadConverts(conv: Conversions, code: nat, raw: RawHeaders, cookies: seq<string>,
                               status: nat, lines: HeaderMap) {
    && conv.status(code) == Ok(status)
    && conv.headers(raw).Ok?
    && conv.cookies(conv.headers(raw).value, cookies) == Ok(lines)
  }

  /** The head opens a response with this status, these headers and cookies, and the batch's metadata. */
  ghost predicate Opens(env: Env, head: StreamHead, code: nat, raw: RawHeaders, cookies: seq<string>) {
    && HeadConverts(env.conv, code, raw, cookies, head.status, head.headers)
    && head.batchSize == env.batchSize && head.waitMs == env.waitMs
  }

  /** The response is the converted answer, in every field, with the batch's metadata. */
  ghost predicate Renders(env: Env, resp: GatewayResponse, code: nat, raw: RawHeaders, cookies: seq<string>,
                          body: string, isBase64: bool) {
    && HeadConverts(env.conv, code, raw, cookies, resp.status, resp.headers)
    && env.conv.decode(body, isBase64) == Ok(resp.body)
    && resp.batchSize == env.batchSize && resp.waitMs == env.waitMs
  }

  /** The answer does not convert: its head is refused, or else its body. */
  ghost predicate Refused(conv: Conversions, code: nat, raw: RawHeaders, cookies: seq<string>, body: string,
                          isBase64: bool, why: string) {
    || HeadRefused(conv, code, raw, cookies, why)
    || (!(exists e :: HeadRefused(conv, code, raw, cookies, e)) && conv.decode(body, isBase64) == Err(why))
  }

  /** The response is a plain text with this status. */
  ghost predicate IsPlain(env: Env, resp: GatewayResponse, status: nat, text: string) {
    && resp.status == status
    && resp.headers == []
    && resp.body == env.conv.utf8(text)
    && resp.batchSize == env.batchSize && resp.waitMs == env.waitMs
  }

  lemma PlainText(env: Env, status: nat, text: string)
    ensures IsPlain(env, env.TextResponse(status, text), status, text)
  {
  }

  /** What a refused head is called in the error that ends the stream. */
  ghost predicate HeadProblem(conv: Conversions, code: nat, raw: RawHeaders, cookies: seq<string>, msg: string) {
    if conv.status(code).Err? then msg == "bad status code: " + conv.status(code).msg
    else if conv.headers(raw).Err? then msg == "bad response headers: " + conv.headers(raw).msg
    else
      var all := conv.cookies(conv.headers(raw).value, cookies);
      all.Err? && msg == "bad response cookies: " + all.msg
  }

  /** A head is built exactly when nothing is refused, and is then the converted one. */
  lemma HeadOfConverts(env: Env, code: nat, raw: RawHeaders, cookies: seq<string>)
    ensures forall head :: env.HeadOf(code, raw, cookies) == Ok(head) <==> Opens(env, head, code, raw, cookies)
    ensures forall msg :: env.HeadOf(code, raw, cookies) == Err(msg) <==> HeadProblem(env.conv, code, raw, cookies, msg)
    ensures env.HeadOf(code, raw, cookies).Err? <==> exists why :: HeadRefused(env.conv, code, raw, cookies, why)
  {
    var r := env.HeadOf(code, raw, cookies);
    if r.Err? {
      var why := if env.conv.status(code).Err? then env.conv.status(code).msg
                 else if env.conv.headers(raw).Err? then env.conv.headers(raw).msg
                 else env.conv.cookies(env.conv.headers(raw).value, cookies).msg;
      assert HeadRefused(env.conv, code, raw, cookies, why);
    }
  }

  /** A response is built exactly when nothing is refused, and the error is the first refusal's. */
  lemma ResponseOfConverts(env: Env, code: nat, raw: RawHeaders, cookies: seq<string>, body: string, isBase64: bool)
    ensures forall resp :: env.ResponseOf(code, raw, cookies, body, isBase64) == Ok(resp)
                           <==> Renders(env, resp, code, raw, cookies, body, isBase64)
    ensures forall why :: env.ResponseOf(code, raw, cookies, body, isBase64) == Err(why)
                          <==> Refused(env.conv, code, raw, cookies, body, isBase64, why)
  {
    HeadOfConverts(env, code, raw, cookies);
  }

  /** An error record's answer: its status or 502, 502 too if that is no status; its message or "error". */
  lemma ErrorAnswerIs(env: Env, code: Option<nat>, message: Option<string>)
    ensures var resp := env.ErrorAnswer(code, message);
            exists status: nat, text ::
              && IsPlain(env, resp, status, text)
              && text == message.GetOr("error")
              && (env.conv.status(code.GetOr(502)) == Ok(status)
                  || (env.conv.status(code.GetOr(502)).Err? && status == 502))
  {
    var wanted := env.conv.status(code.GetOr(502));
    var status: nat := if wanted.Ok? then wanted.value else 502;
    assert IsPlain(env, env.ErrorAnswer(code, message), status, message.GetOr("error"));
  }
}
