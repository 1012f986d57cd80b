/**
 What a client is told about its handler's response, read off the response's own fields: nothing here
 mentions the records in between, nor how they are built.
 */
module BatchAnswer {
  import opened Prelude
  import opened StreamWire
  import opened ClientTrace
  import opened BatchAdapter

  /** Exactly the headers whose name is not blank, each with its value. */
  ghost predicate KeepsNamed(trim: string -> string, headers: RawHeaders, kept: RawHeaders) {
    && (forall name :: name in kept <==> name in headers && trim(name) != "")
    && (forall name :: name in kept ==> kept[name] == headers[name])
  }

  /** The cookies at these places, trimmed; none of them is blank, and every other one is. */
  ghost predicate TrimmedAt(trim: string -> string, cookies: seq<string>, kept: seq<string>, at: seq<nat>) {
    && |at| == |kept| && Ascending(at, |cookies|)
    && (forall j :: 0 <= j < |kept| ==> kept[j] == trim(cookies[at[j]]) && kept[j] != "")
    && (forall k: nat :: k < |cookies| && k !in at ==> trim(cookies[k]) == "")
  }

  /** Exactly the cookies that are not blank, trimmed, in order. */
  ghost predicate KeepsCookies(trim: string -> string, cookies: seq<string>, kept: seq<string>) {
    exists at :: TrimmedAt(trim, cookies, kept, at)
  }

  ghost predicate PieceIs(env: Env, piece: ResponseChunk, isBase64: bool, bytes: Bytes) {
    match piece
    case TextChunk(text) => env.conv.decode(text, isBase64) == Ok(bytes)
    case BinaryChunk(b) => bytes == b
  }

  /** The body sent in one piece: its text decoded as the handler says, its bytes as they are. */
  ghost predicate BodyIs(env: Env, body: ResponseBody, isBase64: bool, bytes: Bytes) {
    match body
    case EmptyBody => env.conv.decode("", isBase64) == Ok(bytes)
    case TextBody(text) => env.conv.decode(text, isBase64) == Ok(bytes)
    case BinaryBody(b) => bytes == b
    case StreamedBody(_) => false
  }

  /** The body sent in pieces: nothing for an empty body, one piece for a plain one, every chunk of a stream. */
  ghost predicate PiecesAre(env: Env, body: ResponseBody, isBase64: bool, events: seq<Event>) {
    match body
    case EmptyBody => events == []
    case TextBody(text) => |events| == 1 && events[0].Chunk? && env.conv.decode(text, isBase64) == Ok(events[0].bytes)
    case BinaryBody(b) => events == [Chunk(b)]
    case StreamedBody(chunks) =>
      && |events| == |chunks|
      && forall k :: 0 <= k < |chunks| ==> events[k].Chunk? && PieceIs(env, chunks[k], isBase64, events[k].bytes)
  }

  /** The plain 500 of the one-record mode, for a handler that failed or that answers with a stream. */
  ghost predicate IsInternalError(env: Env, log: seq<Event>) {
    && |log| == 2 && log[0].Response? && log[1] == Close
    && Renders(env, log[0].resp, 500, map["content-type" := "text/plain"], [], "internal error", false)
  }

  /** The handler failed while its answer was streamed: the message as text, under 500 or whatever stands for it. */
  ghost predicate IsStreamError(env: Env, log: seq<Event>) {
    && |log| == 2 && log[0].Response? && log[1] == Close
    && var status := log[0].resp.status;
       && (env.conv.status(500) == Ok(status) || (env.conv.status(500).Err? && status == 502))
       && IsPlain(env, log[0].resp, status, "internal error")
  }

  /** The response's status, its named headers and its cookies that are not blank, and its body. */
  ghost predicate TellsResponse(env: Env, interleaved: bool, resp: HandlerResponse, raw: RawHeaders,
                                cookies: seq<string>, log: seq<Event>) {
    var code := if resp.statusCode == 0 then 200 else resp.statusCode;
    && |log| >= 2 && log[|log| - 1] == Close
    && if interleaved then
         && log[0].Head? && Opens(env, log[0].head, code, raw, cookies)
         && PiecesAre(env, resp.body, resp.isBase64, log[1..|log| - 1])
       else
         && |log| == 2 && log[0].Response?
         && HeadConverts(env.conv, code, raw, cookies, log[0].resp.status, log[0].resp.headers)
         && BodyIs(env, resp.body, resp.isBase64, log[0].resp.body)
         && log[0].resp.batchSize == env.batchSize && log[0].resp.waitMs == env.waitMs
  }

  /** All that a client whose handler ended like this receives. */
  ghost predicate TellsAnswer(env: Env, trim: string -> string, interleaved: bool, result: HandlerResult,
                              log: seq<Event>) {
    match result
    case HandlerFailed => if interleaved then IsStreamError(env, log) else IsInternalError(env, log)
    case Returned(resp) =>
      if !interleaved && resp.body.StreamedBody? then IsInternalError(env, log)
      else
        exists raw, cookies :: KeepsNamed(trim, resp.headers, raw) && KeepsCookies(trim, resp.cookies, cookies)
                               && TellsResponse(env, interleaved, resp, raw, cookies, log)
  }

  // ---------------------------------------------------------------- the expected trace tells it

  lemma {:induction false} OneMoreCookie(lib: Library, cookies: seq<string>, cookie: string)
    ensures lib.CookiesOf(cookies + [cookie])
         == lib.CookiesOf(cookies) + if lib.trim(cookie) == "" then [] else [lib.trim(cookie)]
  {
    var all := cookies + [cookie];
    if cookies == [] {
      assert all[1..] == [];
    } else {
      assert all[1..] == cookies[1..] + [cookie];
      OneMoreCookie(lib, cookies[1..], cookie);
    }
  }

  lemma KeepOneMore(trim: string -> string, cookies: seq<string>, cookie: string, kept: seq<string>, at: seq<nat>)
    requires TrimmedAt(trim, cookies, kept, at)
    ensures trim(cookie) == "" ==> TrimmedAt(trim, cookies + [cookie], kept, at)
    ensures trim(cookie) != "" ==> TrimmedAt(trim, cookies + [cookie], kept + [trim(cookie)], at + [|cookies|])
  {
    var all, at' := cookies + [cookie], at + [|cookies|];
    forall k: nat | k < |all| && k !in at' ensures trim(all[k]) == "" {
      assert at' == at + [|cookies|] && at'[|at|] == |cookies|;
    }
    if trim(cookie) == "" {
      forall k: nat | k < |all| && k !in at ensures trim(all[k]) == "" {
      }
    }
  }

  lemma {:induction false} CookiesAreKept(lib: Library, cookies: seq<string>) returns (at: seq<nat>)
    ensures TrimmedAt(lib.trim, cookies, lib.CookiesOf(cookies), at)
    decreases |cookies|
  {
    if cookies == [] {
      at := [];
    } else {
      var init, last := cookies[..|cookies| - 1], cookies[|cookies| - 1];
      assert cookies == init + [last];
      at := CookiesAreKept(lib, init);
      KeepOneMore(lib.trim, init, last, lib.CookiesOf(init), at);
      OneMoreCookie(lib, init, last);
      if lib.trim(last) == "" {
        assert lib.CookiesOf(init) + [] == lib.CookiesOf(init);
      } else {
        at := at + [|init|];
      }
    }
  }

  lemma {:induction false} PieceEventsAre(env: Env, lib: Library, id: Id, pieces: seq<ResponseChunk>, isBase64: bool)
    requires Base64RoundTrips(env, lib) && AllConvertible(env, lib.Chunks(id, pieces, isBase64))
    ensures var events := PieceEvents(env, pieces, isBase64);
            && |events| == |pieces|
            && forall k :: 0 <= k < |events| ==> events[k].Chunk? && PieceIs(env, pieces[k], isBase64, events[k].bytes)
  {
    if pieces != [] {
      var records := lib.Chunks(id, pieces, isBase64);
      assert Convertible(env, records[0]);
      assert records[1..] == lib.Chunks(id, pieces[1..], isBase64);
      PieceEventsAre(env, lib, id, pieces[1..], isBase64);
    }
  }

  lemma HeadersAreKept(lib: Library, resp: HandlerResponse)
    ensures KeepsNamed(lib.trim, resp.headers, lib.HeadersOf(resp))
  {
  }

  /** The head record of a handler's response opens with its status, named headers and cookies. */
  lemma OwnHead(env: Env, lib: Library, id: Id, resp: HandlerResponse)
    requires Convertible(env, lib.Head(id, resp))
    ensures var raw, cookies := lib.HeadersOf(resp), lib.CookiesOf(resp.cookies);
            && KeepsNamed(lib.trim, resp.headers, raw) && KeepsCookies(lib.trim, resp.cookies, cookies)
            && var head := env.HeadOf(lib.StatusOf(resp), raw, cookies);
               head.Ok? && Opens(env, head.value, if resp.statusCode == 0 then 200 else resp.statusCode, raw, cookies)
  {
    HeadersAreKept(lib, resp);
    var at := CookiesAreKept(lib, resp.cookies);
    HeadOfConverts(env, lib.StatusOf(resp), lib.HeadersOf(resp), lib.CookiesOf(resp.cookies));
  }

  lemma StreamTells(env: Env, lib: Library, id: Id, resp: HandlerResponse)
    requires Base64RoundTrips(env, lib) && AllConvertible(env, lib.RequestRecords(true, id, Returned(resp)))
    ensures TellsAnswer(env, lib.trim, true, Returned(resp), ExpectedTrace(env, lib, true, Returned(resp)))
  {
    var records := lib.RequestRecords(true, id, Returned(resp));
    var pieces := lib.Pieces(resp);
    var chunks := lib.Chunks(id, pieces, resp.isBase64);
    assert Convertible(env, records[0]);
    OwnHead(env, lib, id, resp);
    assert AllConvertible(env, chunks) by {
      forall k | 0 <= k < |chunks| ensures Convertible(env, chunks[k]) {
        assert records[k + 1] == chunks[k];
      }
    }
    PieceEventsAre(env, lib, id, pieces, resp.isBase64);
    var log := ExpectedTrace(env, lib, true, Returned(resp));
    assert log[1..|log| - 1] == PieceEvents(env, pieces, resp.isBase64);
    assert TellsResponse(env, true, resp, lib.HeadersOf(resp), lib.CookiesOf(resp.cookies), log);
  }

  lemma LegacyTells(env: Env, lib: Library, id: Id, resp: HandlerResponse)
    requires Base64RoundTrips(env, lib) && Convertible(env, lib.LegacyRecord(id, Returned(resp)))
    ensures TellsAnswer(env, lib.trim, false, Returned(resp), ExpectedTrace(env, lib, false, Returned(resp)))
  {
    var r := lib.LegacyRecord(id, Returned(resp));
    ResponseOfConverts(env, r.statusCode, r.headers, r.cookies, r.body, r.isBase64);
    if !resp.body.StreamedBody? {
      HeadersAreKept(lib, resp);
      var at := CookiesAreKept(lib, resp.cookies);
      HeadOfConverts(env, r.statusCode, r.headers, r.cookies);
      var log := ExpectedTrace(env, lib, false, Returned(resp));
      assert TellsResponse(env, false, resp, r.headers, r.cookies, log);
    }
  }

  lemma FailureTells(env: Env, lib: Library, interleaved: bool, id: Id)
    requires AllConvertible(env, lib.RequestRecords(interleaved, id, HandlerFailed))
    ensures TellsAnswer(env, lib.trim, interleaved, HandlerFailed, ExpectedTrace(env, lib, interleaved, HandlerFailed))
  {
    var r := lib.RequestRecords(interleaved, id, HandlerFailed)[0];
    assert Convertible(env, r);
    if interleaved {
      ErrorAnswerIs(env, Some(500), Some("internal error"));
    } else {
      ResponseOfConverts(env, r.statusCode, r.headers, r.cookies, r.body, r.isBase64);
    }
  }

  /**
   Whatever the handler returned, the trace built from its records tells its client the handler's own
   status, headers, cookies and body.
   */
  lemma TraceTells(env: Env, lib: Library, interleaved: bool, id: Id, result: HandlerResult)
    requires Base64RoundTrips(env, lib) && AllConvertible(env, lib.RequestRecords(interleaved, id, result))
    ensures TellsAnswer(env, lib.trim, interleaved, result, ExpectedTrace(env, lib, interleaved, result))
  {
    var records := lib.RequestRecords(interleaved, id, result);
    match result
    case HandlerFailed => FailureTells(env, lib, interleaved, id);
    case Returned(resp) =>
      if interleaved {
        StreamTells(env, lib, id, resp);
      } else {
        assert Convertible(env, records[0]);
        LegacyTells(env, lib, id, resp);
      }
  }
}
