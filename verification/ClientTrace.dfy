/**
 One waiting client, seen alone: what it can still receive, what it has received, and how one
 record changes that. The dispatcher serves many clients out of one mutable map; this automaton is
 the specification it is proved against, and it mentions no other client.
 */
module ClientTrace {
  import opened Prelude
  import opened StreamWire

  datatype Event =
    | Head(head: StreamHead)          // the response starts streaming
    | Chunk(bytes: Bytes)             // one piece of the body
    | Response(resp: GatewayResponse) // a complete response
    | Dropped                         // the init sender was dropped without sending
    | Gone                            // a send failed: the client no longer listens
    | Close                           // the body sender was dropped

  /** Waiting: nothing sent yet. Streaming: the head was sent. Closed: no longer pending. */
  datatype Phase = Waiting | Streaming | Closed

  datatype Client = Client(phase: Phase, log: seq<Event>)

  const FRESH: Client := Client(Waiting, [])

  /** Whether the client still listens when its init or its body channel is used. */
  datatype Sends = Sends(init: bool, body: bool)

  datatype ServeStep = ServeStep(client: Client, error: Option<string>)

  function Answer(c: Client, resp: GatewayResponse, listens: bool): Client {
    Client(Closed, c.log + [if listens then Response(resp) else Gone, Close])
  }

  /** Dropping a pending entry: an unused init is dropped unsent, and the body closes. */
  function HangUp(c: Client): Client {
    Client(Closed, c.log + if c.phase.Waiting? then [Dropped, Close] else [Close])
  }

  function SendHead(env: Env, c: Client, status: nat, raw: RawHeaders, cookies: seq<string>, listens: bool): ServeStep {
    if !c.phase.Waiting? then ServeStep(c, None)
    else
      match env.HeadOf(status, raw, cookies)
      case Err(e) => ServeStep(HangUp(c), Some(e))
      case Ok(head) =>
        if listens then ServeStep(Client(Streaming, c.log + [Head(head)]), None)
        else ServeStep(Client(Closed, c.log + [Gone, Close]), None)
  }

  function SendChunk(env: Env, c: Client, text: string, isBase64: bool, listens: bool): ServeStep {
    match env.conv.decode(text, isBase64)
    case Err(e) => ServeStep(HangUp(c), Some("bad chunk body: " + e))
    case Ok(bytes) =>
      if listens then ServeStep(c.(log := c.log + [Chunk(bytes)]), None)
      else ServeStep(Client(Closed, c.log + [Gone, Close]), None)
  }

  /** How a pending client is served by a record that carries its id. */
  function Serve(env: Env, c: Client, r: Record, sends: Sends): ServeStep
    requires !c.phase.Closed?
  {
    match r
    case Legacy(_, _, statusCode, headers, cookies, body, isBase64) =>
      (match env.ResponseOf(statusCode, headers, cookies, body, isBase64)
       case Err(e) => ServeStep(HangUp(c), Some("bad response: " + e))
       case Ok(resp) => ServeStep(if c.phase.Waiting? then Answer(c, resp, sends.init) else HangUp(c), None))
    case Interleaved(_, _, HeadRecord, code, headers, cookies, _, _, _) =>
      SendHead(env, c, if code.Some? then code.value else 200, headers, cookies, sends.init)
    case Interleaved(_, _, ChunkRecord, _, _, _, text, isBase64, _) =>
      ServeChunk(env, c, if text.Some? then text.value else "", isBase64, sends)
    case Interleaved(_, _, EndRecord, _, _, _, _, _, _) =>
      ServeEnd(env, c, sends)
    case Interleaved(_, _, ErrorRecord, code, _, _, _, _, message) =>
      ServeStep(if c.phase.Waiting? then Answer(c, env.ErrorAnswer(code, message), sends.init) else HangUp(c), None)
  }

  /** A chunk opens the response with a default head when none was sent. */
  function ServeChunk(env: Env, c: Client, text: string, isBase64: bool, sends: Sends): ServeStep {
    var begun := SendHead(env, c, 200, map[], [], sends.init);
    if begun.client.phase.Closed? then begun
    else SendChunk(env, begun.client, text, isBase64, sends.body)
  }

  function ServeEnd(env: Env, c: Client, sends: Sends): ServeStep {
    var begun := SendHead(env, c, 200, map[], [], sends.init);
    if begun.client.phase.Closed? then begun else ServeStep(HangUp(begun.client), None)
  }

  /** How a client is resolved when the whole stream is over or has failed. */
  function Resolve(env: Env, c: Client, msg: string, listens: bool): Client {
    match c.phase
    case Closed => c
    case Waiting => Answer(c, env.TextResponse(BAD_GATEWAY, msg), listens)
    case Streaming => HangUp(c)
  }

  // ---------------------------------------------------------------- the trace grammar

  /** Head Chunk* */
  ghost predicate IsBody(log: seq<Event>) {
    |log| > 0 && log[0].Head? && forall k :: 0 < k < |log| ==> log[k].Chunk?
  }

  /** (Response | Dropped | Gone | Head Chunk* | Head Chunk* Gone) Close */
  ghost predicate IsComplete(log: seq<Event>) {
    && |log| > 1
    && log[|log| - 1].Close?
    && var said := log[..|log| - 1];
       || (|said| == 1 && (said[0].Response? || said[0].Dropped? || said[0].Gone?))
       || IsBody(said)
       || (said[|said| - 1].Gone? && IsBody(said[..|said| - 1]))
  }

  ghost predicate FollowsGrammar(c: Client) {
    match c.phase
    case Waiting => c.log == []
    case Streaming => IsBody(c.log)
    case Closed => IsComplete(c.log)
  }

  /** What one event handler must keep: the grammar, the log so far, and errors only on a closed client. */
  ghost predicate Extends(c: Client, s: ServeStep) {
    && FollowsGrammar(s.client)
    && c.log <= s.client.log
    && (s.error.Some? ==> s.client.phase.Closed?)
  }

  lemma CloseBody(log: seq<Event>, tail: seq<Event>)
    requires IsBody(log)
    requires tail == [Close] || tail == [Gone, Close]
    ensures IsComplete(log + tail)
  {
    var all := log + tail;
    assert all[..|log|] == log;
    if |tail| == 2 {
      assert all[..|all| - 1][..|log|] == log;
    }
  }

  lemma CloseAtOnce(said: Event)
    requires said.Response? || said.Dropped? || said.Gone?
    ensures IsComplete([said, Close])
  {
    assert [said, Close][..1] == [said];
  }

  lemma AnswerExtends(c: Client, resp: GatewayResponse, listens: bool)
    requires c.phase.Waiting? && FollowsGrammar(c)
    ensures Extends(c, ServeStep(Answer(c, resp, listens), None))
  {
    var said := if listens then Response(resp) else Gone;
    CloseAtOnce(said);
    assert Answer(c, resp, listens).log == [said, Close];
  }

  lemma HangUpExtends(c: Client, error: Option<string>)
    requires FollowsGrammar(c) && !c.phase.Closed?
    ensures Extends(c, ServeStep(HangUp(c), error))
  {
    if c.phase.Streaming? {
      CloseBody(c.log, [Close]);
    } else {
      CloseAtOnce(Dropped);
      assert HangUp(c).log == [Dropped, Close];
    }
  }

  lemma SendHeadExtends(env: Env, c: Client, status: nat, raw: RawHeaders, cookies: seq<string>, listens: bool)
    requires FollowsGrammar(c) && !c.phase.Closed?
    ensures Extends(c, SendHead(env, c, status, raw, cookies, listens))
    ensures !SendHead(env, c, status, raw, cookies, listens).client.phase.Waiting?
  {
    if c.phase.Waiting? {
      HangUpExtends(c, None);
      CloseAtOnce(Gone);
      assert c.log + [Gone, Close] == [Gone, Close];
    }
  }

  lemma SendChunkExtends(env: Env, c: Client, text: string, isBase64: bool, listens: bool)
    requires FollowsGrammar(c) && c.phase.Streaming?
    ensures Extends(c, SendChunk(env, c, text, isBase64, listens))
  {
    CloseBody(c.log, [Close]);
    CloseBody(c.log, [Gone, Close]);
  }

  /** Every record keeps the grammar, whatever it says and whether or not the client listens. */
  lemma ServeFollowsGrammar(env: Env, c: Client, r: Record, sends: Sends)
    requires FollowsGrammar(c) && !c.phase.Closed?
    ensures Extends(c, Serve(env, c, r, sends))
  {
    match r
    case Legacy(_, _, statusCode, headers, cookies, body, isBase64) =>
      HangUpExtends(c, None);
      match env.ResponseOf(statusCode, headers, cookies, body, isBase64) {
        case Err(e) => HangUpExtends(c, Some("bad response: " + e));
        case Ok(resp) => if c.phase.Waiting? { AnswerExtends(c, resp, sends.init); }
      }
    case Interleaved(_, _, HeadRecord, code, headers, cookies, _, _, _) =>
      SendHeadExtends(env, c, if code.Some? then code.value else 200, headers, cookies, sends.init);
    case Interleaved(_, _, ChunkRecord, _, _, _, text, isBase64, _) =>
      var begun := SendHead(env, c, 200, map[], [], sends.init);
      SendHeadExtends(env, c, 200, map[], [], sends.init);
      if !begun.client.phase.Closed? {
        SendChunkExtends(env, begun.client, if text.Some? then text.value else "", isBase64, sends.body);
      }
    case Interleaved(_, _, EndRecord, _, _, _, _, _, _) =>
      var begun := SendHead(env, c, 200, map[], [], sends.init);
      SendHeadExtends(env, c, 200, map[], [], sends.init);
      if !begun.client.phase.Closed? {
        HangUpExtends(begun.client, None);
      }
    case Interleaved(_, _, ErrorRecord, code, _, _, _, _, message) =>
      if c.phase.Waiting? { AnswerExtends(c, env.ErrorAnswer(code, message), sends.init); }
      else { HangUpExtends(c, None); }
  }

  lemma ResolveFollowsGrammar(env: Env, c: Client, msg: string, listens: bool)
    requires FollowsGrammar(c)
    ensures Extends(c, ServeStep(Resolve(env, c, msg, listens), None))
    ensures Resolve(env, c, msg, listens).phase.Closed?
  {
    match c.phase
    case Closed =>
    case Waiting => AnswerExtends(c, env.TextResponse(BAD_GATEWAY, msg), listens);
    case Streaming => HangUpExtends(c, None);
  }
}
