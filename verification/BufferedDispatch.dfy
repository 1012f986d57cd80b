/**
 Answering a buffered invocation: one payload carries all the responses, and every pending request is
 answered exactly once whatever the payload holds.
 */
module BufferedDispatch {
  import opened Prelude
  import opened StreamWire

  datatype Item = Item(id: Id, statusCode: nat, headers: RawHeaders, cookies: seq<string>, body: string, isBase64: bool)

  datatype BatchResponse = BatchResponse(v: nat, responses: seq<Item>)

  type Log = seq<(Id, GatewayResponse)>

  // ---------------------------------------------------------------- what is promised

  /** The first item from index k on that answers id. */
  function FirstFor(items: seq<Item>, id: Id, k: nat): Option<Item>
    requires k <= |items|
    decreases |items| - k
  {
    if k == |items| then None
    else if items[k].id == id then Some(items[k])
    else FirstFor(items, id, k + 1)
  }

  function ItemAnswer(env: Env, item: Item): GatewayResponse {
    match env.ResponseOf(item.statusCode, item.headers, item.cookies, item.body, item.isBase64)
    case Ok(r) => r
    case Err(e) => env.TextResponse(BAD_GATEWAY, "bad response: " + e)
  }

  /** The one answer a pending request gets. */
  function Answer(env: Env, decoded: Result<BatchResponse>, id: Id): GatewayResponse {
    match decoded
    case Err(e) => env.TextResponse(BAD_GATEWAY, "decode response: " + e)
    case Ok(batch) =>
      if batch.v != 1 then env.TextResponse(BAD_GATEWAY, "unsupported response version: " + env.conv.show(batch.v))
      else
        match FirstFor(batch.responses, id, 0)
        case Some(item) => ItemAnswer(env, item)
        case None => env.TextResponse(BAD_GATEWAY, "missing response record")
  }

  /** What was sent to id, in order. */
  ghost function SentTo(log: Log, id: Id): seq<GatewayResponse> {
    if log == [] then []
    else SentTo(log[..|log| - 1], id) + if log[|log| - 1].0 == id then [log[|log| - 1].1] else []
  }

  lemma OneMoreSent(log: Log, id: Id, answer: GatewayResponse, other: Id)
    ensures SentTo(log + [(id, answer)], other) == SentTo(log, other) + if other == id then [answer] else []
  {
    assert (log + [(id, answer)])[..|log|] == log;
  }

  // ---------------------------------------------------------------- the dispatcher

  /** Beyond log, the ids in done - and nobody else - have been sent the answer. */
  ghost predicate SentMore(all: Log, log: Log, done: set<Id>, answer: GatewayResponse) {
    forall id :: SentTo(all, id) == SentTo(log, id) + if id in done then [answer] else []
  }

  lemma SendOneMore(all: Log, log: Log, done: set<Id>, answer: GatewayResponse, id: Id)
    requires SentMore(all, log, done, answer) && id !in done
    ensures SentMore(all + [(id, answer)], log, done + {id}, answer)
  {
    forall other
      ensures SentTo(all + [(id, answer)], other) == SentTo(log, other) + if other in done + {id} then [answer] else []
    {
      OneMoreSent(all, id, answer, other);
    }
  }

  /** fail_all_buffered_impl: the same text for every pending request, in any order. */
  method FailAll(pending: set<Id>, answer: GatewayResponse, log: Log) returns (all: Log)
    ensures SentMore(all, log, pending, answer)
  {
    all := log;
    var left := pending;
    while left != {}
      invariant left <= pending && SentMore(all, log, pending - left, answer)
      decreases |left|
    {
      var id :| id in left;
      SendOneMore(all, log, pending - left, answer, id);
      assert pending - left + {id} == pending - (left - {id});
      left := left - {id};
      all := all + [(id, answer)];
    }
    assert pending - left == pending;
  }

  /** Who has been answered by the first k items, and how. */
  ghost predicate AnsweredBy(log: Log, env: Env, items: seq<Item>, k: nat, pending: set<Id>, left: set<Id>)
    requires k <= |items|
  {
    && left <= pending
    && (forall id :: id in left ==> SentTo(log, id) == [] && FirstFor(items, id, 0) == FirstFor(items, id, k))
    && (forall id :: id in pending - left ==>
          FirstFor(items, id, 0).Some? && SentTo(log, id) == [ItemAnswer(env, FirstFor(items, id, 0).value)])
    && (forall id :: id !in pending ==> SentTo(log, id) == [])
  }

  lemma ItemSent(log: Log, env: Env, items: seq<Item>, k: nat, pending: set<Id>, left: set<Id>)
    requires k < |items| && AnsweredBy(log, env, items, k, pending, left) && items[k].id in left
    ensures AnsweredBy(log + [(items[k].id, ItemAnswer(env, items[k]))], env, items, k + 1, pending,
                       left - {items[k].id})
  {
    var answer := ItemAnswer(env, items[k]);
    forall id
      ensures SentTo(log + [(items[k].id, answer)], id) == SentTo(log, id) + if id == items[k].id then [answer] else []
    {
      OneMoreSent(log, items[k].id, answer, id);
    }
  }

  /** Item k is the first that answers id. */
  ghost predicate IsFirst(items: seq<Item>, k: nat, id: Id) {
    k < |items| && items[k].id == id && forall j :: 0 <= j < k ==> items[j].id != id
  }

  /**
   What a pending request must be told, read off the payload: the converted fields of its first item, the
   reason why they do not convert, that there is no item, or why nothing could be read at all.
   */
  ghost predicate Answers(env: Env, decoded: Result<BatchResponse>, id: Id, resp: GatewayResponse) {
    match decoded
    case Err(why) => IsPlain(env, resp, 502, "decode response: " + why)
    case Ok(BatchResponse(v, items)) =>
      && (v != 1 ==> IsPlain(env, resp, 502, "unsupported response version: " + env.conv.show(v)))
      && (v == 1 && (forall k :: 0 <= k < |items| ==> items[k].id != id) ==>
            IsPlain(env, resp, 502, "missing response record"))
      && (v == 1 ==> forall k: nat :: IsFirst(items, k, id) ==> AnswersItem(env, items[k], resp))
  }

  ghost predicate AnswersItem(env: Env, item: Item, resp: GatewayResponse) {
    || Renders(env, resp, item.statusCode, item.headers, item.cookies, item.body, item.isBase64)
    || exists why :: Refused(env.conv, item.statusCode, item.headers, item.cookies, item.body, item.isBase64, why)
                     && IsPlain(env, resp, 502, "bad response: " + why)
  }

  lemma {:induction false} FirstForIsFirst(items: seq<Item>, id: Id, k: nat)
    requires k <= |items| && forall j :: 0 <= j < k ==> items[j].id != id
    ensures FirstFor(items, id, k).None? <==> forall j :: 0 <= j < |items| ==> items[j].id != id
    ensures forall j: nat :: IsFirst(items, j, id) ==> FirstFor(items, id, k) == Some(items[j])
    decreases |items| - k
  {
    if k < |items| && items[k].id != id {
      FirstForIsFirst(items, id, k + 1);
    }
  }

  /** The answer is the one the payload asks for. */
  lemma AnswerAnswers(env: Env, decoded: Result<BatchResponse>, id: Id)
    ensures Answers(env, decoded, id, Answer(env, decoded, id))
  {
    if decoded.Ok? && decoded.value.v == 1 {
      var items := decoded.value.responses;
      FirstForIsFirst(items, id, 0);
      forall k: nat | IsFirst(items, k, id) ensures AnswersItem(env, items[k], Answer(env, decoded, id)) {
        var item := items[k];
        ResponseOfConverts(env, item.statusCode, item.headers, item.cookies, item.body, item.isBase64);
      }
    }
  }

  lemma EachIsAnswered(env: Env, decoded: Result<BatchResponse>, pending: set<Id>, log: Log)
    requires forall id :: SentTo(log, id) == if id in pending then [Answer(env, decoded, id)] else []
    ensures forall id :: id in pending ==> |SentTo(log, id)| == 1 && Answers(env, decoded, id, SentTo(log, id)[0])
  {
    forall id | id in pending ensures |SentTo(log, id)| == 1 && Answers(env, decoded, id, SentTo(log, id)[0]) {
      AnswerAnswers(env, decoded, id);
    }
  }

  /** dispatch_buffered_impl: every pending request gets exactly its one answer, nobody else gets any. */
  method DispatchBuffered(env: Env, decoded: Result<BatchResponse>, pending: set<Id>) returns (log: Log)
    ensures forall id :: SentTo(log, id) == if id in pending then [Answer(env, decoded, id)] else []
    ensures forall id :: id in pending ==> |SentTo(log, id)| == 1 && Answers(env, decoded, id, SentTo(log, id)[0])
  {
    if decoded.Err? {
      log := FailAll(pending, env.TextResponse(BAD_GATEWAY, "decode response: " + decoded.msg), []);
      EachIsAnswered(env, decoded, pending, log);
      return;
    }
    var batch := decoded.value;
    if batch.v != 1 {
      var answer := env.TextResponse(BAD_GATEWAY, "unsupported response version: " + env.conv.show(batch.v));
      log := FailAll(pending, answer, []);
      EachIsAnswered(env, decoded, pending, log);
      return;
    }
    log := [];
    var left := pending;
    for k := 0 to |batch.responses|
      invariant AnsweredBy(log, env, batch.responses, k, pending, left)
    {
      var item := batch.responses[k];
      if item.id in left {
        ItemSent(log, env, batch.responses, k, pending, left);
        left := left - {item.id};
        log := log + [(item.id, ItemAnswer(env, item))];
      }
    }
    log := FailAll(left, env.TextResponse(BAD_GATEWAY, "missing response record"), log);
    EachIsAnswered(env, decoded, pending, log);
  }

  // ---------------------------------------------------------------- requests do not interfere

  ghost function OnlyFor(items: seq<Item>, id: Id): seq<Item> {
    if items == [] then []
    else OnlyFor(items[..|items| - 1], id) + if items[|items| - 1].id == id then [items[|items| - 1]] else []
  }

  lemma {:induction false} FirstOfOwn(items: seq<Item>, id: Id)
    ensures var own := OnlyFor(items, id);
            FirstFor(items, id, 0) == if own == [] then None else Some(own[0])
    decreases |items|
  {
    if items != [] {
      var init, last := items[..|items| - 1], items[|items| - 1];
      FirstOfOwn(init, id);
      FirstOfMore(init, last, id, 0);
      assert init + [last] == items;
    }
  }

  lemma {:induction false} FirstOfMore(items: seq<Item>, last: Item, id: Id, k: nat)
    requires k <= |items|
    ensures FirstFor(items + [last], id, k)
         == if FirstFor(items, id, k).Some? then FirstFor(items, id, k)
            else if last.id == id then Some(last) else None
    decreases |items| - k
  {
    if k < |items| {
      FirstOfMore(items, last, id, k + 1);
    }
  }

  /** Items for other requests, wherever they stand, do not change what a request is answered. */
  lemma AnswersDoNotInterfere(env: Env, a: seq<Item>, b: seq<Item>, id: Id)
    requires OnlyFor(a, id) == OnlyFor(b, id)
    ensures Answer(env, Ok(BatchResponse(1, a)), id) == Answer(env, Ok(BatchResponse(1, b)), id)
  {
    FirstOfOwn(a, id);
    FirstOfOwn(b, id);
  }
}
