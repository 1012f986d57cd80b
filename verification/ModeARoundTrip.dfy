/**
 From the runtime's handlers to the clients when the proxy does the batching: whatever order workers
 take and complete requests in, the proxy's stream answers every client with its own handler's
 response.
 */
module ModeARoundTrip {
  import opened Prelude
  import opened Framing
  import opened StreamWire
  import opened ClientTrace
  import opened BatchRun
  import opened ChunkIndependence
  import opened BatchAdapter
  import opened StreamRoundTrip
  import opened ProxyMachine
  import opened ProxyBatch

  ghost predicate AllLegacy(records: seq<Record>) {
    forall k :: 0 <= k < |records| ==> records[k].Legacy?
  }

  /** Among records with distinct ids, the arrivals of one id are its single record. */
  lemma {:induction false} OneArrivalEach(records: seq<Record>, sends: nat -> Sends, from: nat, k: nat)
    requires Distinct(RecordIds(records)) && k < |records|
    ensures OnlyFor(Deliver(records, sends, from), records[k].id) == [Arrival(Ok(records[k]), sends(from + k))]
    decreases |records|
  {
    var arrivals := Deliver(records, sends, from);
    assert arrivals[1..] == Deliver(records[1..], sends, from + 1);
    assert forall j :: 0 <= j < |records| - 1 ==> RecordIds(records[1..])[j] == RecordIds(records)[j + 1];
    if k == 0 {
      NoArrival(records[1..], sends, from + 1, records[0].id);
    } else {
      OneArrivalEach(records[1..], sends, from + 1, k - 1);
      assert records[1..][k - 1] == records[k];
    }
  }

  lemma {:induction false} NoArrival(records: seq<Record>, sends: nat -> Sends, from: nat, id: Id)
    requires forall j :: 0 <= j < |records| ==> records[j].id != id
    ensures OnlyFor(Deliver(records, sends, from), id) == []
  {
    if records != [] {
      assert Deliver(records, sends, from)[1..] == Deliver(records[1..], sends, from + 1);
      NoArrival(records[1..], sends, from + 1, id);
    }
  }

  /** The trace of a client answered by one complete record. */
  ghost function AnswerTrace(env: Env, r: Record, listens: bool): seq<Event>
    requires r.Legacy? && Convertible(env, r)
  {
    var resp := env.ResponseOf(r.statusCode, r.headers, r.cookies, r.body, r.isBase64).value;
    [if listens then Response(resp) else Gone, Close]
  }

  lemma OneRecordAnswers(env: Env, r: Record, sends: Sends)
    requires r.Legacy? && Convertible(env, r)
    ensures Run(env, map[r.id := FRESH], [Arrival(Ok(r), sends)])
         == Dispatched(map[r.id := Client(Closed, AnswerTrace(env, r, sends.init))], None)
  {
    var b, trace := map[r.id := FRESH], AnswerTrace(env, r, sends.init);
    var a := Arrival(Ok(r), sends);
    assert [a][1..] == [];
    assert Serve(env, FRESH, r, sends).client.log == [] + trace;
    assert [] + trace == trace;
    var d := DispatchRecord(env, b, r, sends);
    assert d.batch == map[r.id := Client(Closed, trace)];
    assert Run(env, d.batch, []) == Dispatched(d.batch, None);
  }

  /** One convertible record per client of the batch answers exactly those clients. */
  lemma RecordsAnswerBatch(env: Env, records: seq<Record>, ids: set<Id>, sends: nat -> Sends, k: nat)
    requires AllLegacy(records) && AllConvertible(env, records)
    requires Distinct(RecordIds(records)) && ToSet(RecordIds(records)) == ids
    requires k < |records|
    ensures var done := Run(env, map id | id in ids :: FRESH, Deliver(records, sends, 0));
            && done.error.None?
            && records[k].id in done.batch
            && done.batch[records[k].id] == Client(Closed, AnswerTrace(env, records[k], sends(k).init))
  {
    var batch := map id | id in ids :: FRESH;
    assert RecordIds(records)[k] == records[k].id;
    ConvertibleRuns(env, batch, records, sends, 0);
    OneArrivalEach(records, sends, 0, k);
    OneRecordAnswers(env, records[k], sends(k));
    AloneDecides(env, batch, Deliver(records, sends, 0), records[k].id);
  }

  /** A client that was fresh ends as its own arrivals alone make it. */
  lemma AloneDecides(env: Env, batch: Batch, arrivals: seq<Arrival>, id: Id)
    requires id in batch && batch[id] == FRESH && Run(env, batch, arrivals).error.None?
    ensures id in Run(env, batch, arrivals).batch
    ensures var alone := Run(env, map[id := FRESH], OnlyFor(arrivals, id)).batch;
            id in alone && alone[id] == Run(env, batch, arrivals).batch[id]
  {
    NonInterference(env, batch, arrivals, id);
    assert Alone(batch, id) == map[id := FRESH];
  }

  /** A run that fetches a batch and completes it, every accepted completion being its handler's. */
  ghost predicate FinishesBatch(cfg: Config, s: State, virtuals: seq<Virtual>, steps: seq<Step>,
                                handler: Id -> Completion) {
    && Exclusive(s) && Enabled(s, FetchedBatch(virtuals))
    && var begun := Apply(cfg, s, FetchedBatch(virtuals));
       && Runs(cfg, begun, steps) && HandledBy(cfg, begun, steps, handler)
       && After(cfg, begun, steps).active.KhoneFinalizing?
       && After(cfg, begun, steps).epoch == begun.epoch
  }

  /** What has been streamed back by then. */
  ghost function Streamed(cfg: Config, s: State, virtuals: seq<Virtual>, steps: seq<Step>, handler: Id -> Completion)
    : seq<Record>
    requires FinishesBatch(cfg, s, virtuals, steps, handler)
  {
    After(cfg, Apply(cfg, s, FetchedBatch(virtuals)), steps).outer.sent
  }

  /** What the finished stream holds: every request's own record, once. */
  lemma FinishedStream(cfg: Config, s: State, virtuals: seq<Virtual>, steps: seq<Step>, handler: Id -> Completion)
    requires FinishesBatch(cfg, s, virtuals, steps, handler)
    ensures var sent := Streamed(cfg, s, virtuals, steps, handler);
            && Distinct(RecordIds(sent))
            && ToSet(RecordIds(sent)) == ToSet(Ids(virtuals))
            && multiset(RecordIds(sent)) == multiset(Ids(virtuals))
            && (forall k :: 0 <= k < |sent| ==> RecordsCompletion(cfg, sent[k], handler(sent[k].id)))
  {
    var begun := Apply(cfg, s, FetchedBatch(virtuals));
    ExclusiveStep(cfg, s, FetchedBatch(virtuals));
    FreshBatchConserved(cfg, virtuals);
    BatchAlways(cfg, begun, steps);
    SameBatch(cfg, begun, steps);
    AnsweredAlways(cfg, begun, steps, handler);
    var done := After(cfg, begun, steps);
    ClosedStreamIsPermutation(cfg, done);
    var ids := Ids(virtuals);
    assert ids[..|ids|] == ids;
  }

  /** One legacy record per client, encoded and chunked, answers every client of the batch. */
  lemma RecordStreamAnswers(env: Env, encode: Record -> Bytes, records: seq<Record>, ids: set<Id>,
                            items: seq<StreamItem>, sends: nat -> Sends, listens: Id -> bool, k: nat)
    requires AllLegacy(records) && AllConvertible(env, records) && CodecAgrees(env.conv, encode, records)
    requires Distinct(RecordIds(records)) && ToSet(RecordIds(records)) == ids
    requires AllBytes(items) == Unlines(EncodeLines(encode, records)) && Fits([], items)
    requires k < |records|
    ensures var clients := Outcome(env, map id | id in ids :: FRESH, CutStream([], items), sends, listens);
            && clients.Keys == ids
            && records[k].id in clients
            && clients[records[k].id] == Client(Closed, AnswerTrace(env, records[k], sends(k).init))
  {
    var batch := map id | id in ids :: FRESH;
    RecordsAnswerBatch(env, records, ids, sends, k);
    EncodedOutcome(env, batch, encode, records, items, sends, listens);
    EveryTraceCompletes(env, ids, CutStream([], items), sends, listens);
    var done := Run(env, batch, Deliver(records, sends, 0)).batch;
    ClosedStaysClosed(env, done, "missing response record", listens, records[k].id);
  }

  /** The bytes of the stream are the encoded records, and their chunks fit the buffer. */
  ghost predicate Carried(env: Env, encode: Record -> Bytes, records: seq<Record>, items: seq<StreamItem>) {
    CodecAgrees(env.conv, encode, records) && AllBytes(items) == Unlines(EncodeLines(encode, records))
        && Fits([], items)
  }

  /** The response renders what the completion brought: the answer's own fields, or 502 or 500 with nothing. */
  ghost predicate TellsCompletion(env: Env, cfg: Config, kind: Completion, resp: GatewayResponse) {
    match kind
    case ErrorReport => Renders(env, resp, 500, map[], [], "", false)
    case ResponseBody(body) =>
      match cfg.parseAnswer(body)
      case None => Renders(env, resp, 502, map[], [], "", false)
      case Some(a) => Renders(env, resp, a.statusCode, a.headers, a.cookies, a.body, a.isBase64)
  }

  /** The completion can be turned into a response at all. */
  ghost predicate CompletionConverts(env: Env, cfg: Config, kind: Completion) {
    exists resp :: TellsCompletion(env, cfg, kind, resp)
  }

  /** Among exactly the clients ids, this one has been told its own completion, or has left. */
  ghost predicate Told(env: Env, cfg: Config, clients: Batch, ids: set<Id>, id: Id, kind: Completion, listens: bool) {
    && clients.Keys == ids
    && id in clients && clients[id].phase.Closed?
    && |clients[id].log| == 2 && clients[id].log[1] == Close
    && if listens then clients[id].log[0].Response? && TellsCompletion(env, cfg, kind, clients[id].log[0].resp)
       else clients[id].log[0] == Gone
  }

  /** A record converts exactly when the completion it holds does, and is then answered with it. */
  lemma RecordTells(env: Env, cfg: Config, r: Record, kind: Completion)
    requires HoldsCompletion(cfg.parseAnswer, r, kind)
    ensures Convertible(env, r) <==> CompletionConverts(env, cfg, kind)
    ensures Convertible(env, r) ==>
              TellsCompletion(env, cfg, kind,
                              env.ResponseOf(r.statusCode, r.headers, r.cookies, r.body, r.isBase64).value)
  {
    ResponseOfConverts(env, r.statusCode, r.headers, r.cookies, r.body, r.isBase64);
    var resp := env.ResponseOf(r.statusCode, r.headers, r.cookies, r.body, r.isBase64);
    if resp.Ok? {
      assert TellsCompletion(env, cfg, kind, resp.value);
    }
  }

  lemma SentConverts(cfg: Config, env: Env, sent: seq<Record>, ids: seq<Id>, handler: Id -> Completion)
    requires ToSet(RecordIds(sent)) == ToSet(ids)
    requires forall id :: id in ids ==> CompletionConverts(env, cfg, handler(id))
    requires forall k :: 0 <= k < |sent| ==> RecordsCompletion(cfg, sent[k], handler(sent[k].id))
    ensures AllLegacy(sent) && AllConvertible(env, sent)
  {
    forall j | 0 <= j < |sent| ensures sent[j].Legacy? && Convertible(env, sent[j]) {
      assert RecordIds(sent)[j] in ToSet(RecordIds(sent));
      RecordTells(env, cfg, sent[j], handler(sent[j].id));
    }
  }

  /**
   Main result, end to end. For every run of the proxy that finishes a batch - any order of taking
   and completing, with duplicate and unknown completions of any content - and every chunking of its
   encoded stream that fits: every client of the batch is told what its own handler brought, with the
   status, headers, cookies and body of the answer, or has left; none is answered by the missing-response
   fallback.
   */
  lemma ModeAEndToEnd(cfg: Config, s: State, virtuals: seq<Virtual>, steps: seq<Step>, handler: Id -> Completion,
                      env: Env, encode: Record -> Bytes, items: seq<StreamItem>,
                      sends: nat -> Sends, listens: Id -> bool, sent: seq<Record>, k: nat)
    requires FinishesBatch(cfg, s, virtuals, steps, handler) && sent == Streamed(cfg, s, virtuals, steps, handler)
    requires forall id :: id in Ids(virtuals) ==> CompletionConverts(env, cfg, handler(id))
    requires Carried(env, encode, sent, items) && k < |sent|
    ensures ToSet(RecordIds(sent)) == ToSet(Ids(virtuals))
    ensures HoldsCompletion(cfg.parseAnswer, sent[k], handler(sent[k].id))
    ensures var ids := ToSet(Ids(virtuals));
            var clients := Outcome(env, map id | id in ids :: FRESH, CutStream([], items), sends, listens);
            Told(env, cfg, clients, ids, sent[k].id, handler(sent[k].id), sends(k).init)
  {
    FinishedStream(cfg, s, virtuals, steps, handler);
    SentConverts(cfg, env, sent, Ids(virtuals), handler);
    RecordTells(env, cfg, sent[k], handler(sent[k].id));
    RecordStreamAnswers(env, encode, sent, ToSet(Ids(virtuals)), items, sends, listens, k);
  }
}
