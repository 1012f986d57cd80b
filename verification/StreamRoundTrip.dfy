/**
 From the handlers to the clients: the adapter's merged record stream, encoded line by line, cut
 into arbitrary chunks and dispatched, gives every client exactly its own handler's answer.
 */
module StreamRoundTrip {
  import opened Prelude
  import opened Framing
  import opened StreamWire
  import opened ClientTrace
  import opened BatchRun
  import opened ChunkIndependence
  import opened ConcurrentSelect
  import opened BatchAdapter
  import opened BatchAnswer

  /** JSON as both sides use it: the record is encoded as one clean line, and parsing gives it back. */
  ghost predicate CleanLine(conv: Conversions, encode: Record -> Bytes, r: Record) {
    var line := encode(r);
    conv.parse(line) == Ok(r) && line != [] && NoNewline(line) && line[|line| - 1] != CR
  }

  ghost predicate CodecAgrees(conv: Conversions, encode: Record -> Bytes, records: seq<Record>) {
    forall k :: 0 <= k < |records| ==> CleanLine(conv, encode, records[k])
  }

  function EncodeLines(encode: Record -> Bytes, records: seq<Record>): seq<Bytes> {
    if records == [] then [] else [encode(records[0])] + EncodeLines(encode, records[1..])
  }

  /** Every record with its send fate, as if the bytes in between did not exist. */
  ghost function Deliver(records: seq<Record>, sends: nat -> Sends, k: nat): seq<Arrival> {
    if records == [] then [] else [Arrival(Ok(records[0]), sends(k))] + Deliver(records[1..], sends, k + 1)
  }

  lemma {:induction false} EncodedArrives(conv: Conversions, encode: Record -> Bytes, records: seq<Record>,
                                          sends: nat -> Sends, k: nat)
    requires CodecAgrees(conv, encode, records)
    ensures Arrive(conv, EncodeLines(encode, records), sends, k) == Deliver(records, sends, k)
    ensures NoNewlines(EncodeLines(encode, records))
  {
    if records != [] {
      var line := encode(records[0]);
      assert CleanLine(conv, encode, records[0]);
      EncodedArrives(conv, encode, records[1..], sends, k + 1);
      assert StripCr(line) == line;
      var lines := [line] + EncodeLines(encode, records[1..]);
      assert lines[1..] == EncodeLines(encode, records[1..]);
      forall j | 0 <= j < |lines| ensures NoNewline(lines[j]) {
        assert j > 0 ==> lines[j] == lines[1..][j - 1];
      }
    }
  }

  lemma EncodedSplits(conv: Conversions, encode: Record -> Bytes, records: seq<Record>)
    requires CodecAgrees(conv, encode, records)
    ensures Lines(Unlines(EncodeLines(encode, records))) == EncodeLines(encode, records)
    ensures Residual(Unlines(EncodeLines(encode, records))) == []
  {
    var lines := EncodeLines(encode, records);
    EncodedArrives(conv, encode, records, _ => Sends(true, true), 0);
    SplitUnique(lines, []);
    assert Unlines(lines) + [] == Unlines(lines);
  }

  lemma EncodedRead(env: Env, b: Batch, encode: Record -> Bytes, records: seq<Record>, sends: nat -> Sends)
    requires CodecAgrees(env.conv, encode, records)
    requires Run(env, b, Deliver(records, sends, 0)).error.None?
    ensures Read(env, b, Cut(Unlines(EncodeLines(encode, records)), Eof), sends)
         == Verdict(Run(env, b, Deliver(records, sends, 0)).batch, "missing response record")
  {
    EncodedArrives(env.conv, encode, records, sends, 0);
    EncodedSplits(env.conv, encode, records);
    assert ArriveTail(env.conv, [], sends, |Deliver(records, sends, 0)|) == [];
  }

  /** Lines out, lines in: an encoded stream that fits reaches the dispatcher record by record. */
  lemma EncodedOutcome(env: Env, b: Batch, encode: Record -> Bytes, records: seq<Record>,
                       items: seq<StreamItem>, sends: nat -> Sends, listens: Id -> bool)
    requires CodecAgrees(env.conv, encode, records)
    requires AllBytes(items) == Unlines(EncodeLines(encode, records)) && Fits([], items)
    requires Run(env, b, Deliver(records, sends, 0)).error.None?
    ensures Outcome(env, b, CutStream([], items), sends, listens)
         == ResolveAll(env, Run(env, b, Deliver(records, sends, 0)).batch, "missing response record", listens)
  {
    ReadToTheEnd([], items);
    assert [] + AllBytes(items) == AllBytes(items);
    EncodedRead(env, b, encode, records, sends);
  }

  /** A convertible record never fails the stream. */
  lemma ConvertibleServes(env: Env, b: Batch, r: Record, sends: Sends)
    requires Convertible(env, r)
    ensures DispatchRecord(env, b, r, sends).error.None?
  {
  }

  lemma {:induction false} ConvertibleRuns(env: Env, b: Batch, records: seq<Record>, sends: nat -> Sends, k: nat)
    requires AllConvertible(env, records)
    ensures Run(env, b, Deliver(records, sends, k)).error.None?
  {
    if records != [] {
      var arrivals := Deliver(records, sends, k);
      ConvertibleServes(env, b, records[0], sends(k));
      assert arrivals[1..] == Deliver(records[1..], sends, k + 1);
      ConvertibleRuns(env, DispatchRecord(env, b, records[0], sends(k)).batch, records[1..], sends, k + 1);
    }
  }

  // ---------------------------------------------------------------- one client's own records

  ghost predicate AllSendsWork(arrivals: seq<Arrival>) {
    forall k :: 0 <= k < |arrivals| ==> arrivals[k].sends == Sends(true, true)
  }

  ghost predicate Carries(arrivals: seq<Arrival>, records: seq<Record>) {
    |arrivals| == |records| && forall k :: 0 <= k < |records| ==> arrivals[k].record == Ok(records[k])
  }

  /** One chunk of a streaming client's body. */
  lemma OwnChunk(env: Env, lib: Library, id: Id, pieces: seq<ResponseChunk>, isBase64: bool, log: seq<Event>)
    requires Base64RoundTrips(env, lib) && pieces != []
    requires Convertible(env, lib.Chunks(id, pieces, isBase64)[0])
    ensures var r := lib.Chunks(id, pieces, isBase64)[0];
            var log' := log + [Chunk(PieceBytes(env, pieces[0], isBase64).GetOr([]))];
            DispatchRecord(env, map[id := Client(Streaming, log)], r, Sends(true, true))
              == Dispatched(map[id := Client(Streaming, log')], None)
  {
    var b, log' := map[id := Client(Streaming, log)], log + [Chunk(PieceBytes(env, pieces[0], isBase64).GetOr([]))];
    assert b[id := Client(Streaming, log')] == map[id := Client(Streaming, log')];
  }

  lemma {:induction false} OwnChunks(env: Env, lib: Library, id: Id, pieces: seq<ResponseChunk>, isBase64: bool,
                                     log: seq<Event>, arrivals: seq<Arrival>)
    requires Base64RoundTrips(env, lib)
    requires AllConvertible(env, lib.Chunks(id, pieces, isBase64))
    requires Carries(arrivals, lib.Chunks(id, pieces, isBase64)) && AllSendsWork(arrivals)
    ensures Run(env, map[id := Client(Streaming, log)], arrivals)
         == Dispatched(map[id := Client(Streaming, log + PieceEvents(env, pieces, isBase64))], None)
    decreases |pieces|
  {
    if pieces == [] {
      assert log + [] == log;
    } else {
      var records := lib.Chunks(id, pieces, isBase64);
      assert records[1..] == lib.Chunks(id, pieces[1..], isBase64);
      var log' := log + [Chunk(PieceBytes(env, pieces[0], isBase64).GetOr([]))];
      OwnChunk(env, lib, id, pieces, isBase64, log);
      OwnChunks(env, lib, id, pieces[1..], isBase64, log', arrivals[1..]);
      assert log' + PieceEvents(env, pieces[1..], isBase64) == log + PieceEvents(env, pieces, isBase64);
    }
  }

  /** Head, body and end of a streamed answer. */
  lemma OwnStream(env: Env, lib: Library, id: Id, resp: HandlerResponse, head: Arrival, body: seq<Arrival>,
                  end: Arrival)
    requires Base64RoundTrips(env, lib)
    requires Convertible(env, lib.Head(id, resp)) && Convertible(env, lib.End(id))
    requires AllConvertible(env, lib.Chunks(id, lib.Pieces(resp), resp.isBase64))
    requires head == Arrival(Ok(lib.Head(id, resp)), Sends(true, true))
    requires end == Arrival(Ok(lib.End(id)), Sends(true, true))
    requires Carries(body, lib.Chunks(id, lib.Pieces(resp), resp.isBase64)) && AllSendsWork(body)
    ensures Run(env, map[id := FRESH], [head] + (body + [end]))
         == Dispatched(map[id := Client(Closed, ExpectedTrace(env, lib, true, Returned(resp)))], None)
  {
    var begun := env.HeadOf(lib.StatusOf(resp), lib.HeadersOf(resp), lib.CookiesOf(resp.cookies));
    var log := [ClientTrace.Head(begun.value)];
    var full := log + PieceEvents(env, lib.Pieces(resp), resp.isBase64);
    var waiting, streaming := map[id := FRESH], map[id := Client(Streaming, log)];
    var done := map[id := Client(Streaming, full)];
    assert ([head] + (body + [end]))[1..] == body + [end];
    assert Serve(env, FRESH, lib.Head(id, resp), Sends(true, true)).client.log == log;
    assert waiting[id := Client(Streaming, log)] == streaming;
    OwnChunks(env, lib, id, lib.Pieces(resp), resp.isBase64, log, body);
    RunConcat(env, streaming, body, [end]);
    OneLast(env, done, [end], lib.End(id));
    assert done[id := Client(Closed, full + [Close])] == map[id := Client(Closed, full + [Close])];
  }

  /** An answer of one record. */
  lemma OwnRecord(env: Env, lib: Library, interleaved: bool, id: Id, result: HandlerResult, arrivals: seq<Arrival>)
    requires !interleaved || result.HandlerFailed?
    requires Base64RoundTrips(env, lib)
    requires AllConvertible(env, lib.RequestRecords(interleaved, id, result))
    requires Carries(arrivals, lib.RequestRecords(interleaved, id, result)) && AllSendsWork(arrivals)
    ensures Run(env, map[id := FRESH], arrivals)
         == Dispatched(map[id := Client(Closed, ExpectedTrace(env, lib, interleaved, result))], None)
  {
    var records := lib.RequestRecords(interleaved, id, result);
    var r := records[0];
    assert records == [r] && Convertible(env, r);
    OneLast(env, map[id := FRESH], arrivals, r);
    var trace := ExpectedTrace(env, lib, interleaved, result);
    assert Serve(env, FRESH, r, Sends(true, true)).client.log == [] + trace;
    assert [] + trace == trace;
    assert map[id := FRESH][id := Client(Closed, trace)] == map[id := Client(Closed, trace)];
  }

  /** The ends and the middle of a sequence that is given in three parts. */
  lemma ThreeParts(env: Env, arrivals: seq<Arrival>, first: Record, mid: seq<Record>, last: Record, k: nat)
    requires Carries(arrivals, [first] + mid + [last]) && AllConvertible(env, [first] + mid + [last]) && k < |mid| + 2
    ensures var r := if k == 0 then first else if k == |mid| + 1 then last else mid[k - 1];
            arrivals[k].record == Ok(r) && Convertible(env, r)
  {
    var records := [first] + mid + [last];
    assert records[k] == if k == 0 then first else if k == |mid| + 1 then last else mid[k - 1];
  }

  /** Arrivals of a first record, some in the middle, and a last one. */
  lemma SplitArrivals(env: Env, arrivals: seq<Arrival>, first: Record, mid: seq<Record>, last: Record)
    requires Carries(arrivals, [first] + mid + [last]) && AllSendsWork(arrivals)
    requires AllConvertible(env, [first] + mid + [last])
    ensures Convertible(env, first) && AllConvertible(env, mid) && Convertible(env, last)
    ensures var n := |mid| + 1;
            && |arrivals| == n + 1
            && arrivals[0] == Arrival(Ok(first), Sends(true, true))
            && arrivals[n] == Arrival(Ok(last), Sends(true, true))
            && Carries(arrivals[1..n], mid) && AllSendsWork(arrivals[1..n])
            && arrivals == [arrivals[0]] + (arrivals[1..n] + [arrivals[n]])
  {
    var n := |mid| + 1;
    ThreeParts(env, arrivals, first, mid, last, 0);
    ThreeParts(env, arrivals, first, mid, last, n);
    forall k | 0 <= k < |mid| ensures arrivals[1..n][k].record == Ok(mid[k]) && Convertible(env, mid[k]) {
      ThreeParts(env, arrivals, first, mid, last, k + 1);
    }
  }

  /** Alone and listening, a client receives exactly its handler's answer. */
  lemma OwnAnswer(env: Env, lib: Library, interleaved: bool, id: Id, result: HandlerResult, arrivals: seq<Arrival>)
    requires Base64RoundTrips(env, lib)
    requires AllConvertible(env, lib.RequestRecords(interleaved, id, result))
    requires Carries(arrivals, lib.RequestRecords(interleaved, id, result)) && AllSendsWork(arrivals)
    ensures Run(env, map[id := FRESH], arrivals)
         == Dispatched(map[id := Client(Closed, ExpectedTrace(env, lib, interleaved, result))], None)
    ensures TellsAnswer(env, lib.trim, interleaved, result, Run(env, map[id := FRESH], arrivals).batch[id].log)
  {
    TraceTells(env, lib, interleaved, id, result);
    if interleaved && result.Returned? {
      var resp := result.resp;
      var records := lib.RequestRecords(interleaved, id, result);
      var chunks := lib.Chunks(id, lib.Pieces(resp), resp.isBase64);
      assert records == [lib.Head(id, resp)] + chunks + [lib.End(id)];
      SplitArrivals(env, arrivals, lib.Head(id, resp), chunks, lib.End(id));
      var last := |chunks| + 1;
      OwnStream(env, lib, id, resp, arrivals[0], arrivals[1..last], arrivals[last]);
    } else {
      OwnRecord(env, lib, interleaved, id, result, arrivals);
    }
  }

  lemma OneLast(env: Env, b: Batch, arrivals: seq<Arrival>, r: Record)
    requires Carries(arrivals, [r]) && AllSendsWork(arrivals)
    requires Convertible(env, r)
    ensures Run(env, b, arrivals) == DispatchRecord(env, b, r, Sends(true, true))
  {
    var d := DispatchRecord(env, b, r, Sends(true, true));
    ConvertibleServes(env, b, r, Sends(true, true));
    assert arrivals[1..] == [];
    assert Run(env, d.batch, []) == Dispatched(d.batch, None);
  }

  // ---------------------------------------------------------------- the merge, seen by one client

  function Untag<A>(out: seq<(nat, A)>): seq<A> {
    if out == [] then [] else Untag(out[..|out| - 1]) + [out[|out| - 1].1]
  }

  lemma {:induction false} DeliverConcat(a: seq<Record>, b: seq<Record>, sends: nat -> Sends, k: nat)
    ensures Deliver(a + b, sends, k) == Deliver(a, sends, k) + Deliver(b, sends, k + |a|)
  {
    if a == [] {
      assert a + b == b;
    } else {
      assert (a + b)[1..] == a[1..] + b;
      DeliverConcat(a[1..], b, sends, k + 1);
    }
  }

  lemma {:induction false} OnlyForConcat(a: seq<Arrival>, b: seq<Arrival>, id: Id)
    ensures OnlyFor(a + b, id) == OnlyFor(a, id) + OnlyFor(b, id)
  {
    if a == [] {
      assert a + b == b;
    } else {
      assert (a + b)[1..] == a[1..] + b;
      OnlyForConcat(a[1..], b, id);
    }
  }

  /** Stream i consists of records that carry ids[i]. */
  ghost predicate OwnIds(streams: seq<seq<Record>>, ids: seq<Id>) {
    && |streams| == |ids|
    && forall i, k :: 0 <= i < |streams| && 0 <= k < |streams[i]| ==> streams[i][k].id == ids[i]
  }

  /** Every tagged record carries the id of the stream it came from. */
  ghost predicate TagsMatch(out: seq<(nat, Record)>, ids: seq<Id>) {
    forall k :: 0 <= k < |out| ==> out[k].0 < |ids| && out[k].1.id == ids[out[k].0]
  }

  lemma {:induction false} FromStreamHas<A>(out: seq<(nat, A)>, k: nat)
    requires k < |out|
    ensures out[k].1 in FromStream(out, out[k].0)
  {
    if k < |out| - 1 {
      FromStreamHas(out[..|out| - 1], k);
    }
  }

  lemma MergedTagsMatch(out: seq<(nat, Record)>, streams: seq<seq<Record>>, ids: seq<Id>)
    requires Merged(out, streams) && OwnIds(streams, ids)
    ensures TagsMatch(out, ids)
  {
    forall k | 0 <= k < |out| ensures out[k].1.id == ids[out[k].0] {
      FromStreamHas(out, k);
      var i := out[k].0;
      assert out[k].1 in streams[i];
    }
  }

  /** Which places of the merged stream are stream i's. */
  ghost predicate StaysConnected(out: seq<(nat, Record)>, sends: nat -> Sends, i: nat) {
    forall k :: 0 <= k < |out| && out[k].0 == i ==> sends(k) == Sends(true, true)
  }

  lemma OneMoreDelivered(records: seq<Record>, r: Record, sends: nat -> Sends, id: Id)
    ensures OnlyFor(Deliver(records + [r], sends, 0), id)
         == OnlyFor(Deliver(records, sends, 0), id) + if r.id == id then [Arrival(Ok(r), sends(|records|))] else []
  {
    DeliverConcat(records, [r], sends, 0);
    var last := [Arrival(Ok(r), sends(|records|))];
    assert Deliver([r], sends, |records|) == last by { assert [r][1..] == []; }
    OnlyForConcat(Deliver(records, sends, 0), last, id);
    assert last[1..] == [];
  }

  /** The arrivals of client i in the merged stream are its own stream's records, in order. */
  lemma {:induction false} OwnArrivals(out: seq<(nat, Record)>, ids: seq<Id>, sends: nat -> Sends, i: nat)
    requires TagsMatch(out, ids) && i < |ids|
    requires forall j :: 0 <= j < |ids| && j != i ==> ids[j] != ids[i]
    ensures Carries(OnlyFor(Deliver(Untag(out), sends, 0), ids[i]), FromStream(out, i))
    ensures |Untag(out)| == |out|
    ensures StaysConnected(out, sends, i) ==> AllSendsWork(OnlyFor(Deliver(Untag(out), sends, 0), ids[i]))
    decreases |out|
  {
    if out != [] {
      var init := out[..|out| - 1];
      var (tag, r) := out[|out| - 1];
      OwnArrivals(init, ids, sends, i);
      assert forall k :: 0 <= k < |init| ==> init[k] == out[k];
      OneMoreDelivered(Untag(init), r, sends, ids[i]);
    }
  }

  // ---------------------------------------------------------------- end to end

  ghost function Streams(lib: Library, interleaved: bool, ids: seq<Id>, results: seq<HandlerResult>): seq<seq<Record>>
    requires |ids| == |results|
  {
    seq(|ids|, i requires 0 <= i < |ids| => lib.RequestRecords(interleaved, ids[i], results[i]))
  }

  lemma {:induction false} ChunksCarryId(lib: Library, id: Id, pieces: seq<ResponseChunk>, isBase64: bool)
    ensures forall k :: 0 <= k < |lib.Chunks(id, pieces, isBase64)| ==> lib.Chunks(id, pieces, isBase64)[k].id == id
  {
    if pieces != [] {
      ChunksCarryId(lib, id, pieces[1..], isBase64);
    }
  }

  lemma StreamsCarryIds(lib: Library, interleaved: bool, ids: seq<Id>, results: seq<HandlerResult>)
    requires |ids| == |results|
    ensures OwnIds(Streams(lib, interleaved, ids, results), ids)
  {
    forall i | 0 <= i < |ids|
      ensures forall k :: 0 <= k < |lib.RequestRecords(interleaved, ids[i], results[i])| ==>
                lib.RequestRecords(interleaved, ids[i], results[i])[k].id == ids[i]
    {
      if interleaved && results[i].Returned? {
        ChunksCarryId(lib, ids[i], lib.Pieces(results[i].resp), results[i].resp.isBase64);
      }
    }
  }

  lemma {:induction false} MergedConvertible(env: Env, out: seq<(nat, Record)>, streams: seq<seq<Record>>)
    requires Merged(out, streams)
    requires forall i :: 0 <= i < |streams| ==> AllConvertible(env, streams[i])
    ensures AllConvertible(env, Untag(out))
  {
    forall k | 0 <= k < |out| ensures Convertible(env, out[k].1) {
      FromStreamHas(out, k);
      assert out[k].1 in streams[out[k].0];
    }
    UntagAt(out);
  }

  lemma {:induction false} UntagAt<A>(out: seq<(nat, A)>)
    ensures |Untag(out)| == |out|
    ensures forall k :: 0 <= k < |out| ==> Untag(out)[k] == out[k].1
  {
    if out != [] {
      UntagAt(out[..|out| - 1]);
    }
  }

  /** What a client that stays connected has received once its own arrivals are through. */
  lemma ConnectedClient(env: Env, lib: Library, interleaved: bool, ids: seq<Id>, results: seq<HandlerResult>,
                        out: seq<(nat, Record)>, sends: nat -> Sends, i: nat, batch: Batch)
    requires |ids| == |results| && Distinct(ids) && i < |ids|
    requires ids[i] in batch && batch[ids[i]] == FRESH
    requires Base64RoundTrips(env, lib)
    requires Merged(out, Streams(lib, interleaved, ids, results))
    requires AllConvertible(env, lib.RequestRecords(interleaved, ids[i], results[i]))
    requires StaysConnected(out, sends, i)
    requires Run(env, batch, Deliver(Untag(out), sends, 0)).error.None?
    ensures var done := Run(env, batch, Deliver(Untag(out), sends, 0)).batch;
            && ids[i] in done
            && done[ids[i]] == Client(Closed, ExpectedTrace(env, lib, interleaved, results[i]))
            && TellsAnswer(env, lib.trim, interleaved, results[i], done[ids[i]].log)
  {
    var arrivals := Deliver(Untag(out), sends, 0);
    var streams := Streams(lib, interleaved, ids, results);
    StreamsCarryIds(lib, interleaved, ids, results);
    MergedTagsMatch(out, streams, ids);
    OwnArrivals(out, ids, sends, i);
    assert streams[i] == lib.RequestRecords(interleaved, ids[i], results[i]);
    OwnAnswer(env, lib, interleaved, ids[i], results[i], OnlyFor(arrivals, ids[i]));
    NonInterference(env, batch, arrivals, ids[i]);
    assert Alone(batch, ids[i]) == map[ids[i] := FRESH];
    var alone := Alone(Run(env, batch, arrivals).batch, ids[i]);
    assert alone[ids[i]] == Run(env, batch, arrivals).batch[ids[i]];
  }

  /** The merge of convertible streams is dispatched without failure. */
  lemma MergedRuns(env: Env, lib: Library, interleaved: bool, ids: seq<Id>, results: seq<HandlerResult>,
                   out: seq<(nat, Record)>, sends: nat -> Sends, batch: Batch)
    requires |ids| == |results| && Merged(out, Streams(lib, interleaved, ids, results))
    requires forall j :: 0 <= j < |ids| ==> AllConvertible(env, lib.RequestRecords(interleaved, ids[j], results[j]))
    ensures Run(env, batch, Deliver(Untag(out), sends, 0)).error.None?
  {
    var streams := Streams(lib, interleaved, ids, results);
    assert forall j :: 0 <= j < |streams| ==> streams[j] == lib.RequestRecords(interleaved, ids[j], results[j]);
    MergedConvertible(env, out, streams);
    ConvertibleRuns(env, batch, Untag(out), sends, 0);
  }

  /** A client that was done before the stream ended stays as it was. */
  lemma ClosedStaysClosed(env: Env, b: Batch, msg: string, listens: Id -> bool, id: Id)
    requires id in b && b[id].phase.Closed?
    ensures id in ResolveAll(env, b, msg, listens) && ResolveAll(env, b, msg, listens)[id] == b[id]
  {
  }

  lemma ConnectedRoundTrip(env: Env, lib: Library, encode: Record -> Bytes, interleaved: bool,
                           ids: seq<Id>, results: seq<HandlerResult>, out: seq<(nat, Record)>,
                           items: seq<StreamItem>, sends: nat -> Sends, listens: Id -> bool, i: nat)
    requires |ids| == |results| && Distinct(ids) && i < |ids|
    requires CodecAgrees(env.conv, encode, Untag(out)) && Base64RoundTrips(env, lib)
    requires Merged(out, Streams(lib, interleaved, ids, results))
    requires forall j :: 0 <= j < |ids| ==> AllConvertible(env, lib.RequestRecords(interleaved, ids[j], results[j]))
    requires AllBytes(items) == Unlines(EncodeLines(encode, Untag(out))) && Fits([], items)
    requires StaysConnected(out, sends, i)
    ensures var clients := Outcome(env, map id | id in ids :: FRESH, CutStream([], items), sends, listens);
            && ids[i] in clients
            && clients[ids[i]] == Client(Closed, ExpectedTrace(env, lib, interleaved, results[i]))
            && TellsAnswer(env, lib.trim, interleaved, results[i], clients[ids[i]].log)
  {
    var batch := map id | id in ids :: FRESH;
    MergedRuns(env, lib, interleaved, ids, results, out, sends, batch);
    EncodedOutcome(env, batch, encode, Untag(out), items, sends, listens);
    ConnectedClient(env, lib, interleaved, ids, results, out, sends, i, batch);
    var done := Run(env, batch, Deliver(Untag(out), sends, 0)).batch;
    ClosedStaysClosed(env, done, "missing response record", listens, ids[i]);
  }

  /**
   Main result, end to end. Whatever order the merge yields its streams' records in, and however the
   encoded bytes are cut into chunks that fit the buffer: every client ends with a complete trace, and
   a client that stays connected receives exactly its own handler's status, headers, cookies, body
   pieces in order, and end - whatever the other clients do.
   */
  lemma StreamingRoundTrip(env: Env, lib: Library, encode: Record -> Bytes, interleaved: bool,
                           ids: seq<Id>, results: seq<HandlerResult>, out: seq<(nat, Record)>,
                           items: seq<StreamItem>, sends: nat -> Sends, listens: Id -> bool, i: nat)
    requires |ids| == |results| && Distinct(ids) && i < |ids|
    requires CodecAgrees(env.conv, encode, Untag(out)) && Base64RoundTrips(env, lib)
    requires Merged(out, Streams(lib, interleaved, ids, results))
    requires forall j :: 0 <= j < |ids| ==> AllConvertible(env, lib.RequestRecords(interleaved, ids[j], results[j]))
    requires AllBytes(items) == Unlines(EncodeLines(encode, Untag(out))) && Fits([], items)
    ensures var clients := Outcome(env, map id | id in ids :: FRESH, CutStream([], items), sends, listens);
            && ids[i] in clients
            && IsComplete(clients[ids[i]].log)
            && (StaysConnected(out, sends, i) ==>
                  && clients[ids[i]] == Client(Closed, ExpectedTrace(env, lib, interleaved, results[i]))
                  && TellsAnswer(env, lib.trim, interleaved, results[i], clients[ids[i]].log))
  {
    var idSet := set id | id in ids;
    assert (map id | id in ids :: FRESH) == map id | id in idSet :: FRESH;
    EveryTraceCompletes(env, idSet, CutStream([], items), sends, listens);
    if StaysConnected(out, sends, i) {
      ConnectedRoundTrip(env, lib, encode, interleaved, ids, results, out, items, sends, listens, i);
    }
  }
}
