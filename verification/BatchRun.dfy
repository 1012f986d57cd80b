/**
 Specification of one response stream answering one batch of clients.
 `Outcome` says what every client has received in the end as a function of the accepted bytes and
 of how the stream ended. It does not mention chunks: see StreamDispatch for the code that does.
 */
module BatchRun {
  import opened Prelude
  import opened Framing
  import opened StreamWire
  import opened ClientTrace

  type Batch = map<Id, Client>

  datatype Dispatched = Dispatched(batch: Batch, error: Option<string>)

  /** One non-empty line as it reaches the dispatcher, with the fate of the sends it causes. */
  datatype Arrival = Arrival(record: Result<Record>, sends: Sends)

  ghost predicate IsPending(b: Batch, id: Id) {
    id in b && !b[id].phase.Closed?
  }

  ghost function DispatchRecord(env: Env, b: Batch, r: Record, sends: Sends): Dispatched {
    if r.v != 1 then Dispatched(b, Some("unsupported record version: " + env.conv.show(r.v)))
    else if !IsPending(b, r.id) then Dispatched(b, None)
    else
      var served := Serve(env, b[r.id], r, sends);
      Dispatched(b[r.id := served.client], served.error)
  }

  /** The arrivals in order, up to and including the first one that fails. */
  ghost function Run(env: Env, b: Batch, arrivals: seq<Arrival>): Dispatched {
    if arrivals == [] then Dispatched(b, None)
    else
      match arrivals[0].record
      case Err(e) => Dispatched(b, Some(e))
      case Ok(r) =>
        var d := DispatchRecord(env, b, r, arrivals[0].sends);
        if d.error.Some? then d else Run(env, d.batch, arrivals[1..])
  }

  ghost function ResolveAll(env: Env, b: Batch, msg: string, listens: Id -> bool): Batch {
    map id | id in b :: Resolve(env, b[id], msg, listens(id))
  }

  /** Empty lines are skipped; the k-th line that is not gets the k-th send fate. */
  function Arrive(conv: Conversions, lines: seq<Bytes>, sends: nat -> Sends, k: nat): seq<Arrival> {
    if lines == [] then []
    else if StripCr(lines[0]) == [] then Arrive(conv, lines[1..], sends, k)
    else [Arrival(conv.parse(StripCr(lines[0])), sends(k))] + Arrive(conv, lines[1..], sends, k + 1)
  }

  function ArriveTail(conv: Conversions, rest: Bytes, sends: nat -> Sends, k: nat): seq<Arrival> {
    if StripEnd(rest) == [] then [] else [Arrival(conv.parse(StripEnd(rest)), sends(k))]
  }

  datatype StreamItem = Data(bytes: Bytes) | StreamError(err: string)

  datatype Ending = Eof | Failed(err: string) | TooLarge

  /** The bytes accepted before the stream ends, and why it ends. */
  datatype Cut = Cut(bytes: Bytes, ending: Ending)

  const MAX_BUFFER_BYTES: nat := 8 * 1024 * 1024

  /** Reading on from `seen`: only the unterminated rest counts against the buffer limit. */
  function CutStream(seen: Bytes, items: seq<StreamItem>): (c: Cut)
    ensures seen <= c.bytes
    decreases items
  {
    if items == [] then Cut(seen, Eof)
    else
      match items[0]
      case StreamError(e) => Cut(seen, Failed(e))
      case Data(d) =>
        if |Residual(seen)| + |d| > MAX_BUFFER_BYTES then Cut(seen, TooLarge)
        else CutStream(seen + d, items[1..])
  }

  /** The batch when reading stops, and the message the clients still pending are answered with. */
  datatype Verdict = Verdict(batch: Batch, msg: string)

  ghost function Read(env: Env, b: Batch, c: Cut, sends: nat -> Sends): Verdict {
    var arrived := Arrive(env.conv, Lines(c.bytes), sends, 0);
    var done := Run(env, b, arrived);
    if done.error.Some? then Verdict(done.batch, done.error.value)
    else
      match c.ending
      case Failed(e) => Verdict(done.batch, "response stream error: " + e)
      case TooLarge => Verdict(done.batch, "response stream too large")
      case Eof =>
        var last := Run(env, done.batch, ArriveTail(env.conv, Residual(c.bytes), sends, |arrived|));
        Verdict(last.batch, if last.error.Some? then last.error.value else "missing response record")
  }

  ghost function Outcome(env: Env, b: Batch, c: Cut, sends: nat -> Sends, listens: Id -> bool): Batch {
    var v := Read(env, b, c, sends);
    ResolveAll(env, v.batch, v.msg, listens)
  }

  // ---------------------------------------------------------------- composition

  lemma {:induction false} ArriveConcat(conv: Conversions, a: seq<Bytes>, b: seq<Bytes>, sends: nat -> Sends, k: nat)
    ensures Arrive(conv, a + b, sends, k)
         == Arrive(conv, a, sends, k) + Arrive(conv, b, sends, k + |Arrive(conv, a, sends, k)|)
  {
    if a == [] {
      assert a + b == b;
    } else {
      assert (a + b)[1..] == a[1..] + b;
      ArriveConcat(conv, a[1..], b, sends, if StripCr(a[0]) == [] then k else k + 1);
    }
  }

  lemma {:induction false} RunConcat(env: Env, b: Batch, first: seq<Arrival>, second: seq<Arrival>)
    ensures Run(env, b, first + second)
         == if Run(env, b, first).error.Some? then Run(env, b, first)
            else Run(env, Run(env, b, first).batch, second)
  {
    if first == [] {
      assert first + second == second;
    } else {
      assert (first + second)[1..] == first[1..] + second;
      match first[0].record
      case Err(e) =>
      case Ok(r) => RunConcat(env, DispatchRecord(env, b, r, first[0].sends).batch, first[1..], second);
    }
  }

  // ---------------------------------------------------------------- the trace grammar over whole streams

  ghost predicate AllFollowGrammar(b: Batch) {
    forall id :: id in b ==> FollowsGrammar(b[id])
  }

  lemma {:induction false} RunFollowsGrammar(env: Env, b: Batch, arrivals: seq<Arrival>)
    requires AllFollowGrammar(b)
    ensures AllFollowGrammar(Run(env, b, arrivals).batch)
    ensures Run(env, b, arrivals).batch.Keys == b.Keys
  {
    if arrivals != [] && arrivals[0].record.Ok? {
      var r := arrivals[0].record.value;
      var d := DispatchRecord(env, b, r, arrivals[0].sends);
      if r.v == 1 && IsPending(b, r.id) {
        ServeFollowsGrammar(env, b[r.id], r, arrivals[0].sends);
      }
      RunFollowsGrammar(env, d.batch, arrivals[1..]);
    }
  }

  lemma ReadFollowsGrammar(env: Env, b: Batch, c: Cut, sends: nat -> Sends)
    requires AllFollowGrammar(b)
    ensures AllFollowGrammar(Read(env, b, c, sends).batch)
    ensures Read(env, b, c, sends).batch.Keys == b.Keys
  {
    var arrived := Arrive(env.conv, Lines(c.bytes), sends, 0);
    RunFollowsGrammar(env, b, arrived);
    var tail := ArriveTail(env.conv, Residual(c.bytes), sends, |arrived|);
    RunFollowsGrammar(env, Run(env, b, arrived).batch, tail);
  }

  lemma ResolveAllFollowsGrammar(env: Env, b: Batch, msg: string, listens: Id -> bool)
    requires AllFollowGrammar(b)
    ensures var r := ResolveAll(env, b, msg, listens);
            r.Keys == b.Keys && forall id :: id in r ==> r[id].phase.Closed? && IsComplete(r[id].log)
  {
    forall id | id in b { ResolveFollowsGrammar(env, b[id], msg, listens(id)); }
  }

  /**
   Main result: however the stream is cut, whatever its records say, whichever sends fail, and
   however it ends, every client of the batch ends with one complete trace and nothing is pending.
   */
  lemma EveryTraceCompletes(env: Env, ids: set<Id>, c: Cut, sends: nat -> Sends, listens: Id -> bool)
    ensures var r := Outcome(env, map id | id in ids :: FRESH, c, sends, listens);
            r.Keys == ids && forall id :: id in r ==> r[id].phase.Closed? && IsComplete(r[id].log)
  {
    var b := map id | id in ids :: FRESH;
    ReadFollowsGrammar(env, b, c, sends);
    var v := Read(env, b, c, sends);
    ResolveAllFollowsGrammar(env, v.batch, v.msg, listens);
  }

  // ---------------------------------------------------------------- non-interference

  /** The arrivals that carry the given id. */
  ghost function OnlyFor(arrivals: seq<Arrival>, id: Id): seq<Arrival> {
    if arrivals == [] then []
    else if arrivals[0].record.Ok? && arrivals[0].record.value.id == id then [arrivals[0]] + OnlyFor(arrivals[1..], id)
    else OnlyFor(arrivals[1..], id)
  }

  ghost function Alone(b: Batch, id: Id): Batch
    requires id in b
  {
    map[id := b[id]]
  }

  /** A failing record closes its own client at most; every other client is left as it was. */
  lemma FailureIsLocal(env: Env, b: Batch, r: Record, sends: Sends, other: Id)
    requires other in b && other != r.id
    ensures DispatchRecord(env, b, r, sends).batch.Keys == b.Keys
    ensures DispatchRecord(env, b, r, sends).batch[other] == b[other]
  {
  }

  /**
   Main result: while the stream does not fail, what client id receives is what it would receive
   from a stream of its own records with nobody else in the batch - including when other clients
   disconnect, since the fates of their sends are not among its arrivals.
   */
  lemma {:induction false} NonInterference(env: Env, b: Batch, arrivals: seq<Arrival>, id: Id)
    requires id in b
    requires Run(env, b, arrivals).error.None?
    ensures id in Run(env, b, arrivals).batch
    ensures Run(env, Alone(b, id), OnlyFor(arrivals, id))
         == Dispatched(Alone(Run(env, b, arrivals).batch, id), None)
  {
    if arrivals != [] {
      var r := arrivals[0].record.value;
      var d := DispatchRecord(env, b, r, arrivals[0].sends);
      var own := OnlyFor(arrivals, id);
      NonInterference(env, d.batch, arrivals[1..], id);
      if r.id == id {
        assert own[1..] == OnlyFor(arrivals[1..], id);
        assert DispatchRecord(env, Alone(b, id), r, arrivals[0].sends).batch == Alone(d.batch, id);
      } else {
        FailureIsLocal(env, b, r, arrivals[0].sends, id);
      }
    }
  }
}
