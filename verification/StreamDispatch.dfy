/**
 The streaming dispatcher itself: a mutable map of pending clients, and a buffer that is extended by
 every chunk and drained line by line. Proved against BatchRun.
 */
module StreamDispatch {
  import opened Prelude
  import opened Framing
  import opened StreamWire
  import opened ClientTrace
  import opened BatchRun

  /** A pending entry owns the body sender; `init` says whether it still owns the init sender. */
  datatype StreamPending = StreamPending(init: bool)

  lemma AppendTwice(s: seq<Event>, a: Event, b: Event)
    ensures s + [a] + [b] == s + [a, b]
  {
  }

  type Pending = map<Id, StreamPending>

  type Log = map<Id, seq<Event>>

  ghost function PhaseIn(pending: Pending, id: Id): Phase {
    if id !in pending then Closed else if pending[id].init then Waiting else Streaming
  }

  /** The clients as the specification sees them: phase from the pending map, log from the sends. */
  ghost function ViewOf(pending: Pending, log: Log): Batch {
    map id | id in log :: Client(PhaseIn(pending, id), log[id])
  }

  /** Only id changed, and it became c. */
  ghost predicate Became(pending: Pending, log: Log, pending': Pending, log': Log, id: Id, c: Client) {
    && log' == log[id := c.log]
    && PhaseIn(pending', id) == c.phase
    && pending' - {id} == pending - {id}
  }

  lemma BecameInView(pending: Pending, log: Log, pending': Pending, log': Log, id: Id, c: Client)
    requires id in log && pending.Keys <= log.Keys
    requires Became(pending, log, pending', log', id, c)
    ensures pending'.Keys <= log'.Keys
    ensures ViewOf(pending', log') == ViewOf(pending, log)[id := c]
  {
    forall other | other in log && other != id ensures PhaseIn(pending', other) == PhaseIn(pending, other) {
      assert other in pending' <==> other in pending' - {id};
      assert other in pending <==> other in pending - {id};
      if other in pending {
        assert (pending - {id})[other] == (pending' - {id})[other];
      }
    }
    forall other | other in pending' ensures other in log' {
      assert other == id || other in pending' - {id};
    }
  }

  /** Resolving one client first changes nothing about resolving all. */
  lemma ResolvedTwice(env: Env, b: Batch, id: Id, msg: string, listens: Id -> bool)
    requires id in b
    ensures ResolveAll(env, b[id := Resolve(env, b[id], msg, listens(id))], msg, listens)
         == ResolveAll(env, b, msg, listens)
  {
  }

  /** Failing one entry changes nothing about failing all, and leaves one entry less. */
  lemma FailedOne(env: Env, pending: Pending, log: Log, pending': Pending, log': Log, id: Id, msg: string,
                  listens: Id -> bool)
    requires id in pending && pending.Keys <= log.Keys
    requires Became(pending, log, pending', log', id,
                    Resolve(env, Client(PhaseIn(pending, id), log[id]), msg, listens(id)))
    ensures pending'.Keys <= log'.Keys && |pending'| < |pending|
    ensures ResolveAll(env, ViewOf(pending', log'), msg, listens) == ResolveAll(env, ViewOf(pending, log), msg, listens)
  {
    var before := ViewOf(pending, log);
    assert before[id] == Client(PhaseIn(pending, id), log[id]);
    BecameInView(pending, log, pending', log', id, Resolve(env, before[id], msg, listens(id)));
    ResolvedTwice(env, before, id, msg, listens);
    assert id !in pending';
    assert pending' == pending - {id};
  }

  lemma NothingPending(env: Env, log: Log, msg: string, listens: Id -> bool)
    ensures ResolveAll(env, ViewOf(map[], log), msg, listens) == ViewOf(map[], log)
  {
  }

  class StreamDispatcher {
    const env: Env
    var pending: map<Id, StreamPending>
    ghost var log: map<Id, seq<Event>>
    var served: nat // non-empty lines so far: says which send fates come next

    ghost predicate Valid()
      reads this
    {
      pending.Keys <= log.Keys
    }

    ghost function View(): Batch
      reads this
    {
      ViewOf(pending, log)
    }

    constructor (env: Env, ids: set<Id>)
      requires env.batchSize == |ids|
      ensures Valid()
      ensures this.env == env
      ensures View() == map id | id in ids :: FRESH
      ensures served == 0
    {
      this.env := env;
      pending := map id | id in ids :: StreamPending(true);
      log := map id | id in ids :: [];
      served := 0;
    }

    ghost method Note(id: Id, e: Event)
      requires id in log
      modifies this`log
      ensures log == old(log)[id := old(log)[id] + [e]]
    {
      log := log[id := log[id] + [e]];
    }

    ghost method NoteThenClose(id: Id, e: Event)
      requires id in log
      modifies this`log
      ensures log == old(log)[id := old(log)[id] + [e, Close]]
    {
      log := log[id := log[id] + [e, Close]];
    }

    /** Dropping an entry drops both senders it still owns. */
    ghost method DropEntry(id: Id, entry: StreamPending)
      requires id in log
      modifies this`log
      ensures log == old(log)[id := old(log)[id] + if entry.init then [Dropped, Close] else [Close]]
    {
      if entry.init { NoteThenClose(id, Dropped); } else { Note(id, Close); }
    }

    /** Takes the init sender and uses it, or drops it unused when the head does not convert. */
    method SendStreamHead(id: Id, entry: StreamPending, status: nat, raw: RawHeaders, cookies: seq<string>,
                          listens: bool)
      returns (rest: StreamPending, keep: Result<bool>)
      requires id in log
      modifies this`log
      ensures !rest.init
      ensures entry.init ==>
        var head := env.HeadOf(status, raw, cookies);
        && keep == (if head.Err? then Err(head.msg) else Ok(listens))
        && log == old(log)[id := old(log)[id] +
             [if head.Err? then Dropped else if listens then Head(head.value) else Gone]]
      ensures !entry.init ==> keep == Ok(true) && log == old(log)
    {
      rest := StreamPending(false);
      if entry.init {
        var head := env.HeadOf(status, raw, cookies);
        if head.Err? {
          Note(id, Dropped);
          return rest, Err(head.msg);
        }
        Note(id, if listens then Head(head.value) else Gone);
        return rest, Ok(listens);
      }
      return rest, Ok(true);
    }

    method DispatchLegacy(r: Record, sends: Sends) returns (error: Option<string>)
      requires Valid() && r.id in pending && r.Legacy? && r.v == 1
      modifies this`pending, this`log
      ensures var served := Serve(env, Client(PhaseIn(old(pending), r.id), old(log)[r.id]), r, sends);
              && Became(old(pending), old(log), pending, log, r.id, served.client)
              && error == served.error
    {
      var entry := pending[r.id];
      pending := pending - {r.id};
      var resp := env.ResponseOf(r.statusCode, r.headers, r.cookies, r.body, r.isBase64);
      if resp.Err? {
        DropEntry(r.id, entry);
        return Some("bad response: " + resp.msg);
      }
      if entry.init {
        NoteThenClose(r.id, if sends.init then Response(resp.value) else Gone);
      } else {
        Note(r.id, Close);
      }
      return None;
    }

    method DispatchHead(r: Record, sends: Sends) returns (error: Option<string>)
      requires Valid() && r.id in pending && r.Interleaved? && r.kind.HeadRecord? && r.v == 1
      modifies this`pending, this`log
      ensures var served := Serve(env, Client(PhaseIn(old(pending), r.id), old(log)[r.id]), r, sends);
              && Became(old(pending), old(log), pending, log, r.id, served.client)
              && error == served.error
    {
      var entry := pending[r.id];
      pending := pending - {r.id};
      var keep;
      entry, keep := SendStreamHead(r.id, entry, if r.code.Some? then r.code.value else 200,
                                    r.headers, r.cookies, sends.init);
      if keep.Ok? && keep.value {
        pending := pending[r.id := entry];
      } else {
        DropEntry(r.id, entry);
        AppendTwice(old(log)[r.id], Dropped, Close);
        AppendTwice(old(log)[r.id], Gone, Close);
      }
      if keep.Err? { return Some(keep.msg); }
      return None;
    }

    method DispatchChunk(r: Record, sends: Sends) returns (error: Option<string>)
      requires Valid() && r.id in pending && r.Interleaved? && r.kind.ChunkRecord? && r.v == 1
      modifies this`pending, this`log
      ensures var served := Serve(env, Client(PhaseIn(old(pending), r.id), old(log)[r.id]), r, sends);
              && Became(old(pending), old(log), pending, log, r.id, served.client)
              && error == served.error
    {
      var entry := pending[r.id];
      pending := pending - {r.id};
      if entry.init {
        var keep;
        entry, keep := SendStreamHead(r.id, entry, 200, map[], [], sends.init);
        if keep.Err? {
          DropEntry(r.id, entry);
          AppendTwice(old(log)[r.id], Dropped, Close);
          return Some(keep.msg);
        }
        if !keep.value {
          DropEntry(r.id, entry);
          AppendTwice(old(log)[r.id], Gone, Close);
          return None;
        }
      }
      error := ForwardChunk(r, entry, sends);
      return error;
    }

    /** The body part of a chunk, once the head is out: on success the entry is pending again. */
    method ForwardChunk(r: Record, entry: StreamPending, sends: Sends) returns (error: Option<string>)
      requires r.Interleaved? && r.id !in pending && r.id in log && !entry.init
      modifies this`pending, this`log
      ensures var served := SendChunk(env, Client(Streaming, old(log)[r.id]),
                                      if r.text.Some? then r.text.value else "", r.isBase64, sends.body);
              && Became(old(pending), old(log), pending, log, r.id, served.client)
              && error == served.error
    {
      var bytes := env.conv.decode(if r.text.Some? then r.text.value else "", r.isBase64);
      if bytes.Err? {
        DropEntry(r.id, entry);
        return Some("bad chunk body: " + bytes.msg);
      }
      if !sends.body {
        NoteThenClose(r.id, Gone);
        return None;
      }
      Note(r.id, Chunk(bytes.value));
      pending := pending[r.id := entry];
      return None;
    }

    method DispatchEnd(r: Record, sends: Sends) returns (error: Option<string>)
      requires Valid() && r.id in pending && r.Interleaved? && r.kind.EndRecord? && r.v == 1
      modifies this`pending, this`log
      ensures var served := Serve(env, Client(PhaseIn(old(pending), r.id), old(log)[r.id]), r, sends);
              && Became(old(pending), old(log), pending, log, r.id, served.client)
              && error == served.error
    {
      var entry := pending[r.id];
      pending := pending - {r.id};
      if entry.init {
        var keep;
        entry, keep := SendStreamHead(r.id, entry, 200, map[], [], sends.init);
        if keep.Err? {
          DropEntry(r.id, entry);
          AppendTwice(old(log)[r.id], Dropped, Close);
          return Some(keep.msg);
        }
      }
      DropEntry(r.id, entry);
      AppendTwice(old(log)[r.id], Gone, Close);
      return None;
    }

    method DispatchError(r: Record, sends: Sends) returns (error: Option<string>)
      requires Valid() && r.id in pending && r.Interleaved? && r.kind.ErrorRecord? && r.v == 1
      modifies this`pending, this`log
      ensures var served := Serve(env, Client(PhaseIn(old(pending), r.id), old(log)[r.id]), r, sends);
              && Became(old(pending), old(log), pending, log, r.id, served.client)
              && error == served.error
    {
      var entry := pending[r.id];
      pending := pending - {r.id};
      if entry.init {
        var resp := env.ErrorAnswer(r.code, r.message);
        NoteThenClose(r.id, if sends.init then Response(resp) else Gone);
      } else {
        Note(r.id, Close);
      }
      return None;
    }

    method DispatchStreamRecord(r: Record, sends: Sends) returns (error: Option<string>)
      requires Valid()
      modifies this`pending, this`log
      ensures Valid()
      ensures Dispatched(View(), error) == DispatchRecord(env, old(View()), r, sends)
    {
      if r.v != 1 {
        return Some("unsupported record version: " + env.conv.show(r.v));
      }
      if r.id !in pending {
        return None;
      }
      match r {
        case Legacy(_, _, _, _, _, _, _) => error := DispatchLegacy(r, sends);
        case Interleaved(_, _, HeadRecord, _, _, _, _, _, _) => error := DispatchHead(r, sends);
        case Interleaved(_, _, ChunkRecord, _, _, _, _, _, _) => error := DispatchChunk(r, sends);
        case Interleaved(_, _, EndRecord, _, _, _, _, _, _) => error := DispatchEnd(r, sends);
        case Interleaved(_, _, ErrorRecord, _, _, _, _, _, _) => error := DispatchError(r, sends);
      }
      BecameInView(old(pending), old(log), pending, log, r.id,
                   Serve(env, old(View())[r.id], r, sends).client);
    }

    /** One entry of the failing batch: an unused init is answered, and the body closes. */
    method FailEntry(id: Id, msg: string, listens: bool)
      requires Valid() && id in pending
      modifies this`pending, this`log
      ensures Became(old(pending), old(log), pending, log, id,
                     Resolve(env, Client(PhaseIn(old(pending), id), old(log)[id]), msg, listens))
    {
      var entry := pending[id];
      pending := pending - {id};
      if entry.init {
        NoteThenClose(id, if listens then Response(env.TextResponse(BAD_GATEWAY, msg)) else Gone);
      } else {
        Note(id, Close);
      }
    }

    /** Answers everything still pending, in whatever order the map yields it. */
    method FailAllStream(msg: string, listens: Id -> bool)
      requires Valid()
      modifies this`pending, this`log
      ensures Valid() && pending == map[]
      ensures View() == ResolveAll(env, old(View()), msg, listens)
    {
      ghost var target := ResolveAll(env, View(), msg, listens);
      while pending != map[]
        invariant Valid()
        invariant ResolveAll(env, View(), msg, listens) == target
        decreases |pending|
      {
        var id :| id in pending;
        ghost var was, wasLog := pending, log;
        FailEntry(id, msg, listens(id));
        FailedOne(env, was, wasLog, pending, log, id, msg, listens);
      }
      NothingPending(env, log, msg, listens);
    }

    /** One line: skipped when empty, otherwise parsed and dispatched. */
    method DispatchLine(raw: Bytes, sends: nat -> Sends) returns (error: Option<string>)
      requires Valid()
      modifies this
      ensures Valid()
      ensures Dispatched(View(), error) == Run(env, old(View()), Arrive(env.conv, [raw], sends, old(served)))
      ensures served == old(served) + |Arrive(env.conv, [raw], sends, old(served))|
    {
      var line := raw;
      if line != [] && line[|line| - 1] == CR {
        line := line[..|line| - 1];
      }
      assert line == StripCr(raw);
      if line == [] {
        assert Arrive(env.conv, [raw], sends, served) == [];
        return None;
      }
      var record := env.conv.parse(line);
      var fate := sends(served);
      ghost var arrived := Arrive(env.conv, [raw], sends, served);
      assert arrived == [Arrival(record, fate)];
      served := served + 1;
      if record.Err? { return Some(record.msg); }
      error := DispatchStreamRecord(record.value, fate);
    }

    /**
     Takes every complete line off the front of the buffer. What is left is exactly what follows
     the last newline.
     */
    method DrainLines(buffer: Bytes, sends: nat -> Sends) returns (rest: Bytes, error: Option<string>)
      requires Valid()
      modifies this
      ensures Valid()
      ensures var arrived := Arrive(env.conv, Lines(buffer), sends, old(served));
              && Dispatched(View(), error) == Run(env, old(View()), arrived)
              && (error.None? ==> rest == Residual(buffer) && served == old(served) + |arrived|)
    {
      ghost var arrived := Arrive(env.conv, Lines(buffer), sends, served);
      ghost var target, last := Run(env, View(), arrived), served + |arrived|;
      var start := 0;
      while true
        invariant Valid()
        invariant start <= |buffer| && LeadsTo(env, View(), buffer, start, sends, served, target, last)
        decreases |buffer| - start
      {
        var nl := NextNl(buffer, start);
        if nl == |buffer| {
          return buffer[start..], None;
        }
        ghost var now, count := View(), served;
        error := DispatchLine(buffer[start..nl], sends);
        OneLineOn(env, now, View(), error, buffer, start, nl, sends, count, served, target, last);
        if error.Some? { return buffer, error; }
        start := nl + 1;
      }
    }

    /** The whole of a response stream, chunk by chunk. */
    method DispatchResponseStream(items: seq<StreamItem>, sends: nat -> Sends, listens: Id -> bool)
      requires Valid() && served == 0
      modifies this
      ensures Valid() && pending == map[]
      ensures View() == Outcome(env, old(View()), CutStream([], items), sends, listens)
    {
      var buffer: Bytes := [];
      ghost var seen: Bytes := [];
      ghost var before, cut := View(), CutStream([], items);
      for c := 0 to |items|
        invariant Valid()
        invariant buffer == Residual(seen)
        invariant CutStream(seen, items[c..]) == cut
        invariant Run(env, before, Arrive(env.conv, Lines(seen), sends, 0)) == Dispatched(View(), None)
        invariant served == |Arrive(env.conv, Lines(seen), sends, 0)|
      {
        if items[c].StreamError? {
          FailAllStream("response stream error: " + items[c].err, listens);
          return;
        }
        var chunk := items[c].bytes;
        if |buffer| + |chunk| > MAX_BUFFER_BYTES {
          FailAllStream("response stream too large", listens);
          return;
        }
        assert items[c..][1..] == items[c + 1..];
        MoreBytes(env, before, seen, chunk, sends);
        var rest, error := DrainLines(buffer + chunk, sends);
        seen := seen + chunk;
        if error.Some? {
          FailedForGood(env, before, seen, cut, sends);
          FailAllStream(error.value, listens);
          return;
        }
        buffer := rest;
      }
      assert items[|items|..] == [];
      assert cut == Cut(seen, Eof);
      var tail := StripEnd(buffer);
      if tail != [] {
        var record := env.conv.parse(tail);
        if record.Err? {
          FailAllStream(record.msg, listens);
          return;
        }
        ghost var now := View();
        var error := DispatchStreamRecord(record.value, sends(served));
        OneArrival(env, now, Arrival(record, sends(served)));
        if error.Some? {
          FailAllStream(error.value, listens);
          return;
        }
      }
      FailAllStream("missing response record", listens);
    }
  }

  /** Dispatching `all` is dispatching `first`, then - unless that failed - `rest`. */
  ghost predicate RunsAs(env: Env, b: Batch, all: seq<Arrival>, first: seq<Arrival>, rest: seq<Arrival>) {
    && |all| == |first| + |rest|
    && Run(env, b, all)
       == if Run(env, b, first).error.Some? then Run(env, b, first) else Run(env, Run(env, b, first).batch, rest)
  }

  /** The first line of several is dispatched before the rest. */
  lemma OneLineFirst(env: Env, b: Batch, line: Bytes, lines: seq<Bytes>, sends: nat -> Sends, k: nat)
    ensures var first := Arrive(env.conv, [line], sends, k);
            RunsAs(env, b, Arrive(env.conv, [line] + lines, sends, k),
                   first, Arrive(env.conv, lines, sends, k + |first|))
  {
    ArriveConcat(env.conv, [line], lines, sends, k);
    var first := Arrive(env.conv, [line], sends, k);
    RunConcat(env, b, first, Arrive(env.conv, lines, sends, k + |first|));
  }

  /** Dispatching what is left of the buffer from `start` on ends at the target, with `last` lines served. */
  ghost predicate LeadsTo(env: Env, now: Batch, buffer: Bytes, start: nat, sends: nat -> Sends, served: nat,
                          target: Dispatched, last: nat)
    requires start <= |buffer|
  {
    var left := Arrive(env.conv, LinesFrom(buffer, start), sends, served);
    && ResidualFrom(buffer, start) == Residual(buffer)
    && Run(env, now, left) == target
    && served + |left| == last
  }

  lemma OneLineOn(env: Env, now: Batch, next: Batch, error: Option<string>, buffer: Bytes, start: nat, nl: nat,
                  sends: nat -> Sends, served: nat, served': nat, target: Dispatched, last: nat)
    requires start <= |buffer| && nl == NextNl(buffer, start) && nl < |buffer|
    requires LeadsTo(env, now, buffer, start, sends, served, target, last)
    requires var line := Arrive(env.conv, [buffer[start..nl]], sends, served);
             Dispatched(next, error) == Run(env, now, line) && served' == served + |line|
    ensures error.Some? ==> Dispatched(next, error) == target
    ensures error.None? ==> LeadsTo(env, next, buffer, nl + 1, sends, served', target, last)
  {
    var line, lines := buffer[start..nl], LinesFrom(buffer, nl + 1);
    assert LinesFrom(buffer, start) == [line] + lines;
    OneLineFirst(env, now, line, lines, sends, served);
  }

  /** Reading on: the lines of seen + chunk are those of seen, then those of its rest + chunk. */
  lemma MoreBytes(env: Env, b: Batch, seen: Bytes, chunk: Bytes, sends: nat -> Sends)
    ensures Residual(seen + chunk) == Residual(Residual(seen) + chunk)
    ensures var first := Arrive(env.conv, Lines(seen), sends, 0);
            var next := Arrive(env.conv, Lines(Residual(seen) + chunk), sends, |first|);
            RunsAs(env, b, Arrive(env.conv, Lines(seen + chunk), sends, 0), first, next)
  {
    SplitConcat(seen, chunk);
    ArriveConcat(env.conv, Lines(seen), Lines(Residual(seen) + chunk), sends, 0);
    var first := Arrive(env.conv, Lines(seen), sends, 0);
    RunConcat(env, b, first, Arrive(env.conv, Lines(Residual(seen) + chunk), sends, |first|));
  }

  /** Once a line has failed, what the stream would still have brought is irrelevant. */
  lemma FailedForGood(env: Env, b: Batch, seen: Bytes, cut: Cut, sends: nat -> Sends)
    requires seen <= cut.bytes
    requires Run(env, b, Arrive(env.conv, Lines(seen), sends, 0)).error.Some?
    ensures Run(env, b, Arrive(env.conv, Lines(cut.bytes), sends, 0))
         == Run(env, b, Arrive(env.conv, Lines(seen), sends, 0))
  {
    MoreBytes(env, b, seen, cut.bytes[|seen|..], sends);
    assert cut.bytes == seen + cut.bytes[|seen|..];
  }

  lemma OneArrival(env: Env, b: Batch, a: Arrival)
    requires a.record.Ok?
    ensures Run(env, b, [a]) == DispatchRecord(env, b, a.record.value, a.sends)
  {
    var d := DispatchRecord(env, b, a.record.value, a.sends);
    assert [a][1..] == [];
    assert Run(env, d.batch, []) == Dispatched(d.batch, None);
  }
}
