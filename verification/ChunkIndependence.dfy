/**
 Where the stream is cut into chunks is invisible to the clients, and how much a missing final
 newline matters.
 */
module ChunkIndependence {
  import opened Prelude
  import opened Framing
  import opened StreamWire
  import opened ClientTrace
  import opened BatchRun

  function AllBytes(items: seq<StreamItem>): Bytes {
    if items == [] then []
    else if items[0].Data? then items[0].bytes + AllBytes(items[1..])
    else AllBytes(items[1..])
  }

  /** No transport error, and the unterminated rest plus the next chunk never exceeds eight mebibytes. */
  ghost predicate Fits(seen: Bytes, items: seq<StreamItem>)
    decreases items
  {
    items == [] ||
    (items[0].Data?
     && |Residual(seen)| + |items[0].bytes| <= 8_388_608
     && Fits(seen + items[0].bytes, items[1..]))
  }

  /** A stream is read to its end exactly when it fits, and then every byte was accepted. */
  lemma {:induction false} ReadToTheEnd(seen: Bytes, items: seq<StreamItem>)
    ensures CutStream(seen, items).ending.Eof? <==> Fits(seen, items)
    ensures Fits(seen, items) ==> CutStream(seen, items).bytes == seen + AllBytes(items)
    decreases items
  {
    if items != [] && items[0].Data? {
      var d := items[0].bytes;
      ReadToTheEnd(seen + d, items[1..]);
      assert (seen + d) + AllBytes(items[1..]) == seen + (d + AllBytes(items[1..]));
    }
  }

  /** Main result: two ways of cutting the same bytes leave every client with the same trace. */
  lemma ChunkingIndependence(env: Env, b: Batch, items: seq<StreamItem>, items': seq<StreamItem>,
                             sends: nat -> Sends, listens: Id -> bool)
    requires AllBytes(items) == AllBytes(items')
    requires Fits([], items) && Fits([], items')
    ensures Outcome(env, b, CutStream([], items), sends, listens)
         == Outcome(env, b, CutStream([], items'), sends, listens)
  {
    ReadToTheEnd([], items);
    ReadToTheEnd([], items');
  }

  // ---------------------------------------------------------------- the final newline

  ghost predicate OnlyCrs(s: Bytes) {
    forall k :: 0 <= k < |s| ==> s[k] == CR
  }

  /**
   As JSON does: carriage returns after a record are white space, and no record at all is an error. What
   an error says may depend on them, but it never says that a record is missing.
   */
  ghost predicate CrIsWhiteSpace(conv: Conversions) {
    && (forall l: Bytes :: NoNewline(l) && !OnlyCrs(l) ==> SameRecord(conv.parse(l), conv.parse(StripEnd(l))))
    && (forall l: Bytes :: l != [] && OnlyCrs(l) ==> conv.parse(l).Err?)
    && (forall l: Bytes :: conv.parse(l).Err? ==> conv.parse(l).msg != MISSING)
  }

  const MISSING := "missing response record"

  predicate SameRecord(a: Result<Record>, b: Result<Record>) {
    a == b || (a.Err? && b.Err?)
  }

  lemma {:induction false} StripEndOfLine(s: Bytes)
    requires NoNewline(s)
    ensures NoNewline(StripEnd(s))
    ensures StripEnd(s) == [] <==> OnlyCrs(s)
    ensures s != [] && s[|s| - 1] == CR ==> StripEnd(s[..|s| - 1]) == StripEnd(s)
  {
    if s != [] && s[|s| - 1] == CR {
      StripEndOfLine(s[..|s| - 1]);
      assert s == s[..|s| - 1] + [CR];
      assert forall k :: 0 <= k < |s| - 1 ==> s[..|s| - 1][k] == s[k];
    }
  }

  /** With the newline added, the rest of s becomes one more line. */
  lemma NewlineEndsTheRest(s: Bytes)
    ensures Lines(s + [NL]) == Lines(s) + [Residual(s)]
    ensures Residual(s + [NL]) == []
  {
    SplitConcat(s, [NL]);
    var rest := Residual(s);
    SplitJoins(s);
    SplitUnique([rest], []);
    assert [rest][1..] == [];
    assert Unlines([rest]) == rest + [NL];
    assert Unlines([rest]) + [] == rest + [NL];
  }

  /** How reading ends once the last arrivals are dispatched. */
  function EndOf(d: Dispatched): Verdict {
    Verdict(d.batch, if d.error.Some? then d.error.value else MISSING)
  }

  lemma ReadWithoutNewline(env: Env, b: Batch, s: Bytes, sends: nat -> Sends)
    requires Run(env, b, Arrive(env.conv, Lines(s), sends, 0)).error.None?
    ensures var arrived := Arrive(env.conv, Lines(s), sends, 0);
            Read(env, b, Cut(s, Eof), sends)
              == EndOf(Run(env, Run(env, b, arrived).batch, ArriveTail(env.conv, Residual(s), sends, |arrived|)))
  {
  }

  lemma ReadWithNewline(env: Env, b: Batch, s: Bytes, sends: nat -> Sends)
    requires Run(env, b, Arrive(env.conv, Lines(s), sends, 0)).error.None?
    ensures var arrived := Arrive(env.conv, Lines(s), sends, 0);
            Read(env, b, Cut(s + [NL], Eof), sends)
              == EndOf(Run(env, Run(env, b, arrived).batch, Arrive(env.conv, [Residual(s)], sends, |arrived|)))
  {
    NewlineEndsTheRest(s);
    var arrived := Arrive(env.conv, Lines(s), sends, 0);
    var last := Arrive(env.conv, [Residual(s)], sends, |arrived|);
    ArriveConcat(env.conv, Lines(s), [Residual(s)], sends, 0);
    assert Arrive(env.conv, Lines(s + [NL]), sends, 0) == arrived + last;
    RunConcat(env, b, arrived, last);
    var all := Run(env, b, arrived + last);
    assert StripEnd([]) == [];
    assert ArriveTail(env.conv, [], sends, |arrived + last|) == []
        && Run(env, all.batch, []) == Dispatched(all.batch, None);
  }

  /** How s and s with a newline are read, when every line of s was dispatched without failure. */
  lemma ReadToTail(env: Env, b: Batch, s: Bytes, sends: nat -> Sends)
    requires Run(env, b, Arrive(env.conv, Lines(s), sends, 0)).error.None?
    ensures var k := |Arrive(env.conv, Lines(s), sends, 0)|;
            var done := Run(env, b, Arrive(env.conv, Lines(s), sends, 0)).batch;
            && Read(env, b, Cut(s, Eof), sends) == EndOf(Run(env, done, ArriveTail(env.conv, Residual(s), sends, k)))
            && Read(env, b, Cut(s + [NL], Eof), sends)
                == EndOf(Run(env, done, Arrive(env.conv, [Residual(s)], sends, k)))
  {
    ReadWithoutNewline(env, b, s, sends);
    ReadWithNewline(env, b, s, sends);
  }

  lemma OneLineArrives(conv: Conversions, raw: Bytes, sends: nat -> Sends, k: nat)
    ensures Arrive(conv, [raw], sends, k)
         == if StripCr(raw) == [] then [] else [Arrival(conv.parse(StripCr(raw)), sends(k))]
  {
    assert [raw][1..] == [];
  }

  /** The arrivals are the same, but for what their errors say. */
  ghost predicate SameArrivals(a: seq<Arrival>, b: seq<Arrival>) {
    |a| == |b| <= 1 && (|a| == 1 ==> a[0].sends == b[0].sends && SameRecord(a[0].record, b[0].record))
  }

  /** Unless it is nothing but carriage returns, two at least, the rest arrives alike as tail and as line. */
  lemma TailIsALine(conv: Conversions, rest: Bytes, sends: nat -> Sends, k: nat)
    requires CrIsWhiteSpace(conv) && NoNewline(rest) && !(OnlyCrs(rest) && |rest| >= 2)
    ensures SameArrivals(Arrive(conv, [rest], sends, k), ArriveTail(conv, rest, sends, k))
    ensures conv.parse(StripEnd(rest)).Ok? ==> Arrive(conv, [rest], sends, k) == ArriveTail(conv, rest, sends, k)
  {
    OneLineArrives(conv, rest, sends, k);
    StripEndOfLine(rest);
    if OnlyCrs(rest) {
      assert rest == [] || rest == [CR];
    } else {
      var line := StripCr(rest);
      StripEndOfLine(line);
      assert line != rest ==> rest == line + [CR];
      assert !OnlyCrs(line);
      assert StripEnd(rest) == StripEnd(line);
      assert SameRecord(conv.parse(line), conv.parse(StripEnd(line)));
    }
  }

  /** Carriage returns alone vanish as a tail, but as a line they leave a record that cannot be read. */
  lemma CrsAreABadLine(conv: Conversions, rest: Bytes, sends: nat -> Sends, k: nat)
    requires CrIsWhiteSpace(conv) && OnlyCrs(rest) && |rest| >= 2
    ensures ArriveTail(conv, rest, sends, k) == []
    ensures var line := Arrive(conv, [rest], sends, k);
            |line| == 1 && line[0].record.Err? && line[0].record.msg != MISSING
  {
    OneLineArrives(conv, rest, sends, k);
    assert NoNewline(rest);
    StripEndOfLine(rest);
    assert OnlyCrs(StripCr(rest));
  }

  /** The clients end alike: the same batch, and they are told that a record is missing in both cases or in none. */
  ghost predicate SameEnd(a: Verdict, b: Verdict) {
    a.batch == b.batch && (a.msg == MISSING <==> b.msg == MISSING)
  }

  /** Arrivals that differ only in what errors say end alike. */
  lemma SameArrivalsEndAlike(env: Env, b: Batch, x: seq<Arrival>, y: seq<Arrival>)
    requires CrIsWhiteSpace(env.conv) && SameArrivals(x, y)
    requires forall a :: (a in x || a in y) && a.record.Err? ==> a.record.msg != MISSING
    ensures Run(env, b, x).batch == Run(env, b, y).batch
    ensures Run(env, b, x) == Run(env, b, y)
         || (Run(env, b, x).error.Some? && Run(env, b, x).error.value != MISSING
             && Run(env, b, y).error.Some? && Run(env, b, y).error.value != MISSING)
  {
    if |x| == 1 {
      assert x[0] in x && y[0] in y;
      if x[0] == y[0] {
        assert x == y;
      }
    } else {
      assert x == y;
    }
  }

  lemma RestEndsAlike(env: Env, b: Batch, rest: Bytes, sends: nat -> Sends, k: nat)
    requires CrIsWhiteSpace(env.conv) && NoNewline(rest) && !(OnlyCrs(rest) && |rest| >= 2)
    ensures var line, tail := Arrive(env.conv, [rest], sends, k), ArriveTail(env.conv, rest, sends, k);
            && SameEnd(EndOf(Run(env, b, tail)), EndOf(Run(env, b, line)))
            && (env.conv.parse(StripEnd(rest)).Ok? ==> tail == line)
  {
    TailIsALine(env.conv, rest, sends, k);
    OneLineArrives(env.conv, rest, sends, k);
    SameArrivalsEndAlike(env, b, Arrive(env.conv, [rest], sends, k), ArriveTail(env.conv, rest, sends, k));
  }

  lemma CrsEndDifferently(env: Env, b: Batch, rest: Bytes, sends: nat -> Sends, k: nat)
    requires CrIsWhiteSpace(env.conv) && OnlyCrs(rest) && |rest| >= 2
    ensures var line, tail := Arrive(env.conv, [rest], sends, k), ArriveTail(env.conv, rest, sends, k);
            !SameEnd(EndOf(Run(env, b, tail)), EndOf(Run(env, b, line)))
  {
    CrsAreABadLine(env.conv, rest, sends, k);
    var line := Arrive(env.conv, [rest], sends, k);
    assert Run(env, b, line).error == Some(line[0].record.msg);
  }

  /**
   Main result: a stream may leave out its final newline, unless what it leaves unterminated is two
   or more carriage returns and nothing else. The tail is stripped of all of them, a line of one.
   When the unterminated rest holds a record, nothing at all changes.
   */
  lemma FinalNewlineIsOptional(env: Env, b: Batch, s: Bytes, sends: nat -> Sends)
    requires CrIsWhiteSpace(env.conv)
    requires Run(env, b, Arrive(env.conv, Lines(s), sends, 0)).error.None?
    ensures SameEnd(Read(env, b, Cut(s, Eof), sends), Read(env, b, Cut(s + [NL], Eof), sends))
        <==> !(OnlyCrs(Residual(s)) && |Residual(s)| >= 2)
    ensures env.conv.parse(StripEnd(Residual(s))).Ok? && !OnlyCrs(Residual(s)) ==>
              Read(env, b, Cut(s, Eof), sends) == Read(env, b, Cut(s + [NL], Eof), sends)
  {
    var rest, arrived := Residual(s), Arrive(env.conv, Lines(s), sends, 0);
    SplitJoins(s);
    ReadToTail(env, b, s, sends);
    if OnlyCrs(rest) && |rest| >= 2 {
      CrsEndDifferently(env, Run(env, b, arrived).batch, rest, sends, |arrived|);
    } else {
      RestEndsAlike(env, Run(env, b, arrived).batch, rest, sends, |arrived|);
    }
  }

  // ---------------------------------------------------------------- what clients see of it

  /** Different texts are different bytes. */
  ghost predicate TextIsExact(conv: Conversions) {
    forall a: string, b: string :: conv.utf8(a) == conv.utf8(b) ==> a == b
  }

  /** The client was answered with an error other than a missing record. */
  ghost predicate ErrorAnswered(env: Env, c: Client) {
    exists msg: string :: msg != MISSING && c == Client(Closed, [Response(env.TextResponse(BAD_GATEWAY, msg)), Close])
  }

  /** The two have received the same, but for what an error says. */
  ghost predicate Alike(env: Env, a: Client, b: Client) {
    a == b || (ErrorAnswered(env, a) && ErrorAnswered(env, b))
  }

  ghost predicate AllAlike(env: Env, a: Batch, b: Batch) {
    a.Keys == b.Keys && forall id :: id in a ==> Alike(env, a[id], b[id])
  }

  /** Somebody has received nothing yet and still listens. */
  ghost predicate SomeoneWaits(b: Batch, listens: Id -> bool) {
    exists id :: id in b && b[id].phase.Waiting? && listens(id)
  }

  lemma WaitingIsAnswered(env: Env, c: Client, msg: string)
    requires c.phase.Waiting? && FollowsGrammar(c)
    ensures Resolve(env, c, msg, true) == Client(Closed, [Response(env.TextResponse(BAD_GATEWAY, msg)), Close])
  {
    assert c.log + [Response(env.TextResponse(BAD_GATEWAY, msg)), Close]
        == [Response(env.TextResponse(BAD_GATEWAY, msg)), Close];
  }

  lemma ResolvedAlike(env: Env, c: Client, a: string, b: string, listens: bool)
    requires FollowsGrammar(c) && (a == MISSING <==> b == MISSING)
    ensures Alike(env, Resolve(env, c, a, listens), Resolve(env, c, b, listens))
  {
    if c.phase.Waiting? && listens && a != b {
      WaitingIsAnswered(env, c, a);
      WaitingIsAnswered(env, c, b);
    }
  }

  lemma ResolvedApart(env: Env, c: Client, msg: string)
    requires TextIsExact(env.conv) && c.phase.Waiting? && FollowsGrammar(c) && msg != MISSING
    ensures !Alike(env, Resolve(env, c, MISSING, true), Resolve(env, c, msg, true))
  {
    WaitingIsAnswered(env, c, MISSING);
    WaitingIsAnswered(env, c, msg);
    var missing, other := env.TextResponse(BAD_GATEWAY, MISSING), env.TextResponse(BAD_GATEWAY, msg);
    assert [Response(missing), Close][0] == Response(missing) && [Response(other), Close][0] == Response(other);
    forall m: string | m != MISSING ensures env.TextResponse(BAD_GATEWAY, m) != missing {
      assert env.conv.utf8(m) != env.conv.utf8(MISSING);
    }
  }

  lemma AllResolvedAlike(env: Env, b: Batch, x: string, y: string, listens: Id -> bool)
    requires AllFollowGrammar(b) && (x == MISSING <==> y == MISSING)
    ensures AllAlike(env, ResolveAll(env, b, x, listens), ResolveAll(env, b, y, listens))
  {
    forall id | id in b ensures Alike(env, Resolve(env, b[id], x, listens(id)), Resolve(env, b[id], y, listens(id))) {
      ResolvedAlike(env, b[id], x, y, listens(id));
    }
  }

  /** Being told of a missing record, or of another error, differs exactly for who waits and listens. */
  lemma ToldApart(env: Env, b: Batch, msg: string, listens: Id -> bool)
    requires TextIsExact(env.conv) && AllFollowGrammar(b) && msg != MISSING
    ensures AllAlike(env, ResolveAll(env, b, MISSING, listens), ResolveAll(env, b, msg, listens))
        <==> !SomeoneWaits(b, listens)
  {
    if SomeoneWaits(b, listens) {
      var id :| id in b && b[id].phase.Waiting? && listens(id);
      ResolvedApart(env, b[id], msg);
      assert ResolveAll(env, b, MISSING, listens)[id] == Resolve(env, b[id], MISSING, true);
      assert ResolveAll(env, b, msg, listens)[id] == Resolve(env, b[id], msg, true);
    } else {
      forall id | id in b ensures Resolve(env, b[id], MISSING, listens(id)) == Resolve(env, b[id], msg, listens(id)) {
      }
    }
  }

  /**
   Main result, as the clients see it: with and without the final newline they all receive the same - up to
   what an error says - unless two or more carriage returns alone are left while somebody waits and listens.
   */
  lemma ClientsMissNoNewline(env: Env, b: Batch, s: Bytes, sends: nat -> Sends, listens: Id -> bool)
    requires CrIsWhiteSpace(env.conv) && TextIsExact(env.conv) && AllFollowGrammar(b)
    requires Run(env, b, Arrive(env.conv, Lines(s), sends, 0)).error.None?
    ensures var done := Run(env, b, Arrive(env.conv, Lines(s), sends, 0)).batch;
            AllAlike(env, Outcome(env, b, Cut(s, Eof), sends, listens),
                          Outcome(env, b, Cut(s + [NL], Eof), sends, listens))
            <==> !(OnlyCrs(Residual(s)) && |Residual(s)| >= 2 && SomeoneWaits(done, listens))
  {
    var rest, k := Residual(s), |Arrive(env.conv, Lines(s), sends, 0)|;
    var done := Run(env, b, Arrive(env.conv, Lines(s), sends, 0)).batch;
    var without, ended := Read(env, b, Cut(s, Eof), sends), Read(env, b, Cut(s + [NL], Eof), sends);
    RunFollowsGrammar(env, b, Arrive(env.conv, Lines(s), sends, 0));
    ReadToTail(env, b, s, sends);
    SplitJoins(s);
    if OnlyCrs(rest) && |rest| >= 2 {
      CrsAreABadLine(env.conv, rest, sends, k);
      var line := Arrive(env.conv, [rest], sends, k);
      assert without == Verdict(done, MISSING) && ended == Verdict(done, line[0].record.msg);
      ToldApart(env, done, ended.msg, listens);
    } else {
      RestEndsAlike(env, done, rest, sends, k);
      ReadFollowsGrammar(env, b, Cut(s, Eof), sends);
      AllResolvedAlike(env, without.batch, without.msg, ended.msg, listens);
    }
  }

  /**
   The concrete stream: two carriage returns end quietly, with a newline they are a bad record, and a client
   that waits is told something else.
   */
  lemma FinalNewlineMatters(env: Env, id: Id, sends: nat -> Sends)
    requires CrIsWhiteSpace(env.conv) && TextIsExact(env.conv)
    ensures !AllAlike(env, Outcome(env, map[id := FRESH], Cut([CR, CR], Eof), sends, _ => true),
                           Outcome(env, map[id := FRESH], Cut([CR, CR, NL], Eof), sends, _ => true))
  {
    var s, b := [CR, CR], map[id := FRESH];
    NextNlUnique(s, 0, 2);
    assert Lines(s) == [] && Residual(s) == s;
    ClientsMissNoNewline(env, b, s, sends, _ => true);
    assert s + [NL] == [CR, CR, NL];
    assert id in b && b[id].phase.Waiting?;
  }
}
