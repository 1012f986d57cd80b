/**
 What happens to the requests of one outer batch inside the proxy: none is lost, none is answered
 twice, they are handed out in order, and the response stream is closed once, when all are answered.
 */
module ProxyBatch {
  import opened Prelude
  import opened StreamWire
  import opened ProxyMachine

  function RecordIds(sent: seq<Record>): (ids: seq<Id>)
    ensures |ids| == |sent|
    ensures forall k :: 0 <= k < |ids| ==> ids[k] == sent[k].id
  {
    seq(|sent|, k requires 0 <= k < |sent| => sent[k].id)
  }

  ghost function ToSet(s: seq<Id>): set<Id> {
    set id | id in s
  }

  /** The requests handed to the runtime so far, in order, unless their id is no header value. */
  ghost function Deliverable(cfg: Config, ids: seq<Id>): seq<Id> {
    if ids == [] then []
    else Deliverable(cfg, ids[..|ids| - 1]) + if cfg.headerOk(ids[|ids| - 1]) then [ids[|ids| - 1]] else []
  }

  /** taken ++ queue is the batch; taken is split between inflight and answered. */
  ghost predicate Conserved(cfg: Config, outer: Outer, queue: seq<Virtual>, inflight: set<Id>) {
    && |queue| <= |outer.batch|
    && var taken := |outer.batch| - |queue|;
       var answered := RecordIds(outer.sent);
       && queue == outer.batch[taken..]
       && Distinct(Ids(outer.batch))
       && outer.delivered == Deliverable(cfg, Ids(outer.batch)[..taken])
       && Distinct(answered)
       && inflight !! ToSet(answered)
       && inflight + ToSet(answered) == ToSet(Ids(outer.batch)[..taken])
  }

  /** While a batch is open its stream is too, and something is still to be done. */
  ghost predicate BatchInv(cfg: Config, s: State) {
    match s.active
    case KhoneBatch(queue, inflight) =>
      && Conserved(cfg, s.outer, queue, inflight)
      && (queue != [] || inflight != {})
      && s.outer.closes == 0
    case KhoneFinalizing =>
      && Conserved(cfg, s.outer, [], {})
      && s.outer.closes == 1
    case _ => true
  }

  lemma TakeConserves(cfg: Config, outer: Outer, queue: seq<Virtual>, inflight: set<Id>)
    requires Conserved(cfg, outer, queue, inflight) && queue != []
    ensures var id := queue[0].id;
            && id !in inflight
            && Conserved(cfg, outer.(delivered := outer.delivered + if cfg.headerOk(id) then [id] else []),
                         queue[1..], inflight + {id})
  {
    var taken := |outer.batch| - |queue|;
    var ids := Ids(outer.batch);
    var id := queue[0].id;
    assert ids[taken] == id;
    assert ids[..taken + 1] == ids[..taken] + [id];
    assert ids[..taken + 1][..taken] == ids[..taken];
    assert id !in ids[..taken];
    assert ToSet(ids[..taken + 1]) == ToSet(ids[..taken]) + {id};
  }

  lemma CompleteConserves(cfg: Config, outer: Outer, queue: seq<Virtual>, inflight: set<Id>, id: Id, kind: Completion)
    requires Conserved(cfg, outer, queue, inflight) && id in inflight
    ensures Conserved(cfg, outer.(sent := outer.sent + [cfg.RecordFor(id, kind)]), queue, inflight - {id})
  {
    var r := cfg.RecordFor(id, kind);
    assert r.id == id;
    assert RecordIds(outer.sent + [r]) == RecordIds(outer.sent) + [id];
    assert ToSet(RecordIds(outer.sent) + [id]) == ToSet(RecordIds(outer.sent)) + {id};
  }

  lemma BatchStep(cfg: Config, s: State, step: Step)
    requires Exclusive(s) && BatchInv(cfg, s)
    requires Enabled(s, step) && Polite(s, step)
    ensures BatchInv(cfg, Apply(cfg, s, step))
  {
    ExclusiveStep(cfg, s, step);
    match s.active
    case KhoneBatch(queue, inflight) =>
      if step.TakeNext? && queue != [] { TakeConserves(cfg, s.outer, queue, inflight); }
      if step.Complete? && step.id in inflight { CompleteConserves(cfg, s.outer, queue, inflight, step.id, step.kind); }
    case PassThrough(_, _) =>
    case KhoneFinalizing =>
    case Idle =>
      if step.FetchedBatch? { FreshBatchConserved(cfg, step.virtuals); }
  }

  lemma FreshBatchConserved(cfg: Config, virtuals: seq<Virtual>)
    requires Distinct(Ids(virtuals))
    ensures Conserved(cfg, Outer(virtuals, [], [], 0), virtuals, {})
  {
    assert Ids(virtuals)[..0] == [];
  }

  /** Main result: every run conserves the requests of its batches, whatever ids are completed or how often. */
  lemma {:induction false} BatchAlways(cfg: Config, s: State, steps: seq<Step>)
    requires Exclusive(s) && BatchInv(cfg, s) && Runs(cfg, s, steps)
    ensures Exclusive(After(cfg, s, steps)) && BatchInv(cfg, After(cfg, s, steps))
    decreases |steps|
  {
    if steps != [] {
      ExclusiveStep(cfg, s, steps[0]);
      BatchStep(cfg, s, steps[0]);
      BatchAlways(cfg, Apply(cfg, s, steps[0]), steps[1..]);
    }
  }

  /** In particular, from the start. */
  lemma BatchFromTheStart(cfg: Config, steps: seq<Step>)
    requires Runs(cfg, INIT, steps)
    ensures Exclusive(After(cfg, INIT, steps)) && BatchInv(cfg, After(cfg, INIT, steps))
  {
    BatchAlways(cfg, INIT, steps);
  }

  lemma {:induction false} OneOfEach(s: seq<Id>, x: Id)
    requires Distinct(s)
    ensures multiset(s)[x] == if x in s then 1 else 0
    decreases |s|
  {
    if s != [] {
      var init, last := s[..|s| - 1], s[|s| - 1];
      assert s == init + [last];
      OneOfEach(init, x);
      assert last !in init;
    }
  }

  lemma SameMembers(a: seq<Id>, b: seq<Id>)
    requires Distinct(a) && Distinct(b) && ToSet(a) == ToSet(b)
    ensures multiset(a) == multiset(b)
  {
    forall x ensures multiset(a)[x] == multiset(b)[x] {
      OneOfEach(a, x);
      OneOfEach(b, x);
      assert x in a <==> x in ToSet(a);
      assert x in b <==> x in ToSet(b);
    }
  }

  /** When the stream has been closed, it holds one record per request of the batch. */
  lemma ClosedStreamIsPermutation(cfg: Config, s: State)
    requires BatchInv(cfg, s) && s.active.KhoneFinalizing?
    ensures multiset(RecordIds(s.outer.sent)) == multiset(Ids(s.outer.batch))
    ensures Distinct(RecordIds(s.outer.sent))
    ensures s.outer.delivered == Deliverable(cfg, Ids(s.outer.batch))
  {
    var ids := Ids(s.outer.batch);
    assert ids[..|ids|] == ids;
    SameMembers(RecordIds(s.outer.sent), ids);
  }

  lemma {:induction false} DeliverablePrefix(cfg: Config, ids: seq<Id>, n: nat)
    requires n <= |ids|
    ensures Deliverable(cfg, ids[..n]) <= Deliverable(cfg, ids)
    decreases |ids|
  {
    if n == |ids| {
      assert ids[..n] == ids;
    } else {
      var init := ids[..|ids| - 1];
      assert init[..n] == ids[..n];
      DeliverablePrefix(cfg, init, n);
    }
  }

  /** Requests are handed out in batch order: at any time, a prefix of the deliverable ones. */
  lemma DeliveredInOrder(cfg: Config, s: State)
    requires BatchInv(cfg, s) && s.active.KhoneBatch?
    ensures s.outer.delivered <= Deliverable(cfg, Ids(s.outer.batch))
  {
    DeliverablePrefix(cfg, Ids(s.outer.batch), |s.outer.batch| - |s.active.queue|);
  }

  /** What is still to be done for the open batch. */
  ghost function Work(s: State): nat {
    match s.active
    case KhoneBatch(queue, inflight) => 2 * |queue| + |inflight|
    case _ => 0
  }

  /** The step hands out a request or accepts a completion. */
  ghost predicate Advances(s: State, step: Step) {
    && s.active.KhoneBatch?
    && ((step.TakeNext? && s.active.queue != []) || (step.Complete? && step.id in s.active.inflight))
  }

  lemma OneMoreId(ids: set<Id>, id: Id)
    requires id !in ids
    ensures |ids + {id}| == |ids| + 1
  {
  }

  lemma TakeIsOneUnit(cfg: Config, s: State)
    requires BatchInv(cfg, s) && s.active.KhoneBatch? && s.active.queue != []
    ensures Work(AfterTake(cfg, s)) == Work(s) - 1 && Work(s) > 1
    ensures AfterTake(cfg, s).active.KhoneBatch? && AfterTake(cfg, s).outer.closes == 0
  {
    var queue, inflight := s.active.queue, s.active.inflight;
    TakeConserves(cfg, s.outer, queue, inflight);
    OneMoreId(inflight, queue[0].id);
  }

  lemma CompleteIsOneUnit(cfg: Config, s: State, id: Id, kind: Completion)
    requires BatchInv(cfg, s) && s.active.KhoneBatch? && id in s.active.inflight
    ensures var s' := AfterComplete(cfg, s, id, kind);
            && Work(s') == Work(s) - 1
            && (s'.active.KhoneFinalizing? <==> Work(s') == 0)
            && s'.outer.closes == (if Work(s') == 0 then 1 else 0)
  {
    var left := s.active.inflight - {id};
    assert |left| == |s.active.inflight| - 1;
    if left != {} { assert |left| > 0; }
  }

  /**
   Main result: on an open batch every step either changes nothing of it or does exactly one unit
   of its work, and the stream is closed by the very step that does the last one.
   */
  lemma BatchProgress(cfg: Config, s: State, step: Step)
    requires Exclusive(s) && BatchInv(cfg, s) && s.active.KhoneBatch?
    requires Enabled(s, step) && Polite(s, step)
    ensures var s' := Apply(cfg, s, step);
            && Work(s) > 0
            && Work(s') == Work(s) - (if Advances(s, step) then 1 else 0)
            && (!Advances(s, step) ==> s'.active == s.active && s'.outer == s.outer)
            && (s'.active.KhoneFinalizing? <==> Work(s') == 0)
            && s'.outer.closes == (if Work(s') == 0 then 1 else 0)
  {
    if s.active.inflight != {} { assert |s.active.inflight| > 0; }
    if !Advances(s, step) {
      ExclusiveStep(cfg, s, step);
      assert Apply(cfg, s, step).active == s.active;
    } else if step.TakeNext? {
      TakeIsOneUnit(cfg, s);
    } else {
      CompleteIsOneUnit(cfg, s, step.id, step.kind);
    }
  }

  // ---------------------------------------------------------------- whose answer is whose

  /** The step is a completion that the proxy accepts as the answer to a request of the batch. */
  ghost predicate Accepts(s: State, step: Step) {
    step.Complete? && s.active.KhoneBatch? && step.id in s.active.inflight
  }

  /**
   Every completion that is accepted along the run is the one its handler produced. Completions that
   are not accepted - second ones, unknown ids - may carry anything.
   */
  ghost predicate HandledBy(cfg: Config, s: State, steps: seq<Step>, handler: Id -> Completion)
    requires Runs(cfg, s, steps)
    decreases |steps|
  {
    steps == []
    || ((Accepts(s, steps[0]) ==> steps[0].kind == handler(steps[0].id))
        && HandledBy(cfg, Apply(cfg, s, steps[0]), steps[1..], handler))
  }

  ghost predicate AnsweredBy(cfg: Config, outer: Outer, handler: Id -> Completion) {
    forall k :: 0 <= k < |outer.sent| ==> RecordsCompletion(cfg, outer.sent[k], handler(outer.sent[k].id))
  }

  /** The record is the one the completion turns into, and holds what the completion brought. */
  ghost predicate RecordsCompletion(cfg: Config, r: Record, kind: Completion) {
    r == cfg.RecordFor(r.id, kind) && HoldsCompletion(cfg.parseAnswer, r, kind)
  }

  lemma AnsweredStep(cfg: Config, s: State, step: Step, handler: Id -> Completion)
    requires Enabled(s, step) && AnsweredBy(cfg, s.outer, handler)
    requires Accepts(s, step) ==> step.kind == handler(step.id)
    ensures AnsweredBy(cfg, Apply(cfg, s, step).outer, handler)
  {
    if step.Complete? {
      RecordForHolds(cfg, step.id, step.kind);
    }
  }

  /** Main result: whatever else is completed, every record in the stream is its own handler's completion. */
  lemma {:induction false} AnsweredAlways(cfg: Config, s: State, steps: seq<Step>, handler: Id -> Completion)
    requires Runs(cfg, s, steps) && HandledBy(cfg, s, steps, handler) && AnsweredBy(cfg, s.outer, handler)
    ensures AnsweredBy(cfg, After(cfg, s, steps).outer, handler)
    decreases |steps|
  {
    if steps != [] {
      AnsweredStep(cfg, s, steps[0], handler);
      AnsweredAlways(cfg, Apply(cfg, s, steps[0]), steps[1..], handler);
    }
  }

  /** The batch stays the same batch until the next one is fetched. */
  lemma {:induction false} SameBatch(cfg: Config, s: State, steps: seq<Step>)
    requires Exclusive(s) && Runs(cfg, s, steps)
    ensures After(cfg, s, steps).epoch >= s.epoch
    ensures After(cfg, s, steps).epoch == s.epoch ==> After(cfg, s, steps).outer.batch == s.outer.batch
    decreases |steps|
  {
    if steps != [] {
      ExclusiveStep(cfg, s, steps[0]);
      SameBatch(cfg, Apply(cfg, s, steps[0]), steps[1..]);
    }
  }

  // ---------------------------------------------------------------- when a batch can finish

  /** Completions along the run only name requests that were handed out. */
  ghost predicate OnlyDelivered(cfg: Config, s: State, steps: seq<Step>)
    requires Runs(cfg, s, steps)
    decreases |steps|
  {
    steps == []
    || ((steps[0].Complete? ==> steps[0].id in s.outer.delivered)
        && OnlyDelivered(cfg, Apply(cfg, s, steps[0]), steps[1..]))
  }

  ghost predicate Unanswered(s: State, id: Id) {
    id in Ids(s.outer.batch) && id !in RecordIds(s.outer.sent)
  }

  lemma {:induction false} DeliveredIsDeliverable(cfg: Config, ids: seq<Id>, id: Id)
    ensures id in Deliverable(cfg, ids) <==> id in ids && cfg.headerOk(id)
    decreases |ids|
  {
    if ids != [] {
      DeliveredIsDeliverable(cfg, ids[..|ids| - 1], id);
      assert ids == ids[..|ids| - 1] + [ids[|ids| - 1]];
    }
  }

  lemma StaysOpen(cfg: Config, s: State, step: Step, id: Id)
    requires Exclusive(s) && BatchInv(cfg, s) && s.active.KhoneBatch? && Unanswered(s, id) && !cfg.headerOk(id)
    requires Enabled(s, step) && Polite(s, step) && (step.Complete? ==> step.id in s.outer.delivered)
    ensures Apply(cfg, s, step).active.KhoneBatch? && Unanswered(Apply(cfg, s, step), id)
  {
    var s' := Apply(cfg, s, step);
    ExclusiveStep(cfg, s, step);
    BatchStep(cfg, s, step);
    var taken := |s.outer.batch| - |s.active.queue|;
    if step.Complete? {
      DeliveredIsDeliverable(cfg, Ids(s.outer.batch)[..taken], id);
      assert step.id != id;
      if step.id in s.active.inflight {
        assert RecordIds(s'.outer.sent) == RecordIds(s.outer.sent) + [step.id];
      }
    }
    if s'.active.KhoneFinalizing? {
      ClosedHasAll(cfg, s', id);
      assert false;
    }
  }

  lemma ClosedHasAll(cfg: Config, s: State, id: Id)
    requires BatchInv(cfg, s) && s.active.KhoneFinalizing? && id in Ids(s.outer.batch)
    ensures id in RecordIds(s.outer.sent)
  {
    var ids := Ids(s.outer.batch);
    assert ids[..|ids|] == ids;
    assert id in ToSet(RecordIds(s.outer.sent));
  }

  /** While only requests that were handed out are completed, one that cannot be keeps its batch open for good. */
  lemma {:induction false} UndeliverableKeepsOpen(cfg: Config, s: State, steps: seq<Step>, id: Id)
    requires Exclusive(s) && BatchInv(cfg, s) && s.active.KhoneBatch? && Unanswered(s, id) && !cfg.headerOk(id)
    requires Runs(cfg, s, steps) && OnlyDelivered(cfg, s, steps)
    ensures After(cfg, s, steps).active.KhoneBatch? && Unanswered(After(cfg, s, steps), id)
    decreases |steps|
  {
    if steps != [] {
      StaysOpen(cfg, s, steps[0], id);
      ExclusiveStep(cfg, s, steps[0]);
      BatchStep(cfg, s, steps[0]);
      UndeliverableKeepsOpen(cfg, Apply(cfg, s, steps[0]), steps[1..], id);
    }
  }

  /** The next step towards finishing: hand out a request, or complete one that was handed out. */
  lemma NextTowardsTheEnd(cfg: Config, s: State, handler: Id -> Completion) returns (step: Step)
    requires Exclusive(s) && BatchInv(cfg, s) && s.active.KhoneBatch?
    requires AllDeliverable(cfg, s)
    ensures Enabled(s, step) && Polite(s, step) && Advances(s, step)
    ensures step.Complete? ==> step.id in s.outer.delivered && step.kind == handler(step.id)
  {
    var queue, inflight := s.active.queue, s.active.inflight;
    if queue != [] {
      return TakeNext;
    }
    var id :| id in inflight;
    var taken := |s.outer.batch| - |queue|;
    assert id in ToSet(Ids(s.outer.batch)[..taken]);
    assert id !in RecordIds(s.outer.sent) by { assert id !in ToSet(RecordIds(s.outer.sent)); }
    assert Unanswered(s, id);
    DeliveredIsDeliverable(cfg, Ids(s.outer.batch)[..taken], id);
    step := Complete(id, handler(id));
  }

  lemma PrependStep(cfg: Config, s: State, step: Step, rest: seq<Step>, handler: Id -> Completion)
    requires Enabled(s, step) && Polite(s, step) && Runs(cfg, Apply(cfg, s, step), rest)
    requires step.Complete? ==> step.id in s.outer.delivered && step.kind == handler(step.id)
    requires OnlyDelivered(cfg, Apply(cfg, s, step), rest) && HandledBy(cfg, Apply(cfg, s, step), rest, handler)
    ensures Runs(cfg, s, [step] + rest) && After(cfg, s, [step] + rest) == After(cfg, Apply(cfg, s, step), rest)
    ensures OnlyDelivered(cfg, s, [step] + rest) && HandledBy(cfg, s, [step] + rest, handler)
  {
    assert ([step] + rest)[1..] == rest;
  }

  ghost predicate AllDeliverable(cfg: Config, s: State) {
    forall id :: Unanswered(s, id) ==> cfg.headerOk(id)
  }

  lemma AdvanceKeepsDeliverable(cfg: Config, s: State, step: Step)
    requires Exclusive(s) && BatchInv(cfg, s) && s.active.KhoneBatch? && AllDeliverable(cfg, s)
    requires Enabled(s, step) && Polite(s, step) && Advances(s, step)
    ensures var s' := Apply(cfg, s, step);
            && Exclusive(s') && BatchInv(cfg, s') && AllDeliverable(cfg, s') && Work(s') < Work(s)
            && (s'.active.KhoneBatch? || s'.active.KhoneFinalizing?)
  {
    ExclusiveStep(cfg, s, step);
    BatchStep(cfg, s, step);
    BatchProgress(cfg, s, step);
    SentGrows(cfg, s, step);
  }

  /** If every unanswered request can be handed out, completing what was handed out finishes the batch. */
  lemma {:induction false} DeliverableFinishes(cfg: Config, s: State, handler: Id -> Completion)
    returns (steps: seq<Step>)
    requires Exclusive(s) && BatchInv(cfg, s) && s.active.KhoneBatch? && AllDeliverable(cfg, s)
    ensures Runs(cfg, s, steps) && OnlyDelivered(cfg, s, steps) && HandledBy(cfg, s, steps, handler)
    ensures After(cfg, s, steps).active.KhoneFinalizing?
    decreases Work(s)
  {
    var step := NextTowardsTheEnd(cfg, s, handler);
    AdvanceKeepsDeliverable(cfg, s, step);
    var rest: seq<Step> := [];
    if Apply(cfg, s, step).active.KhoneBatch? {
      rest := DeliverableFinishes(cfg, Apply(cfg, s, step), handler);
    }
    PrependStep(cfg, s, step, rest, handler);
    steps := [step] + rest;
  }

  lemma SentGrows(cfg: Config, s: State, step: Step)
    requires Exclusive(s) && BatchInv(cfg, s) && s.active.KhoneBatch? && Enabled(s, step) && Polite(s, step)
    ensures Apply(cfg, s, step).outer.batch == s.outer.batch
    ensures forall id :: id in RecordIds(s.outer.sent) ==> id in RecordIds(Apply(cfg, s, step).outer.sent)
  {
    var s' := Apply(cfg, s, step);
    ExclusiveStep(cfg, s, step);
    assert s.outer.sent <= s'.outer.sent;
    forall id | id in RecordIds(s.outer.sent) ensures id in RecordIds(s'.outer.sent) {
      var k :| 0 <= k < |s.outer.sent| && RecordIds(s.outer.sent)[k] == id;
      assert RecordIds(s'.outer.sent)[k] == id;
    }
  }

  ghost predicate CanFinish(cfg: Config, s: State) {
    exists steps :: Runs(cfg, s, steps) && OnlyDelivered(cfg, s, steps) && After(cfg, s, steps).active.KhoneFinalizing?
  }

  /**
   Main result, exactly when a batch can finish without anybody completing a request it never got: when
   every request still to be answered has an id that is a valid header value.
   */
  lemma CanFinishIff(cfg: Config, s: State)
    requires Exclusive(s) && BatchInv(cfg, s) && s.active.KhoneBatch?
    ensures CanFinish(cfg, s) <==> AllDeliverable(cfg, s)
  {
    if CanFinish(cfg, s) {
      var steps :| Runs(cfg, s, steps) && OnlyDelivered(cfg, s, steps) && After(cfg, s, steps).active.KhoneFinalizing?;
      forall id | Unanswered(s, id) ensures cfg.headerOk(id) {
        if !cfg.headerOk(id) { UndeliverableKeepsOpen(cfg, s, steps, id); }
      }
    }
    if AllDeliverable(cfg, s) {
      var steps := DeliverableFinishes(cfg, s, _ => ErrorReport);
    }
  }

  lemma TakenAlone(cfg: Config, v: Virtual)
    requires !cfg.headerOk(v.id)
    ensures var steps := [BeginFetch, FetchedBatch([v]), TakeNext];
            Runs(cfg, INIT, steps) && After(cfg, INIT, steps).active == KhoneBatch([], {v.id})
                                   && After(cfg, INIT, steps).outer == Outer([v], [], [], 0)
  {
    var s1 := Apply(cfg, INIT, BeginFetch);
    assert Ids([v]) == [v.id] && Distinct(Ids([v]));
    var s2 := Apply(cfg, s1, FetchedBatch([v]));
    var s3 := Apply(cfg, s2, TakeNext);
    assert s2.active == KhoneBatch([v], {}) && s3.active == KhoneBatch([], {v.id});
    assert Runs(cfg, s3, []) && After(cfg, s3, []) == s3;
    assert [TakeNext][1..] == [] && Runs(cfg, s2, [TakeNext]) && After(cfg, s2, [TakeNext]) == s3;
    var last := [FetchedBatch([v]), TakeNext];
    assert last[1..] == [TakeNext] && Runs(cfg, s1, last) && After(cfg, s1, last) == s3;
    var steps := [BeginFetch, FetchedBatch([v]), TakeNext];
    assert steps[1..] == last && Runs(cfg, INIT, steps) && After(cfg, INIT, steps) == s3;
  }

  /** The concrete run: a batch of one request whose id is no header value is taken and then stuck. */
  lemma OneUndeliverable(cfg: Config, v: Virtual)
    requires !cfg.headerOk(v.id)
    ensures var steps := [BeginFetch, FetchedBatch([v]), TakeNext];
            && Runs(cfg, INIT, steps)
            && var s := After(cfg, INIT, steps);
               s.active == KhoneBatch([], {v.id}) && s.outer.delivered == [] && !CanFinish(cfg, s)
  {
    var steps := [BeginFetch, FetchedBatch([v]), TakeNext];
    TakenAlone(cfg, v);
    BatchFromTheStart(cfg, steps);
    var s := After(cfg, INIT, steps);
    CanFinishIff(cfg, s);
    assert Ids(s.outer.batch)[0] == v.id && Unanswered(s, v.id);
  }
}
