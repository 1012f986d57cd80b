/**
 The Runtime API proxy as a state machine over its critical sections. Between two sections anything
 else may run: upstream fetches, forwarded completions and finalize tasks that are between locks are
 counted in the state, so that an interleaving is just a sequence of steps.
 */
module ProxyMachine {
  import opened Prelude
  import opened StreamWire

  /** One request of a batch, as the runtime sees it. */
  datatype Virtual = Virtual(id: Id, event: Bytes)

  /** What a handler's answer parses to. */
  datatype Answer = Answer(statusCode: nat, headers: RawHeaders, cookies: seq<string>, body: string, isBase64: bool)

  datatype Completion = ResponseBody(body: Bytes) | ErrorReport

  /** JSON and header syntax are library behaviour. */
  datatype Config = Config(parseAnswer: Bytes -> Option<Answer>, headerOk: Id -> bool) {

    /** The record a completion turns into; an unreadable answer becomes 502, an error report 500. */
    function RecordFor(id: Id, kind: Completion): Record {
      match kind
      case ErrorReport => ErrorRecordFor(id, 500)
      case ResponseBody(body) =>
        match parseAnswer(body)
        case None => ErrorRecordFor(id, BAD_GATEWAY)
        case Some(a) => Legacy(1, id, a.statusCode, a.headers, a.cookies, a.body, a.isBase64)
    }

    function ErrorRecordFor(id: Id, status: nat): Record {
      Legacy(1, id, status, map[], [], "", false)
    }
  }

  /** The record says nothing but a status. */
  ghost predicate IsEmptyRecord(r: Record, status: nat) {
    && r.Legacy? && r.v == 1 && r.statusCode == status
    && r.headers == map[] && r.cookies == [] && r.body == "" && !r.isBase64
  }

  /** The record holds what the completion brought: the answer's own fields, or 502 or 500 and nothing else. */
  ghost predicate HoldsCompletion(parseAnswer: Bytes -> Option<Answer>, r: Record, kind: Completion) {
    match kind
    case ErrorReport => IsEmptyRecord(r, 500)
    case ResponseBody(body) =>
      match parseAnswer(body)
      case None => IsEmptyRecord(r, 502)
      case Some(a) =>
        && r.Legacy? && r.v == 1
        && r.statusCode == a.statusCode && r.headers == a.headers && r.cookies == a.cookies
        && r.body == a.body && r.isBase64 == a.isBase64
  }

  lemma RecordForHolds(cfg: Config, id: Id, kind: Completion)
    ensures cfg.RecordFor(id, kind).id == id
    ensures HoldsCompletion(cfg.parseAnswer, cfg.RecordFor(id, kind), kind)
  {
  }

  datatype Active =
    | Idle
    | PassThrough(requestId: Id, delivered: bool)
    | KhoneBatch(queue: seq<Virtual>, inflight: set<Id>)
    | KhoneFinalizing

  /** The latest outer batch: what it asked for, what was handed out, what was streamed back. */
  datatype Outer = Outer(batch: seq<Virtual>, delivered: seq<Id>, sent: seq<Record>, closes: nat)

  datatype State = State(
    fetchingOuter: bool,
    active: Active,
    fetches: nat,             // upstream /next calls in flight
    forwards: multiset<nat>,  // forwarded completions in flight, by the invocation they belong to
    finalizers: nat,          // finalize tasks not yet through
    epoch: nat,               // numbers the invocations fetched so far
    outer: Outer
  )

  const INIT := State(false, Idle, 0, multiset{}, 0, 0, Outer([], [], [], 1))

  datatype Step =
    | TakeNext
    | BeginFetch
    | FetchedBatch(virtuals: seq<Virtual>)
    | FetchedPassThrough(requestId: Id)
    | FetchFailed
    | Complete(id: Id, kind: Completion)
    | ForwardDone(of: nat, success: bool)
    | FinalizeDone

  function Ids(virtuals: seq<Virtual>): (ids: seq<Id>)
    ensures |ids| == |virtuals|
    ensures forall k :: 0 <= k < |ids| ==> ids[k] == virtuals[k].id
  {
    seq(|virtuals|, k requires 0 <= k < |virtuals| => virtuals[k].id)
  }

  /** What the environment can do at all: only what was started can end, and batches are well-formed. */
  ghost predicate Enabled(s: State, step: Step) {
    match step
    case FetchedBatch(virtuals) => s.fetches > 0 && virtuals != [] && Distinct(Ids(virtuals))
    case FetchedPassThrough(_) => s.fetches > 0
    case FetchFailed => s.fetches > 0
    case ForwardDone(e, _) => e in s.forwards
    case FinalizeDone => s.finalizers > 0
    case _ => true
  }

  ghost function Apply(cfg: Config, s: State, step: Step): State
    requires Enabled(s, step)
  {
    match step
    case TakeNext => AfterTake(cfg, s)
    case BeginFetch =>
      if s.active.Idle? && !s.fetchingOuter then s.(fetchingOuter := true, fetches := s.fetches + 1) else s
    case FetchedBatch(virtuals) =>
      s.(fetchingOuter := false, fetches := s.fetches - 1, epoch := s.epoch + 1,
         active := KhoneBatch(virtuals, {}), outer := Outer(virtuals, [], [], 0))
    case FetchedPassThrough(id) =>
      s.(fetchingOuter := false, fetches := s.fetches - 1, epoch := s.epoch + 1, active := PassThrough(id, false))
    case FetchFailed => s.(fetchingOuter := false, fetches := s.fetches - 1)
    case Complete(id, kind) => AfterComplete(cfg, s, id, kind)
    case ForwardDone(e, success) =>
      s.(forwards := s.forwards - multiset{e}, active := if success then Idle else s.active)
    case FinalizeDone => s.(finalizers := s.finalizers - 1, active := Idle)
  }

  ghost function AfterTake(cfg: Config, s: State): State {
    match s.active
    case PassThrough(id, _) => s.(active := PassThrough(id, true))
    case KhoneBatch(queue, inflight) =>
      if queue == [] then s
      else
        var id := queue[0].id;
        s.(active := KhoneBatch(queue[1..], inflight + {id}),
           outer := s.outer.(delivered := s.outer.delivered + if cfg.headerOk(id) then [id] else []))
    case _ => s
  }

  ghost function AfterComplete(cfg: Config, s: State, id: Id, kind: Completion): State {
    match s.active
    case PassThrough(requestId, _) =>
      if id == requestId then s.(forwards := s.forwards + multiset{s.epoch}) else s
    case KhoneBatch(queue, inflight) =>
      if id !in inflight then s
      else
        var sent := s.outer.sent + [cfg.RecordFor(id, kind)];
        var left := inflight - {id};
        if queue == [] && left == {} then
          s.(active := KhoneFinalizing, finalizers := s.finalizers + 1,
             outer := s.outer.(sent := sent, closes := s.outer.closes + 1))
        else s.(active := KhoneBatch(queue, left), outer := s.outer.(sent := sent))
    case _ => s
  }

  /** The one assumption: a pass-through id is not completed again while its completion is being forwarded. */
  ghost predicate Polite(s: State, step: Step) {
    step.Complete? && s.active.PassThrough? && step.id == s.active.requestId ==> s.forwards == multiset{}
  }

  ghost predicate Runs(cfg: Config, s: State, steps: seq<Step>)
    decreases |steps|
  {
    steps == [] || (Enabled(s, steps[0]) && Polite(s, steps[0]) && Runs(cfg, Apply(cfg, s, steps[0]), steps[1..]))
  }

  ghost function After(cfg: Config, s: State, steps: seq<Step>): State
    requires Runs(cfg, s, steps)
    decreases |steps|
  {
    if steps == [] then s else After(cfg, Apply(cfg, s, steps[0]), steps[1..])
  }

  // ---------------------------------------------------------------- exclusivity

  /** One fetch, one forward, one finalizer at most, each exactly in the phase it belongs to. */
  ghost predicate Exclusive(s: State) {
    && s.fetches == (if s.fetchingOuter then 1 else 0)
    && (s.fetchingOuter ==> s.active.Idle?)
    && s.finalizers == (if s.active.KhoneFinalizing? then 1 else 0)
    && (s.forwards == multiset{} || (s.active.PassThrough? && s.forwards == multiset{s.epoch}))
  }

  /** How one step may change the active invocation: nothing ever replaces somebody else's. */
  ghost predicate LegalEdge(s: State, step: Step, s': State) {
    match s.active
    case Idle =>
      || s'.active == Idle
      || (s'.epoch == s.epoch + 1
          && ((step.FetchedBatch? && s'.active == KhoneBatch(step.virtuals, {}))
              || (step.FetchedPassThrough? && s'.active == PassThrough(step.requestId, false))))
    case PassThrough(id, delivered) =>
      && s'.epoch == s.epoch
      && (|| (s'.active.PassThrough? && s'.active.requestId == id && (delivered ==> s'.active.delivered))
          || (s'.active == Idle && step == ForwardDone(s.epoch, true)))
    case KhoneBatch(_, inflight) =>
      && s'.epoch == s.epoch
      && (s'.active.KhoneBatch? || (s'.active.KhoneFinalizing? && step.Complete? && inflight == {step.id}))
    case KhoneFinalizing =>
      && s'.epoch == s.epoch
      && (s'.active.KhoneFinalizing? || (s'.active == Idle && step.FinalizeDone?))
  }

  lemma ExclusiveStep(cfg: Config, s: State, step: Step)
    requires Exclusive(s) && Enabled(s, step) && Polite(s, step)
    ensures Exclusive(Apply(cfg, s, step))
    ensures LegalEdge(s, step, Apply(cfg, s, step))
  {
    match step
    case ForwardDone(e, success) =>
      assert s.forwards == multiset{s.epoch} && e == s.epoch;
      assert s.forwards - multiset{e} == multiset{};
    case Complete(id, kind) =>
      if s.active.PassThrough? && id == s.active.requestId {
        assert s.forwards + multiset{s.epoch} == multiset{s.epoch};
      }
      if s.active.KhoneBatch? && id in s.active.inflight && s.active.inflight - {id} == {} {
        assert s.active.inflight == {id};
      }
    case _ =>
  }

  /** Main result: over every run the machine is exclusive, and its next step is a legal one. */
  lemma {:induction false} ExclusiveAlways(cfg: Config, s: State, steps: seq<Step>)
    requires Exclusive(s) && Runs(cfg, s, steps)
    ensures Exclusive(After(cfg, s, steps))
    ensures forall step :: Enabled(After(cfg, s, steps), step) && Polite(After(cfg, s, steps), step)
              ==> LegalEdge(After(cfg, s, steps), step, Apply(cfg, After(cfg, s, steps), step))
    decreases |steps|
  {
    if steps == [] {
      forall step | Enabled(s, step) && Polite(s, step) ensures LegalEdge(s, step, Apply(cfg, s, step)) {
        ExclusiveStep(cfg, s, step);
      }
    } else {
      ExclusiveStep(cfg, s, steps[0]);
      ExclusiveAlways(cfg, Apply(cfg, s, steps[0]), steps[1..]);
    }
  }

  /** In particular, from the start. */
  lemma ExclusiveFromTheStart(cfg: Config, steps: seq<Step>)
    requires Runs(cfg, INIT, steps)
    ensures Exclusive(After(cfg, INIT, steps))
    ensures forall step :: Enabled(After(cfg, INIT, steps), step) && Polite(After(cfg, INIT, steps), step)
              ==> LegalEdge(After(cfg, INIT, steps), step, Apply(cfg, After(cfg, INIT, steps), step))
  {
    ExclusiveAlways(cfg, INIT, steps);
  }

  /**
   Exactly when it breaks: from any state where a pass-through completion is being forwarded, one
   more completion of the same id lets the environment throw a whole batch away unanswered, by steps
   that are otherwise polite. So `Polite` cannot be weakened.
   */
  lemma ImpoliteLosesABatch(cfg: Config, s: State, kind: Completion, virtuals: seq<Virtual>)
    requires Exclusive(s) && s.active.PassThrough? && s.forwards != multiset{}
    requires virtuals != [] && Distinct(Ids(virtuals))
    ensures var twice := Apply(cfg, s, Complete(s.active.requestId, kind));
            var steps := [ForwardDone(s.epoch, true), BeginFetch, FetchedBatch(virtuals), ForwardDone(s.epoch, true)];
            && Runs(cfg, twice, steps)
            && After(cfg, twice, steps).active == Idle
            && After(cfg, twice, steps).outer == Outer(virtuals, [], [], 0)
  {
    var twice := Apply(cfg, s, Complete(s.active.requestId, kind));
    var first, second, third, last :=
      ForwardDone(s.epoch, true), BeginFetch, FetchedBatch(virtuals), ForwardDone(s.epoch, true);
    assert twice.forwards == multiset{s.epoch, s.epoch};
    var s1 := Apply(cfg, twice, first);
    assert s1.forwards == multiset{s.epoch};
    var s2 := Apply(cfg, s1, second);
    var s3 := Apply(cfg, s2, third);
    var s4 := Apply(cfg, s3, last);
    assert s4.active == Idle && s4.outer == Outer(virtuals, [], [], 0);
    assert Runs(cfg, s4, []) && After(cfg, s4, []) == s4;
    assert [last][1..] == [] && Runs(cfg, s3, [last]) && After(cfg, s3, [last]) == s4;
    assert [third, last][1..] == [last] && Runs(cfg, s2, [third, last]) && After(cfg, s2, [third, last]) == s4;
    assert [second, third, last][1..] == [third, last];
    assert Runs(cfg, s1, [second, third, last]) && After(cfg, s1, [second, third, last]) == s4;
    assert [first, second, third, last][1..] == [second, third, last];
  }
}
