/**
 Flushing a collected batch: build its items and its pending map, plan the invocations, and try to queue
 each of them; whoever cannot be queued is answered on the spot.
 */
module FlushBatch {
  import opened Prelude
  import opened Planner

  datatype BatchKey = BatchKey(targetLambda: string, httpMethod: string, route: string, streaming: bool,
                               profiling: bool, keyValues: seq<Option<string>>)

  /** A request with its key, and whether it waits for a stream or for one buffered response. */
  datatype Request = Request(id: Id, key: BatchKey, streamSink: bool, content: Bytes)

  type Pending = map<Id, Request>

  type Plan = InvocationPlan<Request>

  /** A queued invocation. Every job holds its batching task's feedback channel, probe or not. */
  datatype Job = Job(pending: Pending, payload: Bytes, isProbe: bool, reportsTo: nat)

  /** How an attempt to queue an invocation ends. */
  datatype TrySend = Sent | Full | Closed

  datatype Answer = Answer(status: nat, msg: string)

  const TOO_MANY_REQUESTS: nat := 429

  // ---------------------------------------------------------------- collecting

  /** The pending map of a mode: the requests of the batch whose sink fits it. */
  function Fitting(batch: seq<Request>, streaming: bool): Pending {
    if batch == [] then map[]
    else
      var rest, r := Fitting(batch[..|batch| - 1], streaming), batch[|batch| - 1];
      if r.streamSink == streaming then rest[r.id := r] else rest
  }

  function Items(batch: seq<Request>): (items: seq<BatchItem>)
    ensures |items| == |batch|
    ensures forall k :: 0 <= k < |batch| ==> items[k] == BatchItem(batch[k].id, batch[k].content)
  {
    seq(|batch|, k requires 0 <= k < |batch| => BatchItem(batch[k].id, batch[k].content))
  }

  method CollectPending(batch: seq<Request>) returns (buffered: Pending, stream: Pending, items: seq<BatchItem>)
    ensures buffered == Fitting(batch, false) && stream == Fitting(batch, true)
    ensures items == Items(batch)
  {
    buffered, stream, items := map[], map[], [];
    for k := 0 to |batch|
      invariant buffered == Fitting(batch[..k], false) && stream == Fitting(batch[..k], true)
      invariant items == Items(batch[..k])
    {
      var r := batch[k];
      assert batch[..k + 1][..k] == batch[..k];
      if r.streamSink {
        stream := stream[r.id := r];
      } else {
        buffered := buffered[r.id := r];
      }
      items := items + [BatchItem(r.id, r.content)];
    }
    assert batch[..|batch|] == batch;
  }

  // ---------------------------------------------------------------- queueing

  /** What the requests of a plan are told when it is not queued. */
  function Refusal(plan: Plan, outcome: TrySend): Answer {
    if plan.Fail? then Answer(plan.status, plan.msg)
    else if outcome.Full? then Answer(TOO_MANY_REQUESTS, "gateway overloaded")
    else Answer(BAD_GATEWAY, "gateway shutting down")
  }

  predicate IsQueued(plan: Plan, outcome: TrySend) {
    plan.Invoke? && outcome.Sent?
  }

  function AnswerAll(pending: Pending, answer: Answer): map<Id, Answer> {
    map id | id in pending :: answer
  }

  function JobOf(plan: Plan, isProbe: bool, task: nat): Job
    requires plan.Invoke?
  {
    Job(plan.pending, plan.payload, isProbe, task)
  }

  /** The jobs of the first n plans that were queued; outcomes(k) is what happens when plan k is sent. */
  function QueuedJobs(plans: seq<Plan>, outcomes: nat -> TrySend, n: nat, isProbe: bool, task: nat): seq<Job>
    requires n <= |plans|
  {
    if n == 0 then []
    else QueuedJobs(plans, outcomes, n - 1, isProbe, task)
         + if IsQueued(plans[n - 1], outcomes(n - 1)) then [JobOf(plans[n - 1], isProbe, task)] else []
  }

  /** How often feedback is given for the first n plans at once: by every probe that could not be queued. */
  function RefusedReports(plans: seq<Plan>, outcomes: nat -> TrySend, n: nat, isProbe: bool): nat
    requires n <= |plans|
  {
    if n == 0 then 0
    else RefusedReports(plans, outcomes, n - 1, isProbe)
         + if isProbe && plans[n - 1].Invoke? && !outcomes(n - 1).Sent? then 1 else 0
  }

  function PlanAnswers(plans: seq<Plan>, outcomes: nat -> TrySend, n: nat): map<Id, Answer>
    requires n <= |plans|
  {
    if n == 0 then map[]
    else PlanAnswers(plans, outcomes, n - 1)
         + if IsQueued(plans[n - 1], outcomes(n - 1)) then map[]
           else AnswerAll(plans[n - 1].pending, Refusal(plans[n - 1], outcomes(n - 1)))
  }

  function Unexpected(streaming: bool): Answer {
    Answer(BAD_GATEWAY, if streaming then "unexpected buffered response sink" else "unexpected streaming response sink")
  }

  /** Everybody of the wrong mode is told so, and everybody whose plan is not queued is told why. */
  function AnswersOf(plans: seq<Plan>, outcomes: nat -> TrySend, batch: seq<Request>, streaming: bool)
    : map<Id, Answer>
  {
    AnswerAll(Fitting(batch, !streaming), Unexpected(streaming)) + PlanAnswers(plans, outcomes, |plans|)
  }

  function PlansOf(build: Builder, limit: nat, batch: seq<Request>, streaming: bool): seq<Plan> {
    PlanInvocations(build, limit, Fitting(batch, streaming), Items(batch)).plans
  }

  // ---------------------------------------------------------------- nobody is lost

  ghost predicate DistinctRequests(batch: seq<Request>) {
    forall i, j :: 0 <= i < j < |batch| ==> batch[i].id != batch[j].id
  }

  ghost predicate InBatch(batch: seq<Request>, id: Id) {
    exists k :: 0 <= k < |batch| && batch[k].id == id
  }

  lemma InBatchNext(batch: seq<Request>, last: Request, id: Id)
    ensures InBatch(batch + [last], id) <==> InBatch(batch, id) || last.id == id
  {
    var all := batch + [last];
    if InBatch(batch, id) {
      var k :| 0 <= k < |batch| && batch[k].id == id;
      assert all[k].id == id;
    }
    if last.id == id { assert all[|batch|].id == id; }
  }

  lemma DistinctInit(init: seq<Request>, last: Request)
    requires DistinctRequests(init + [last])
    ensures DistinctRequests(init) && !InBatch(init, last.id)
  {
    var all := init + [last];
    forall i | 0 <= i < |init| ensures init[i].id != last.id {
      assert all[i].id != all[|init|].id;
    }
    forall i, j | 0 <= i < j < |init| ensures init[i].id != init[j].id {
      assert all[i].id != all[j].id;
    }
  }

  /** Every request of the batch fits one mode, and with distinct ids only one. */
  lemma {:induction false} FittingIds(batch: seq<Request>, streaming: bool, id: Id)
    ensures id in Fitting(batch, streaming) || id in Fitting(batch, !streaming) <==> InBatch(batch, id)
    ensures DistinctRequests(batch) ==> !(id in Fitting(batch, streaming) && id in Fitting(batch, !streaming))
    decreases |batch|
  {
    if batch != [] {
      var init, last := batch[..|batch| - 1], batch[|batch| - 1];
      FittingIds(init, streaming, id);
      InBatchNext(init, last, id);
      assert batch == init + [last];
      if DistinctRequests(batch) {
        DistinctInit(init, last);
      }
    }
  }

  ghost function InJob(job: Job, id: Id): nat {
    if id in job.pending then 1 else 0
  }

  /** How many of the jobs hold an entry for id. */
  ghost function InJobs(jobs: seq<Job>, id: Id): nat {
    if jobs == [] then 0 else InJobs(jobs[..|jobs| - 1], id) + InJob(jobs[|jobs| - 1], id)
  }

  lemma AppendJob(jobs: seq<Job>, job: Job, id: Id)
    ensures InJobs(jobs + [job], id) == InJobs(jobs, id) + InJob(job, id)
  {
    assert (jobs + [job])[..|jobs|] == jobs;
  }

  lemma {:induction false} QueuedOrAnswered(plans: seq<Plan>, outcomes: nat -> TrySend, n: nat, isProbe: bool,
                                            task: nat, id: Id)
    requires n <= |plans| && Holders(plans[..n], id) <= 1
    ensures InJobs(QueuedJobs(plans, outcomes, n, isProbe, task), id)
            + (if id in PlanAnswers(plans, outcomes, n) then 1 else 0)
         == Holders(plans[..n], id)
  {
    if n > 0 {
      var before, plan := QueuedJobs(plans, outcomes, n - 1, isProbe, task), plans[n - 1];
      assert plans[..n] == plans[..n - 1] + [plan];
      HoldersConcat(plans[..n - 1], [plan], id);
      assert Holders([plan], id) == if id in plan.pending then 1 else 0;
      QueuedOrAnswered(plans, outcomes, n - 1, isProbe, task, id);
      if IsQueued(plan, outcomes(n - 1)) {
        AppendJob(before, JobOf(plan, isProbe, task), id);
      } else {
        assert before + [] == before;
      }
    }
  }

  /**
   Main result: whatever the payload sizes and however the queue reacts, each request of the batch is
   either in exactly one queued invocation or answered, never both; no other id is in either.
   */
  lemma FlushLosesNobody(build: Builder, limit: nat, streaming: bool, batch: seq<Request>, outcomes: nat -> TrySend,
                         isProbe: bool, task: nat, id: Id)
    requires DistinctRequests(batch)
    ensures var plans := PlansOf(build, limit, batch, streaming);
            var answers := AnswersOf(plans, outcomes, batch, streaming);
            InJobs(QueuedJobs(plans, outcomes, |plans|, isProbe, task), id) + (if id in answers then 1 else 0)
              == if InBatch(batch, id) then 1 else 0
  {
    var pending := Fitting(batch, streaming);
    var plans := PlansOf(build, limit, batch, streaming);
    PlansPartition(build, limit, pending, Items(batch));
    assert plans[..|plans|] == plans;
    assert Holders(plans, id) == if id in pending then 1 else 0;
    QueuedOrAnswered(plans, outcomes, |plans|, isProbe, task, id);
    FittingIds(batch, streaming, id);
  }

  // ---------------------------------------------------------------- what a flush does, read off the batch

  /** The requests of a stretch of the batch that wait for this mode, and nobody else. */
  ghost predicate HoldsStretch(pending: Pending, batch: seq<Request>, streaming: bool, lo: nat, hi: nat)
    requires lo <= hi <= |batch|
  {
    && (forall j :: lo <= j < hi && batch[j].streamSink == streaming ==>
          batch[j].id in pending && pending[batch[j].id] == batch[j])
    && (forall id :: id in pending ==>
          exists j :: lo <= j < hi && batch[j].streamSink == streaming && batch[j].id == id)
  }

  /** The batch is cut into stretches, in order; none of them is empty unless the batch is. */
  ghost predicate Cuts(cuts: seq<nat>, batch: seq<Request>) {
    && |cuts| > 1 && cuts[0] == 0 && cuts[|cuts| - 1] == |batch|
    && (forall j, k :: 0 <= j < k < |cuts| ==> cuts[j] <= cuts[k] && (batch != [] ==> cuts[j] < cuts[k]))
  }

  /** Everybody in the stretch who waits for this mode is told this. */
  ghost predicate AreTold(answers: map<Id, Answer>, batch: seq<Request>, streaming: bool, lo: nat, hi: nat,
                          status: nat, msg: string)
    requires lo <= hi <= |batch|
  {
    forall j :: lo <= j < hi && batch[j].streamSink == streaming ==>
      batch[j].id in answers && answers[batch[j].id] == Answer(status, msg)
  }

  ghost predicate NobodyIsTold(answers: map<Id, Answer>, batch: seq<Request>, streaming: bool, lo: nat, hi: nat)
    requires lo <= hi <= |batch|
  {
    forall j :: lo <= j < hi && batch[j].streamSink == streaming ==> batch[j].id !in answers
  }

  /** The stretch can be encoded, fits into an invocation, and is taken by the queue. */
  ghost predicate IsSent(build: Builder, limit: nat, batch: seq<Request>, lo: nat, hi: nat, outcome: TrySend)
    requires lo <= hi <= |batch|
  {
    var built := build(Items(batch)[lo..hi]);
    built.Ok? && |built.value| <= limit && outcome.Sent?
  }

  /** How the requests of a stretch learn of their fate; those that were sent are not told anything yet. */
  ghost predicate StretchEnds(build: Builder, limit: nat, batch: seq<Request>, streaming: bool, lo: nat, hi: nat,
                              outcome: TrySend, answers: map<Id, Answer>)
    requires lo <= hi <= |batch|
  {
    match build(Items(batch)[lo..hi])
    case Err(e) => AreTold(answers, batch, streaming, lo, hi, 500, "encode: " + e)
    case Ok(payload) =>
      if |payload| > limit then
        hi - lo <= 1 && AreTold(answers, batch, streaming, lo, hi, 502, "invoke payload too large")
      else
        match outcome
        case Sent => NobodyIsTold(answers, batch, streaming, lo, hi)
        case Full => AreTold(answers, batch, streaming, lo, hi, 429, "gateway overloaded")
        case Closed => AreTold(answers, batch, streaming, lo, hi, 502, "gateway shutting down")
  }

  /** The job invokes the target with the stretch's payload, on behalf of the stretch's requests. */
  ghost predicate IsJobOf(build: Builder, limit: nat, batch: seq<Request>, streaming: bool, lo: nat, hi: nat,
                          isProbe: bool, task: nat, job: Job)
    requires lo <= hi <= |batch|
  {
    && build(Items(batch)[lo..hi]) == Ok(job.payload) && |job.payload| <= limit
    && job.isProbe == isProbe && job.reportsTo == task
    && (DistinctRequests(batch) ==> HoldsStretch(job.pending, batch, streaming, lo, hi))
  }

  /** The queue holds one job per stretch that was sent, in order; which[j] is the stretch of job j. */
  ghost predicate QueuedAs(build: Builder, limit: nat, batch: seq<Request>, streaming: bool, outcomes: nat -> TrySend,
                           isProbe: bool, task: nat, queued: seq<Job>, cuts: seq<nat>, which: seq<nat>)
    requires Cuts(cuts, batch)
  {
    && |which| == |queued| && Ascending(which, |cuts| - 1)
    && (forall k: nat :: k < |cuts| - 1 ==>
          (k in which <==> IsSent(build, limit, batch, cuts[k], cuts[k + 1], outcomes(k))))
    && (forall j :: 0 <= j < |queued| ==>
          IsJobOf(build, limit, batch, streaming, cuts[which[j]], cuts[which[j] + 1], isProbe, task, queued[j]))
  }

  /** With distinct ids: everybody who is not sent is told why. */
  ghost predicate ToldWhy(build: Builder, limit: nat, batch: seq<Request>, streaming: bool, outcomes: nat -> TrySend,
                          answers: map<Id, Answer>, cuts: seq<nat>)
    requires Cuts(cuts, batch)
  {
    && (forall k :: 0 <= k < |cuts| - 1 ==>
          StretchEnds(build, limit, batch, streaming, cuts[k], cuts[k + 1], outcomes(k), answers))
    && AreTold(answers, batch, !streaming, 0, |batch|, 502,
               if streaming then "unexpected buffered response sink" else "unexpected streaming response sink")
  }

  /** All that a flush does to its batch. */
  ghost predicate FlushedAs(build: Builder, limit: nat, batch: seq<Request>, streaming: bool, outcomes: nat -> TrySend,
                            isProbe: bool, task: nat, queued: seq<Job>, answers: map<Id, Answer>,
                            cuts: seq<nat>, which: seq<nat>)
  {
    && Cuts(cuts, batch)
    && QueuedAs(build, limit, batch, streaming, outcomes, isProbe, task, queued, cuts, which)
    && (DistinctRequests(batch) ==> ToldWhy(build, limit, batch, streaming, outcomes, answers, cuts))
  }

  // ---------------------------------------------------------------- the plans do that

  lemma {:induction false} FittingHolds(batch: seq<Request>, streaming: bool)
    requires DistinctRequests(batch)
    ensures HoldsStretch(Fitting(batch, streaming), batch, streaming, 0, |batch|)
    decreases |batch|
  {
    if batch != [] {
      var init, last := batch[..|batch| - 1], batch[|batch| - 1];
      assert batch == init + [last];
      DistinctInit(init, last);
      FittingHolds(init, streaming);
      var pending := Fitting(batch, streaming);
      forall j | 0 <= j < |batch| && batch[j].streamSink == streaming
        ensures batch[j].id in pending && pending[batch[j].id] == batch[j]
      {
        if j < |init| { assert init[j] == batch[j] && init[j].id != last.id; }
      }
      forall id | id in pending
        ensures exists j :: 0 <= j < |batch| && batch[j].streamSink == streaming && batch[j].id == id
      {
        if id in Fitting(init, streaming) {
          var j :| 0 <= j < |init| && init[j].streamSink == streaming && init[j].id == id;
          assert batch[j] == init[j];
        } else {
          assert batch[|init|].id == id;
        }
      }
    }
  }

  /** The entries of a stretch's items, out of those of the whole batch. */
  lemma StretchHolds(all: Pending, pending: Pending, batch: seq<Request>, streaming: bool, lo: nat, hi: nat)
    requires lo <= hi <= |batch| && HoldsStretch(all, batch, streaming, 0, |batch|) && DistinctRequests(batch)
    requires pending.Keys == all.Keys * ItemIds(Items(batch)[lo..hi])
    requires forall id :: id in pending ==> id in all && pending[id] == all[id]
    ensures HoldsStretch(pending, batch, streaming, lo, hi)
  {
    forall j | lo <= j < hi && batch[j].streamSink == streaming
      ensures batch[j].id in pending && pending[batch[j].id] == batch[j]
    {
      StretchHas(batch, lo, hi, j);
    }
    forall id | id in pending
      ensures exists j :: lo <= j < hi && batch[j].streamSink == streaming && batch[j].id == id
    {
      var i := WhereInStretch(batch, lo, hi, id);
      var j :| 0 <= j < |batch| && batch[j].streamSink == streaming && batch[j].id == id;
      assert i == j;
    }
  }

  lemma StretchHas(batch: seq<Request>, lo: nat, hi: nat, j: nat)
    requires lo <= j < hi <= |batch|
    ensures batch[j].id in ItemIds(Items(batch)[lo..hi])
  {
    var items := Items(batch)[lo..hi];
    assert items[j - lo].id == batch[j].id && items[j - lo] in items;
  }

  lemma WhereInStretch(batch: seq<Request>, lo: nat, hi: nat, id: Id) returns (j: nat)
    requires lo <= hi <= |batch| && id in ItemIds(Items(batch)[lo..hi])
    ensures lo <= j < hi && batch[j].id == id
  {
    var items := Items(batch)[lo..hi];
    var i :| 0 <= i < |items| && items[i].id == id;
    j := lo + i;
  }

  /** Where the plans cut the batch. */
  ghost function CutsOf(plans: seq<Plan>): (cuts: seq<nat>)
    ensures |cuts| == |plans| + 1
  {
    seq(|plans| + 1, k requires 0 <= k <= |plans| => |AllItems(plans[..k])|)
  }

  lemma PlanCut(plans: seq<Plan>, batch: seq<Request>, k: nat)
    requires AllItems(plans) == Items(batch) && k < |plans|
    ensures var cuts := CutsOf(plans);
            cuts[k] <= cuts[k + 1] <= |batch| && plans[k].items == Items(batch)[cuts[k]..cuts[k + 1]]
    ensures plans[k].items != [] ==> CutsOf(plans)[k] < CutsOf(plans)[k + 1]
  {
    PlanIsStretch(plans, k);
  }

  ghost predicate IsStep(cuts: seq<nat>, j: nat, strictly: bool)
    requires j + 1 < |cuts|
  {
    cuts[j] <= cuts[j + 1] && (strictly ==> cuts[j] < cuts[j + 1])
  }

  lemma {:induction false} CutsAscend(cuts: seq<nat>, j: nat, k: nat, strictly: bool)
    requires j < k < |cuts| && forall i :: 0 <= i < |cuts| - 1 ==> IsStep(cuts, i, strictly)
    ensures cuts[j] <= cuts[k] && (strictly ==> cuts[j] < cuts[k])
  {
    assert IsStep(cuts, k - 1, strictly);
    if j + 1 < k {
      CutsAscend(cuts, j, k - 1, strictly);
    }
  }

  lemma PlansCut(plans: seq<Plan>, batch: seq<Request>)
    requires plans != [] && AllItems(plans) == Items(batch)
    requires batch != [] ==> forall k :: 0 <= k < |plans| ==> plans[k].items != []
    ensures Cuts(CutsOf(plans), batch)
  {
    var cuts, strictly := CutsOf(plans), batch != [];
    assert plans[..0] == [] && plans[..|plans|] == plans;
    forall j | 0 <= j < |plans| ensures IsStep(cuts, j, strictly) {
      PlanCut(plans, batch, j);
    }
    forall j, k | 0 <= j < k < |cuts| ensures cuts[j] <= cuts[k] && (strictly ==> cuts[j] < cuts[k]) {
      CutsAscend(cuts, j, k, strictly);
    }
  }

  /** One job per plan that can be and was sent, in order, each with its plan's entries and payload. */
  ghost predicate AreJobsOf(plans: seq<Plan>, outcomes: nat -> TrySend, n: nat, isProbe: bool, task: nat,
                            queued: seq<Job>, which: seq<nat>)
    requires n <= |plans|
  {
    && |which| == |queued| && Ascending(which, n)
    && (forall k: nat :: k < n ==> (k in which <==> plans[k].Invoke? && outcomes(k).Sent?))
    && (forall j :: 0 <= j < |queued| ==>
          var plan := plans[which[j]];
          plan.Invoke? && queued[j] == Job(plan.pending, plan.payload, isProbe, task))
  }

  lemma {:induction false} QueuedWhich(plans: seq<Plan>, outcomes: nat -> TrySend, n: nat, isProbe: bool, task: nat)
    returns (which: seq<nat>)
    requires n <= |plans|
    ensures AreJobsOf(plans, outcomes, n, isProbe, task, QueuedJobs(plans, outcomes, n, isProbe, task), which)
  {
    which := [];
    if n > 0 {
      var before := QueuedWhich(plans, outcomes, n - 1, isProbe, task);
      which := before;
      if IsQueued(plans[n - 1], outcomes(n - 1)) {
        which := before + [n - 1];
        assert which[|before|] == n - 1;
      }
    }
  }

  ghost predicate IsOnlyHolder(plans: seq<Plan>, k: nat, id: Id) {
    k < |plans| && id in plans[k].pending && forall j :: 0 <= j < |plans| && j != k ==> id !in plans[j].pending
  }

  /** What a plan's request is told: why the plan failed, why its job was not taken, or nothing yet. */
  ghost predicate IsToldOf(answers: map<Id, Answer>, plan: Plan, outcome: TrySend, id: Id) {
    match plan
    case Fail(_, _, status, msg) => id in answers && answers[id] == Answer(status, msg)
    case Invoke(_, _, _) =>
      match outcome
      case Sent => id !in answers
      case Full => id in answers && answers[id] == Answer(429, "gateway overloaded")
      case Closed => id in answers && answers[id] == Answer(502, "gateway shutting down")
  }

  /** Only one plan holds the id, so what that plan is told is what the id is told. */
  lemma {:induction false} PlanIsTold(plans: seq<Plan>, outcomes: nat -> TrySend, n: nat, k: nat, id: Id)
    requires n <= |plans| && IsOnlyHolder(plans, k, id)
    ensures n <= k ==> id !in PlanAnswers(plans, outcomes, n)
    ensures n > k ==> IsToldOf(PlanAnswers(plans, outcomes, n), plans[k], outcomes(k), id)
  {
    if n > 0 {
      PlanIsTold(plans, outcomes, n - 1, k, id);
    }
  }

  lemma {:induction false} HoldersAtLeast(plans: seq<Plan>, j: nat, k: nat, id: Id)
    requires j < k < |plans| && id in plans[j].pending && id in plans[k].pending
    ensures Holders(plans, id) >= 2
  {
    if j > 0 {
      HoldersAtLeast(plans[1..], j - 1, k - 1, id);
    } else {
      HolderCounts(plans[1..], k - 1, id);
    }
  }

  lemma {:induction false} HolderCounts(plans: seq<Plan>, k: nat, id: Id)
    requires k < |plans| && id in plans[k].pending
    ensures Holders(plans, id) >= 1
  {
    if k > 0 {
      HolderCounts(plans[1..], k - 1, id);
    }
  }

  /** Every plan is a stretch of the batch, made as building that stretch calls for, and holds its requests. */
  ghost predicate IsStretchPlan(build: Builder, limit: nat, batch: seq<Request>, streaming: bool, lo: nat, hi: nat,
                                plan: Plan)
    requires lo <= hi <= |batch|
  {
    && plan.items == Items(batch)[lo..hi] && IsCalledFor(build, limit, plan)
    && (DistinctRequests(batch) ==> HoldsStretch(plan.pending, batch, streaming, lo, hi))
  }

  lemma PlansAreStretches(build: Builder, limit: nat, batch: seq<Request>, streaming: bool)
    ensures var plans := PlansOf(build, limit, batch, streaming);
            && Cuts(CutsOf(plans), batch)
            && forall k :: 0 <= k < |plans| ==>
                 IsStretchPlan(build, limit, batch, streaming, CutsOf(plans)[k], CutsOf(plans)[k + 1], plans[k])
  {
    var pending, items := Fitting(batch, streaming), Items(batch);
    var plans := PlansOf(build, limit, batch, streaming);
    PlansPartition(build, limit, pending, items);
    PlansAreCalledFor(build, limit, pending, items);
    PlansCut(plans, batch);
    forall k | 0 <= k < |plans|
      ensures plans[k].items == Items(batch)[CutsOf(plans)[k]..CutsOf(plans)[k + 1]]
    {
      PlanCut(plans, batch, k);
    }
    if DistinctRequests(batch) {
      FittingHolds(batch, streaming);
      assert pending.Keys <= ItemIds(items) by {
        forall id | id in pending ensures id in ItemIds(items) {
          var j :| 0 <= j < |batch| && batch[j].streamSink == streaming && batch[j].id == id;
          assert items[j] in items;
        }
      }
      PlansOwnTheirItems(build, limit, pending, items);
      forall k | 0 <= k < |plans|
        ensures HoldsStretch(plans[k].pending, batch, streaming, CutsOf(plans)[k], CutsOf(plans)[k + 1])
      {
        assert OwnsItems(plans[k], pending, items) && Within(plans[k], pending);
        StretchHolds(pending, plans[k].pending, batch, streaming, CutsOf(plans)[k], CutsOf(plans)[k + 1]);
      }
    }
  }

  lemma SentStretch(build: Builder, limit: nat, batch: seq<Request>, streaming: bool, lo: nat, hi: nat, plan: Plan,
                    outcome: TrySend)
    requires lo <= hi <= |batch| && IsStretchPlan(build, limit, batch, streaming, lo, hi, plan)
    ensures plan.Invoke? && outcome.Sent? <==> IsSent(build, limit, batch, lo, hi, outcome)
  {
  }

  lemma JobOfStretch(build: Builder, limit: nat, batch: seq<Request>, streaming: bool, lo: nat, hi: nat, plan: Plan,
                     isProbe: bool, task: nat)
    requires lo <= hi <= |batch| && IsStretchPlan(build, limit, batch, streaming, lo, hi, plan) && plan.Invoke?
    ensures IsJobOf(build, limit, batch, streaming, lo, hi, isProbe, task,
                    Job(plan.pending, plan.payload, isProbe, task))
  {
  }

  lemma JobsAreStretches(build: Builder, limit: nat, batch: seq<Request>, streaming: bool, outcomes: nat -> TrySend,
                         isProbe: bool, task: nat)
    returns (which: seq<nat>)
    ensures var plans := PlansOf(build, limit, batch, streaming);
            && Cuts(CutsOf(plans), batch)
            && QueuedAs(build, limit, batch, streaming, outcomes, isProbe, task,
                        QueuedJobs(plans, outcomes, |plans|, isProbe, task), CutsOf(plans), which)
  {
    var plans := PlansOf(build, limit, batch, streaming);
    var cuts := CutsOf(plans);
    PlansAreStretches(build, limit, batch, streaming);
    which := QueuedWhich(plans, outcomes, |plans|, isProbe, task);
    forall k: nat | k < |plans|
      ensures k in which <==> IsSent(build, limit, batch, cuts[k], cuts[k + 1], outcomes(k))
    {
      SentStretch(build, limit, batch, streaming, cuts[k], cuts[k + 1], plans[k], outcomes(k));
    }
    var queued := QueuedJobs(plans, outcomes, |plans|, isProbe, task);
    forall j | 0 <= j < |queued|
      ensures IsJobOf(build, limit, batch, streaming, cuts[which[j]], cuts[which[j] + 1], isProbe, task, queued[j])
    {
      JobOfStretch(build, limit, batch, streaming, cuts[which[j]], cuts[which[j] + 1], plans[which[j]], isProbe, task);
    }
  }

  lemma OnlyHolder(build: Builder, limit: nat, batch: seq<Request>, streaming: bool, k: nat, id: Id)
    requires k < |PlansOf(build, limit, batch, streaming)|
    requires id in PlansOf(build, limit, batch, streaming)[k].pending
    ensures IsOnlyHolder(PlansOf(build, limit, batch, streaming), k, id)
  {
    var plans := PlansOf(build, limit, batch, streaming);
    PlansPartition(build, limit, Fitting(batch, streaming), Items(batch));
    assert Holders(plans, id) <= 1;
    forall j | 0 <= j < |plans| && j != k && id in plans[j].pending ensures false {
      if j < k { HoldersAtLeast(plans, j, k, id); } else { HoldersAtLeast(plans, k, j, id); }
    }
  }

  /** What the answers say of one request that waits for the mode. */
  lemma StretchIsTold(build: Builder, limit: nat, batch: seq<Request>, streaming: bool, outcomes: nat -> TrySend,
                      k: nat, id: Id)
    requires k < |PlansOf(build, limit, batch, streaming)|
    requires id in PlansOf(build, limit, batch, streaming)[k].pending
    requires id !in Fitting(batch, !streaming)
    ensures var plans := PlansOf(build, limit, batch, streaming);
            IsToldOf(AnswersOf(plans, outcomes, batch, streaming), plans[k], outcomes(k), id)
  {
    OnlyHolder(build, limit, batch, streaming, k, id);
    PlanIsTold(PlansOf(build, limit, batch, streaming), outcomes, |PlansOf(build, limit, batch, streaming)|, k, id);
  }

  /** A request that waits for one mode is not among those that wait for the other. */
  lemma OneMode(batch: seq<Request>, streaming: bool, j: nat)
    requires DistinctRequests(batch) && j < |batch| && batch[j].streamSink == streaming
    ensures batch[j].id !in Fitting(batch, !streaming)
  {
    FittingHolds(batch, !streaming);
  }

  /** Given what each of its requests is told, a stretch ends as it should. */
  lemma StretchEndsSo(build: Builder, limit: nat, batch: seq<Request>, streaming: bool, lo: nat, hi: nat, plan: Plan,
                      outcome: TrySend, answers: map<Id, Answer>)
    requires lo <= hi <= |batch| && IsStretchPlan(build, limit, batch, streaming, lo, hi, plan)
    requires forall j :: lo <= j < hi && batch[j].streamSink == streaming ==>
               IsToldOf(answers, plan, outcome, batch[j].id)
    ensures StretchEnds(build, limit, batch, streaming, lo, hi, outcome, answers)
  {
  }

  lemma StretchEndsAt(build: Builder, limit: nat, batch: seq<Request>, streaming: bool, outcomes: nat -> TrySend,
                      k: nat, lo: nat, hi: nat)
    requires DistinctRequests(batch) && k < |PlansOf(build, limit, batch, streaming)| && lo <= hi <= |batch|
    requires IsStretchPlan(build, limit, batch, streaming, lo, hi, PlansOf(build, limit, batch, streaming)[k])
    ensures StretchEnds(build, limit, batch, streaming, lo, hi, outcomes(k),
                        AnswersOf(PlansOf(build, limit, batch, streaming), outcomes, batch, streaming))
  {
    var plans := PlansOf(build, limit, batch, streaming);
    var answers := AnswersOf(plans, outcomes, batch, streaming);
    forall j | lo <= j < hi && batch[j].streamSink == streaming
      ensures IsToldOf(answers, plans[k], outcomes(k), batch[j].id)
    {
      OneMode(batch, streaming, j);
      StretchIsTold(build, limit, batch, streaming, outcomes, k, batch[j].id);
    }
    StretchEndsSo(build, limit, batch, streaming, lo, hi, plans[k], outcomes(k), answers);
  }

  /** The wrong mode's requests are told so, whatever the plans' requests are told. */
  lemma UnfitAreTold(build: Builder, limit: nat, batch: seq<Request>, streaming: bool, outcomes: nat -> TrySend)
    requires DistinctRequests(batch)
    ensures AreTold(AnswersOf(PlansOf(build, limit, batch, streaming), outcomes, batch, streaming),
                    batch, !streaming, 0, |batch|, 502,
                    if streaming then "unexpected buffered response sink" else "unexpected streaming response sink")
  {
    var plans := PlansOf(build, limit, batch, streaming);
    FittingHolds(batch, !streaming);
    forall j | 0 <= j < |batch| && batch[j].streamSink == !streaming
      ensures batch[j].id !in PlanAnswers(plans, outcomes, |plans|)
    {
      OneMode(batch, !streaming, j);
      PlansPartition(build, limit, Fitting(batch, streaming), Items(batch));
      NotInPlans(plans, outcomes, |plans|, batch[j].id);
    }
  }

  lemma {:induction false} NotInPlans(plans: seq<Plan>, outcomes: nat -> TrySend, n: nat, id: Id)
    requires n <= |plans| && Holders(plans, id) == 0
    ensures id !in PlanAnswers(plans, outcomes, n)
  {
    if n > 0 {
      NotInPlans(plans, outcomes, n - 1, id);
      if id in plans[n - 1].pending { HolderCounts(plans, n - 1, id); }
    }
  }

  /**
   Main result: a flush cuts its batch into stretches that lie one behind the other; every stretch that
   can be sent is queued with the payload built from it, on behalf of its requests, and everybody else is
   told why not.
   */
  lemma FlushMeans(build: Builder, limit: nat, batch: seq<Request>, streaming: bool, outcomes: nat -> TrySend,
                   isProbe: bool, task: nat)
    returns (cuts: seq<nat>, which: seq<nat>)
    ensures var plans := PlansOf(build, limit, batch, streaming);
            FlushedAs(build, limit, batch, streaming, outcomes, isProbe, task,
                      QueuedJobs(plans, outcomes, |plans|, isProbe, task),
                      AnswersOf(plans, outcomes, batch, streaming), cuts, which)
  {
    var plans := PlansOf(build, limit, batch, streaming);
    cuts := CutsOf(plans);
    which := JobsAreStretches(build, limit, batch, streaming, outcomes, isProbe, task);
    if DistinctRequests(batch) {
      PlansAreStretches(build, limit, batch, streaming);
      UnfitAreTold(build, limit, batch, streaming, outcomes);
      var answers := AnswersOf(plans, outcomes, batch, streaming);
      forall k | 0 <= k < |plans|
        ensures StretchEnds(build, limit, batch, streaming, cuts[k], cuts[k + 1], outcomes(k), answers)
      {
        StretchEndsAt(build, limit, batch, streaming, outcomes, k, cuts[k], cuts[k + 1]);
      }
    }
  }

  /** InvocationJob::fail: everybody is told the same, and a probe reports a failure. */
  method FailJob(job: Job, answer: Answer) returns (answers: map<Id, Answer>, feedback: Option<bool>)
    ensures answers == AnswerAll(job.pending, answer)
    ensures answers.Keys == job.pending.Keys && forall id :: id in answers ==> answers[id] == answer
    ensures feedback == if job.isProbe then Some(false) else None
  {
    feedback := None;
    if job.isProbe {
      feedback := Some(false);
    }
    answers := AnswerAll(job.pending, answer);
  }

  /** Every plan in order: failed at once, which reports nothing, or sent to the bounded job queue. */
  method SendPlans(plans: seq<Plan>, outcomes: nat -> TrySend, isProbe: bool, task: nat)
    returns (queued: seq<Job>, answers: map<Id, Answer>, reports: nat)
    ensures exists which :: AreJobsOf(plans, outcomes, |plans|, isProbe, task, queued, which)
    ensures forall k: nat, id :: IsOnlyHolder(plans, k, id) ==> IsToldOf(answers, plans[k], outcomes(k), id)
    ensures queued == QueuedJobs(plans, outcomes, |plans|, isProbe, task)
    ensures answers == PlanAnswers(plans, outcomes, |plans|)
    ensures reports == RefusedReports(plans, outcomes, |plans|, isProbe)
  {
    queued, answers, reports := [], map[], 0;
    for k := 0 to |plans|
      invariant queued == QueuedJobs(plans, outcomes, k, isProbe, task)
      invariant answers == PlanAnswers(plans, outcomes, k)
      invariant reports == RefusedReports(plans, outcomes, k, isProbe)
    {
      match plans[k] {
        case Fail(pending, _, status, msg) => answers := answers + AnswerAll(pending, Answer(status, msg));
        case Invoke(_, _, _) =>
          var job := JobOf(plans[k], isProbe, task);
          if outcomes(k).Sent? {
            queued := queued + [job];
          } else {
            var told, feedback := FailJob(job, Refusal(plans[k], outcomes(k)));
            answers := answers + told;
            if feedback.Some? { reports := reports + 1; }
          }
      }
    }
    ghost var which := QueuedWhich(plans, outcomes, |plans|, isProbe, task);
    assert AreJobsOf(plans, outcomes, |plans|, isProbe, task, queued, which);
    forall k: nat, id | IsOnlyHolder(plans, k, id) ensures IsToldOf(answers, plans[k], outcomes(k), id) {
      PlanIsTold(plans, outcomes, |plans|, k, id);
    }
  }

  /** flush_batch: collect, plan and send; FlushedAs says what becomes of the batch, cut by cut. */
  method Flush(build: Builder, limit: nat, streaming: bool, batch: seq<Request>, outcomes: nat -> TrySend,
               isProbe: bool, task: nat)
    returns (queued: seq<Job>, answers: map<Id, Answer>, reports: nat)
    ensures exists cuts, which ::
              FlushedAs(build, limit, batch, streaming, outcomes, isProbe, task, queued, answers, cuts, which)
    ensures var plans := PlansOf(build, limit, batch, streaming);
            && queued == QueuedJobs(plans, outcomes, |plans|, isProbe, task)
            && answers == AnswersOf(plans, outcomes, batch, streaming)
            && reports == RefusedReports(plans, outcomes, |plans|, isProbe)
  {
    var buffered, stream, items := CollectPending(batch);
    var unfit := AnswerAll(if streaming then buffered else stream, Unexpected(streaming));
    var plans := PlanInvocations(build, limit, if streaming then stream else buffered, items).plans;
    queued, answers, reports := SendPlans(plans, outcomes, isProbe, task);
    answers := unfit + answers;
    ghost var cuts, which := FlushMeans(build, limit, batch, streaming, outcomes, isProbe, task);
    assert FlushedAs(build, limit, batch, streaming, outcomes, isProbe, task, queued, answers, cuts, which);
  }
}
