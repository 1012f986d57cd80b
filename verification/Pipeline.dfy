/**
 Where an accepted request is, from the per-key channel to its answer, over every interleaving of
 callers, batching tasks, the job dispatcher and running invocations.
 */
module Pipeline {
  import opened Prelude
  import opened Planner
  import opened FlushBatch

  datatype Limits = Limits(maxInflight: nat, maxPending: nat, maxQueueDepth: nat, maxPayload: nat, build: Builder)

  /** A batching task: what its channel holds, the batch it collects, the plans of the one it flushes. */
  datatype Task = Task(key: BatchKey, channel: seq<Request>, open: seq<Request>,
                       plans: seq<InvocationPlan<Request>>, ended: bool)

  /**
   What a task knows about its probes, and what its feedback channel has seen: probes flushed, those of
   them that failed without a report, reports given, reports received; and whether the batch it is
   sending, or sent last, is a probe.
   */
  datatype Probing = Probing(inflight: bool, flushed: nat, silent: nat, given: nat, heard: nat, sending: bool)

  const NO_PROBES := Probing(false, 0, 0, 0, 0, false)

  datatype State = State(
    entries: map<BatchKey, nat>,   // which task the map sends a key's requests to
    tasks: seq<Task>,
    probing: seq<Probing>,         // of every task
    queue: seq<Job>,
    waiting: Option<Job>,          // received by the dispatcher, no permit yet
    running: seq<Job>,
    accepted: set<Id>,
    resolved: multiset<Id>
  )

  const INIT := State(map[], [], [], [], None, [], {}, multiset{})

  datatype Step =
    | Attempt(req: Request)
    | Collect(task: nat)
    | Flush(task: nat, probe: bool)
    | PlanNext(task: nat)
    | HearFeedback(task: nat)
    | EndTask(task: nat)
    | RemoveEntry(task: nat)
    | ReceiveJob
    | AcquirePermit
    | FinishJob(job: nat)

  ghost predicate Enabled(l: Limits, s: State, step: Step) {
    match step
    case Attempt(req) => req.id !in s.accepted
    case Collect(t) => t < |s.tasks| && !s.tasks[t].ended && s.tasks[t].plans == [] && s.tasks[t].channel != []
    case Flush(t, probe) =>
      && t < |s.tasks| && s.tasks[t].plans == [] && s.tasks[t].open != []
      && (probe ==> |s.tasks[t].open| == 1 && t < |s.probing| && !s.probing[t].inflight)
    case HearFeedback(t) =>
      && t < |s.tasks| && !s.tasks[t].ended && s.tasks[t].plans == []
      && t < |s.probing| && s.probing[t].heard < s.probing[t].given
    case PlanNext(t) => t < |s.tasks| && s.tasks[t].plans != []
    case EndTask(t) => t < |s.tasks| && !s.tasks[t].ended && s.tasks[t].plans == [] && s.tasks[t].open == []
    case RemoveEntry(t) => t < |s.tasks| && s.tasks[t].ended
    case ReceiveJob => s.waiting.None? && s.queue != []
    case AcquirePermit => s.waiting.Some? && |s.running| < l.maxInflight
    case FinishJob(j) => j < |s.running|
  }

  ghost function Apply(l: Limits, s: State, step: Step): State
    requires Enabled(l, s, step)
  {
    match step
    case Attempt(req) => AfterAttempt(l, s, req)
    case Collect(t) =>
      var task := s.tasks[t];
      s.(tasks := s.tasks[t := task.(channel := task.channel[1..], open := task.open + [task.channel[0]])])
    case Flush(t, probe) => AfterFlush(l, s, t, probe)
    case HearFeedback(t) =>
      s.(probing := s.probing[t := s.probing[t].(inflight := false, heard := s.probing[t].heard + 1)])
    case PlanNext(t) => AfterPlan(l, s, t)
    case EndTask(t) =>
      s.(tasks := s.tasks[t := s.tasks[t].(channel := [], ended := true)],
         resolved := s.resolved + multiset(Ids(s.tasks[t].channel)))
    case RemoveEntry(t) => s.(entries := s.entries - {s.tasks[t].key})
    case ReceiveJob => s.(queue := s.queue[1..], waiting := Some(s.queue[0]))
    case AcquirePermit => s.(waiting := None, running := s.running + [s.waiting.value])
    case FinishJob(j) =>
      s.(running := s.running[..j] + s.running[j + 1..],
         resolved := s.resolved + multiset(s.running[j].pending.Keys),
         probing := Reported(s.probing, s.running[j]))
  }

  /**
   One try of enqueue. A key without an entry gets a new task; a full channel rejects; a task that has
   ended loses its entry, and the caller may try again.
   */
  ghost function AfterAttempt(l: Limits, s: State, req: Request): State {
    if req.key !in s.entries then
      s.(entries := s.entries[req.key := |s.tasks|],
         tasks := s.tasks + [Task(req.key, [req], [], [], false)],
         probing := s.probing + [NO_PROBES],
         accepted := s.accepted + {req.id})
    else
      var t := s.entries[req.key];
      if t >= |s.tasks| || s.tasks[t].ended then s.(entries := s.entries - {req.key})
      else if |s.tasks[t].channel| >= l.maxQueueDepth then s
      else s.(tasks := s.tasks[t := s.tasks[t].(channel := s.tasks[t].channel + [req])],
              accepted := s.accepted + {req.id})
  }

  /** A job that is a probe gives one report, whatever becomes of it. */
  ghost function Reported(probing: seq<Probing>, job: Job): (r: seq<Probing>)
    ensures |r| == |probing|
  {
    if job.isProbe && job.reportsTo < |probing| then
      probing[job.reportsTo := probing[job.reportsTo].(given := probing[job.reportsTo].given + 1)]
    else probing
  }

  /** A flush that is a probe is out until it is heard of. */
  ghost function Begun(p: Probing, probe: bool): Probing {
    if probe then p.(inflight := true, flushed := p.flushed + 1, sending := true) else p.(sending := false)
  }

  ghost function AfterFlush(l: Limits, s: State, t: nat, probe: bool): State
    requires t < |s.tasks|
  {
    var task := s.tasks[t];
    var pending := Fitting(task.open, task.key.streaming);
    var plans := PlanInvocations(l.build, l.maxPayload, pending, Items(task.open)).plans;
    s.(tasks := s.tasks[t := task.(open := [], plans := plans)],
       probing := if t < |s.probing| then s.probing[t := Begun(s.probing[t], probe)] else s.probing,
       resolved := s.resolved + (multiset(Ids(task.open)) - multiset(pending.Keys)))
  }

  ghost function SendingProbe(s: State, t: nat): bool {
    t < |s.probing| && s.probing[t].sending
  }

  /**
   A failed plan is answered, and a probe then stays silent; an invocation is queued, or answered when the
   queue is full, and a probe then reports.
   */
  ghost function AfterPlan(l: Limits, s: State, t: nat): State
    requires t < |s.tasks| && s.tasks[t].plans != []
  {
    var task := s.tasks[t];
    var plan := task.plans[0];
    var s' := s.(tasks := s.tasks[t := task.(plans := task.plans[1..])]);
    match plan
    case Fail(pending, _, _, _) =>
      s'.(resolved := s.resolved + multiset(pending.Keys),
          probing := if SendingProbe(s, t) then s.probing[t := s.probing[t].(silent := s.probing[t].silent + 1)]
              else s.probing)
    case Invoke(pending, _, _) =>
      var job := JobOf(plan, SendingProbe(s, t), t);
      if |s.queue| < QueueCapacity(l) then s'.(queue := s.queue + [job])
      else s'.(resolved := s.resolved + multiset(pending.Keys), probing := Reported(s.probing, job))
  }

  function QueueCapacity(l: Limits): nat {
    if l.maxPending == 0 then 1 else l.maxPending
  }

  /** A plan's invocation is queued as it is while the queue has room, and its requests are answered only when not. */
  lemma QueuedUnlessFull(l: Limits, s: State, t: nat)
    requires t < |s.tasks| && s.tasks[t].plans != [] && s.tasks[t].plans[0].Invoke?
    ensures var plan, s' := s.tasks[t].plans[0], Apply(l, s, PlanNext(t));
            var room := if l.maxPending == 0 then 1 else l.maxPending;
            if |s.queue| < room then
              && s'.resolved == s.resolved
              && |s'.queue| == |s.queue| + 1 && s'.queue[..|s.queue|] == s.queue
              && var job := s'.queue[|s.queue|];
                 && job.pending == plan.pending && job.payload == plan.payload && job.reportsTo == t
                 && (job.isProbe <==> t < |s.probing| && s.probing[t].sending)
            else s'.queue == s.queue && s'.resolved == s.resolved + multiset(plan.pending.Keys)
  {
  }

  /** Once an ended task's entry is gone, the next request of its key starts a task of its own. */
  lemma EndedTaskIsReplaced(l: Limits, s: State, t: nat, req: Request)
    requires t < |s.tasks| && s.tasks[t].ended && s.tasks[t].key == req.key && req.id !in s.accepted
    ensures var removed := Apply(l, s, RemoveEntry(t));
            && Enabled(l, removed, Attempt(req))
            && var s' := Apply(l, removed, Attempt(req));
               && s'.accepted == s.accepted + {req.id}
               && s'.tasks == s.tasks + [Task(req.key, [req], [], [], false)]
               && req.key in s'.entries && s'.entries[req.key] == |s.tasks|
  {
  }

  function Ids(reqs: seq<Request>): (ids: seq<Id>)
    ensures |ids| == |reqs|
    ensures forall k :: 0 <= k < |ids| ==> ids[k] == reqs[k].id
  {
    seq(|reqs|, k requires 0 <= k < |reqs| => reqs[k].id)
  }

  // ---------------------------------------------------------------- counting

  /** How often id occurs among the requests. */
  ghost function Occurs(reqs: seq<Request>, id: Id): nat {
    multiset(Ids(reqs))[id]
  }

  ghost function InTask(task: Task, id: Id): nat {
    Occurs(task.channel, id) + Occurs(task.open, id) + Holders(task.plans, id)
  }

  ghost function Counts(tasks: seq<Task>, id: Id): seq<nat> {
    seq(|tasks|, k requires 0 <= k < |tasks| => InTask(tasks[k], id))
  }

  ghost function SumFirst(counts: seq<nat>, n: nat): nat
    requires n <= |counts|
  {
    if n == 0 then 0 else SumFirst(counts, n - 1) + counts[n - 1]
  }

  /** How often id occurs in all the tasks. */
  ghost function InTasks(tasks: seq<Task>, id: Id): nat {
    SumFirst(Counts(tasks, id), |tasks|)
  }

  /** In how many places id is. */
  ghost function Places(s: State, id: Id): nat {
    InTasks(s.tasks, id) + InJobs(s.queue, id)
    + (if s.waiting.Some? then InJob(s.waiting.value, id) else 0)
    + InJobs(s.running, id) + s.resolved[id]
  }

  ghost predicate TaskOk(l: Limits, task: Task) {
    && (forall r :: r in task.channel ==> r.key == task.key)
    && (forall r :: r in task.open ==> r.key == task.key)
    && |task.channel| <= (if l.maxQueueDepth == 0 then 1 else l.maxQueueDepth)
    && (task.ended ==> task.channel == [] && task.open == [] && task.plans == [])
  }

  /** The bounds hold, batches never mix keys, and entries lead to tasks of their key. */
  ghost predicate Structure(l: Limits, s: State) {
    && (forall t :: 0 <= t < |s.tasks| ==> TaskOk(l, s.tasks[t]))
    && (forall k :: k in s.entries ==> s.entries[k] < |s.tasks| && s.tasks[s.entries[k]].key == k)
    && |s.probing| == |s.tasks|
    && |s.queue| <= (if l.maxPending == 0 then 1 else l.maxPending)
    && |s.running| <= l.maxInflight
  }

  /** Every accepted request is in exactly one place. */
  ghost predicate Inv(l: Limits, s: State) {
    && (forall id :: Places(s, id) == if id in s.accepted then 1 else 0)
    && Structure(l, s)
  }

  lemma {:induction false} SumUpdated(counts: seq<nat>, t: nat, v: nat, n: nat)
    requires t < |counts| && n <= |counts|
    ensures t < n ==> counts[t] <= SumFirst(counts, n)
    ensures SumFirst(counts[t := v], n) == SumFirst(counts, n) + if t < n then v - counts[t] else 0
  {
    if n > 0 {
      SumUpdated(counts, t, v, n - 1);
    }
  }

  lemma {:induction false} SumPrefix(counts: seq<nat>, more: nat, n: nat)
    requires n <= |counts|
    ensures SumFirst(counts + [more], n) == SumFirst(counts, n)
  {
    if n > 0 {
      SumPrefix(counts, more, n - 1);
    }
  }

  /** Changing task t changes the count of all tasks by what changes in it. */
  lemma UpdateTask(tasks: seq<Task>, t: nat, task: Task, id: Id)
    requires t < |tasks|
    ensures InTask(tasks[t], id) <= InTasks(tasks, id)
    ensures InTasks(tasks[t := task], id) == InTasks(tasks, id) + InTask(task, id) - InTask(tasks[t], id)
  {
    SumUpdated(Counts(tasks, id), t, InTask(task, id), |tasks|);
    assert Counts(tasks[t := task], id) == Counts(tasks, id)[t := InTask(task, id)];
  }

  lemma {:induction false} RemoveJob(jobs: seq<Job>, j: nat, id: Id)
    requires j < |jobs|
    ensures InJobs(jobs, id) == InJobs(jobs[..j] + jobs[j + 1..], id) + InJob(jobs[j], id)
    decreases |jobs|
  {
    var last := |jobs| - 1;
    var without := jobs[..j] + jobs[j + 1..];
    if j < last {
      RemoveJob(jobs[..last], j, id);
      assert without[..|without| - 1] == jobs[..last][..j] + jobs[..last][j + 1..];
    } else {
      assert without == jobs[..last];
    }
  }

  lemma OneMoreRequest(reqs: seq<Request>, r: Request, id: Id)
    ensures Occurs(reqs + [r], id) == Occurs(reqs, id) + if r.id == id then 1 else 0
    ensures Occurs([r] + reqs, id) == Occurs(reqs, id) + if r.id == id then 1 else 0
    ensures Occurs([], id) == 0
  {
    assert Ids(reqs + [r]) == Ids(reqs) + [r.id];
    assert Ids([r] + reqs) == [r.id] + Ids(reqs);
    assert Ids([]) == [];
  }

  // ---------------------------------------------------------------- a flush loses nothing

  lemma {:induction false} CountIds(reqs: seq<Request>, id: Id)
    requires DistinctRequests(reqs)
    ensures Occurs(reqs, id) == if InBatch(reqs, id) then 1 else 0
    decreases |reqs|
  {
    if reqs != [] {
      var init, last := reqs[..|reqs| - 1], reqs[|reqs| - 1];
      CountIds(init, id);
      assert reqs == init + [last];
      OneMoreRequest(init, last, id);
      if last.id == id {
        assert !InBatch(init, id);
        assert reqs[|reqs| - 1].id == id;
      } else {
        if InBatch(reqs, id) {
          var k :| 0 <= k < |reqs| && reqs[k].id == id;
          assert init[k].id == id;
        }
        if InBatch(init, id) {
          var k :| 0 <= k < |init| && init[k].id == id;
          assert reqs[k].id == id;
        }
      }
    }
  }

  /** What is planned plus what is failed at once is the batch. */
  lemma FlushConserves(l: Limits, open: seq<Request>, streaming: bool, id: Id)
    requires DistinctRequests(open)
    ensures var pending := Fitting(open, streaming);
            var plans := PlanInvocations(l.build, l.maxPayload, pending, Items(open)).plans;
            Occurs(open, id) == Holders(plans, id) + (multiset(Ids(open)) - multiset(pending.Keys))[id]
  {
    var pending := Fitting(open, streaming);
    PlansPartition(l.build, l.maxPayload, pending, Items(open));
    CountIds(open, id);
    FittingIds(open, streaming, id);
    assert multiset(pending.Keys)[id] == if id in pending then 1 else 0;
  }

  lemma DuplicateCounts(ids: seq<Id>, i: nat, j: nat)
    requires i < j < |ids| && ids[i] == ids[j]
    ensures multiset(ids)[ids[i]] >= 2
  {
    assert ids == ids[..j] + ids[j..];
    assert ids[..j][i] == ids[i] && ids[j..][0] == ids[i];
    assert ids[i] in multiset(ids[..j]) && ids[i] in multiset(ids[j..]);
  }

  lemma OpenAtMostOnce(l: Limits, s: State, t: nat, id: Id)
    requires Inv(l, s) && t < |s.tasks|
    ensures Occurs(s.tasks[t].open, id) <= 1
  {
    UpdateTask(s.tasks, t, s.tasks[t], id);
    assert Places(s, id) <= 1;
  }

  /** Requests that are in one batch together have different ids. */
  lemma OpenIsDistinct(l: Limits, s: State, t: nat)
    requires Inv(l, s) && t < |s.tasks|
    ensures DistinctRequests(s.tasks[t].open)
  {
    var open := s.tasks[t].open;
    forall i, j | 0 <= i < j < |open| ensures open[i].id != open[j].id {
      if open[i].id == open[j].id {
        DuplicateCounts(Ids(open), i, j);
        OpenAtMostOnce(l, s, t, open[i].id);
        assert false;
      }
    }
  }

  // ---------------------------------------------------------------- every step

  lemma ReplaceTask(l: Limits, s: State, t: nat, task: Task)
    requires Structure(l, s) && t < |s.tasks| && TaskOk(l, task) && task.key == s.tasks[t].key
    ensures Structure(l, s.(tasks := s.tasks[t := task]))
  {
  }

  lemma AttemptKeepsStructure(l: Limits, s: State, req: Request)
    requires Structure(l, s)
    ensures Structure(l, AfterAttempt(l, s, req))
  {
    var s' := AfterAttempt(l, s, req);
    if req.key in s.entries {
      var t := s.entries[req.key];
      if !s.tasks[t].ended && |s.tasks[t].channel| < l.maxQueueDepth {
        ReplaceTask(l, s, t, s.tasks[t].(channel := s.tasks[t].channel + [req]));
      }
    } else {
      var task := Task(req.key, [req], [], [], false);
      assert TaskOk(l, task);
      forall t | 0 <= t < |s'.tasks| ensures TaskOk(l, s'.tasks[t]) {
        assert s'.tasks[t] == if t < |s.tasks| then s.tasks[t] else task;
      }
    }
  }

  lemma StepKeepsStructure(l: Limits, s: State, step: Step)
    requires Structure(l, s) && Enabled(l, s, step)
    ensures Structure(l, Apply(l, s, step))
  {
    match step
    case Attempt(req) => AttemptKeepsStructure(l, s, req);
    case Collect(t) =>
      var task := s.tasks[t];
      ReplaceTask(l, s, t, task.(channel := task.channel[1..], open := task.open + [task.channel[0]]));
    case Flush(t, probe) => ReplaceTask(l, s, t, AfterFlush(l, s, t, probe).tasks[t]);
    case PlanNext(t) => ReplaceTask(l, s, t, s.tasks[t].(plans := s.tasks[t].plans[1..]));
    case EndTask(t) => ReplaceTask(l, s, t, s.tasks[t].(channel := [], ended := true));
    case _ =>
  }

  /** Changing one task changes the count by what it gives to, or takes from, the rest. */
  lemma PlacesAfterTask(s: State, s': State, t: nat, id: Id)
    requires t < |s.tasks| == |s'.tasks| && s'.tasks == s.tasks[t := s'.tasks[t]]
    requires s'.waiting == s.waiting && s'.running == s.running
    ensures Places(s', id) - Places(s, id)
         == (InTask(s'.tasks[t], id) + InJobs(s'.queue, id) + s'.resolved[id])
            - (InTask(s.tasks[t], id) + InJobs(s.queue, id) + s.resolved[id])
  {
    UpdateTask(s.tasks, t, s'.tasks[t], id);
  }

  lemma OneMoreTask(tasks: seq<Task>, task: Task, id: Id)
    ensures InTasks(tasks + [task], id) == InTasks(tasks, id) + InTask(task, id)
  {
    SumPrefix(Counts(tasks, id), InTask(task, id), |tasks|);
    assert Counts(tasks + [task], id) == Counts(tasks, id) + [InTask(task, id)];
  }

  lemma NewTaskHolds(req: Request, id: Id)
    ensures InTask(Task(req.key, [req], [], [], false), id) == if id == req.id then 1 else 0
  {
    OneMoreRequest([], req, id);
    assert [] + [req] == [req];
    NoHolders(id);
  }

  lemma NoHolders(id: Id)
    ensures Holders<Request>([], id) == 0
  {
  }

  lemma NewTaskConserves(l: Limits, s: State, req: Request, id: Id)
    requires req.key !in s.entries
    ensures Places(AfterAttempt(l, s, req), id) == Places(s, id) + if id == req.id then 1 else 0
  {
    OneMoreTask(s.tasks, Task(req.key, [req], [], [], false), id);
    NewTaskHolds(req, id);
  }

  lemma AcceptConserves(s: State, t: nat, req: Request, id: Id)
    requires t < |s.tasks|
    ensures Places(s.(tasks := s.tasks[t := s.tasks[t].(channel := s.tasks[t].channel + [req])],
                      accepted := s.accepted + {req.id}), id)
         == Places(s, id) + if id == req.id then 1 else 0
  {
    var task := s.tasks[t].(channel := s.tasks[t].channel + [req]);
    PlacesAfterTask(s, s.(tasks := s.tasks[t := task], accepted := s.accepted + {req.id}), t, id);
    OneMoreRequest(s.tasks[t].channel, req, id);
  }

  lemma ExistingTaskConserves(l: Limits, s: State, req: Request, id: Id)
    requires Structure(l, s) && req.key in s.entries && req.id !in s.accepted
    ensures var s' := AfterAttempt(l, s, req);
            || (s'.accepted == s.accepted && Places(s', id) == Places(s, id))
            || (s'.accepted == s.accepted + {req.id} && Places(s', id) == Places(s, id) + if id == req.id then 1 else 0)
  {
    AcceptConserves(s, s.entries[req.key], req, id);
  }

  lemma AttemptConserves(l: Limits, s: State, req: Request, id: Id)
    requires Structure(l, s) && req.id !in s.accepted
    requires Places(s, id) == if id in s.accepted then 1 else 0
    ensures Places(AfterAttempt(l, s, req), id) == if id in AfterAttempt(l, s, req).accepted then 1 else 0
  {
    if req.key !in s.entries {
      NewTaskConserves(l, s, req, id);
    } else {
      ExistingTaskConserves(l, s, req, id);
    }
  }

  lemma CollectConserves(task: Task, id: Id)
    requires task.channel != []
    ensures InTask(task.(channel := task.channel[1..], open := task.open + [task.channel[0]]), id) == InTask(task, id)
  {
    var r, rest := task.channel[0], task.channel[1..];
    assert task.channel == [r] + rest;
    OneMoreRequest(rest, r, id);
    OneMoreRequest(task.open, r, id);
  }

  lemma FlushStepConserves(l: Limits, s: State, t: nat, probe: bool, id: Id)
    requires Inv(l, s) && t < |s.tasks| && s.tasks[t].plans == []
    ensures InTask(AfterFlush(l, s, t, probe).tasks[t], id) + AfterFlush(l, s, t, probe).resolved[id]
         == InTask(s.tasks[t], id) + s.resolved[id]
  {
    OpenIsDistinct(l, s, t);
    FlushConserves(l, s.tasks[t].open, s.tasks[t].key.streaming, id);
    assert Ids([]) == [];
    NoHolders(id);
  }

  lemma NextPlanLeaves(task: Task, id: Id)
    requires task.plans != []
    ensures InTask(task, id)
        == InTask(task.(plans := task.plans[1..]), id) + if id in task.plans[0].pending then 1 else 0
  {
  }

  lemma PlanConserves(l: Limits, s: State, t: nat, id: Id)
    requires t < |s.tasks| && s.tasks[t].plans != []
    ensures InTask(AfterPlan(l, s, t).tasks[t], id) + InJobs(AfterPlan(l, s, t).queue, id)
        + AfterPlan(l, s, t).resolved[id]
         == InTask(s.tasks[t], id) + InJobs(s.queue, id) + s.resolved[id]
  {
    var plan := s.tasks[t].plans[0];
    NextPlanLeaves(s.tasks[t], id);
    if plan.Invoke? { AppendJob(s.queue, JobOf(plan, SendingProbe(s, t), t), id); }
    assert multiset(plan.pending.Keys)[id] == if id in plan.pending then 1 else 0;
  }

  /** Requests have moved between task t, the job queue and the answers only, and none was lost or doubled. */
  ghost predicate MovedWithin(s: State, s': State, t: nat, id: Id) {
    && t < |s.tasks| == |s'.tasks|
    && InTask(s.tasks[t], id) + InJobs(s.queue, id) + s.resolved[id]
       == InTask(s'.tasks[t], id) + InJobs(s'.queue, id) + s'.resolved[id]
    && s'.tasks == s.tasks[t := s'.tasks[t]]
    && s'.accepted == s.accepted && s'.waiting == s.waiting && s'.running == s.running
  }

  lemma CollectStepConserves(l: Limits, s: State, t: nat, id: Id)
    requires Enabled(l, s, Collect(t))
    ensures MovedWithin(s, Apply(l, s, Collect(t)), t, id)
  {
    CollectConserves(s.tasks[t], id);
  }

  lemma EndTaskConserves(l: Limits, s: State, t: nat, id: Id)
    requires Enabled(l, s, EndTask(t))
    ensures MovedWithin(s, Apply(l, s, EndTask(t)), t, id)
  {
    assert Ids([]) == [];
  }

  lemma FlushMoves(l: Limits, s: State, t: nat, probe: bool, id: Id)
    requires Inv(l, s) && Enabled(l, s, Flush(t, probe))
    ensures MovedWithin(s, Apply(l, s, Flush(t, probe)), t, id)
  {
    FlushStepConserves(l, s, t, probe, id);
  }

  lemma PlanMoves(l: Limits, s: State, t: nat, id: Id)
    requires Enabled(l, s, PlanNext(t))
    ensures MovedWithin(s, Apply(l, s, PlanNext(t)), t, id)
  {
    PlanConserves(l, s, t, id);
  }

  /** A step of one task moves requests between the task, the job queue and the answers. */
  lemma TaskStepConserves(l: Limits, s: State, step: Step, id: Id)
    requires Inv(l, s) && Enabled(l, s, step)
    requires step.Collect? || step.Flush? || step.PlanNext? || step.EndTask?
    ensures MovedWithin(s, Apply(l, s, step), step.task, id)
  {
    match step
    case Collect(t) => CollectStepConserves(l, s, t, id);
    case Flush(t, probe) => FlushMoves(l, s, t, probe, id);
    case PlanNext(t) => PlanMoves(l, s, t, id);
    case EndTask(t) => EndTaskConserves(l, s, t, id);
  }

  lemma ReceiveConserves(queue: seq<Job>, id: Id)
    requires queue != []
    ensures InJobs(queue, id) == InJobs(queue[1..], id) + InJob(queue[0], id)
  {
    RemoveJob(queue, 0, id);
    var rest := queue[1..];
    assert queue[..0] == [] && [] + rest == rest;
  }

  lemma FinishConserves(running: seq<Job>, j: nat, id: Id)
    requires j < |running|
    ensures InJobs(running, id) == InJobs(running[..j] + running[j + 1..], id) + multiset(running[j].pending.Keys)[id]
  {
    RemoveJob(running, j, id);
    assert multiset(running[j].pending.Keys)[id] == InJob(running[j], id);
  }

  /** A step of the dispatcher or of a running invocation moves a job, or answers it. */
  lemma JobStepConserves(l: Limits, s: State, step: Step, id: Id)
    requires Enabled(l, s, step)
    requires step.ReceiveJob? || step.AcquirePermit? || step.FinishJob? || step.RemoveEntry? || step.HearFeedback?
    ensures Places(Apply(l, s, step), id) == Places(s, id) && Apply(l, s, step).accepted == s.accepted
  {
    if step.ReceiveJob? {
      ReceiveConserves(s.queue, id);
    } else if step.AcquirePermit? {
      AppendJob(s.running, s.waiting.value, id);
    } else if step.FinishJob? {
      FinishConserves(s.running, step.job, id);
    }
  }

  lemma StepConserves(l: Limits, s: State, step: Step, id: Id)
    requires Inv(l, s) && Enabled(l, s, step)
    ensures Places(Apply(l, s, step), id) == if id in Apply(l, s, step).accepted then 1 else 0
  {
    assert Places(s, id) == if id in s.accepted then 1 else 0;
    if step.Attempt? {
      AttemptConserves(l, s, step.req, id);
    } else if step.Collect? || step.Flush? || step.PlanNext? || step.EndTask? {
      TaskStepConserves(l, s, step, id);
      PlacesAfterTask(s, Apply(l, s, step), step.task, id);
    } else {
      JobStepConserves(l, s, step, id);
    }
  }

  ghost predicate Runs(l: Limits, s: State, steps: seq<Step>)
    decreases |steps|
  {
    steps == [] || (Enabled(l, s, steps[0]) && Runs(l, Apply(l, s, steps[0]), steps[1..]))
  }

  ghost function After(l: Limits, s: State, steps: seq<Step>): State
    requires Runs(l, s, steps)
    decreases |steps|
  {
    if steps == [] then s else After(l, Apply(l, s, steps[0]), steps[1..])
  }

  /** Main result: in every reachable state every accepted request is in exactly one place, within all bounds. */
  lemma {:induction false} ConservedAlways(l: Limits, s: State, steps: seq<Step>)
    requires Inv(l, s) && Runs(l, s, steps)
    ensures Inv(l, After(l, s, steps))
    decreases |steps|
  {
    if steps != [] {
      StepKeepsStructure(l, s, steps[0]);
      forall id ensures Places(Apply(l, s, steps[0]), id) == if id in Apply(l, s, steps[0]).accepted then 1 else 0 {
        StepConserves(l, s, steps[0], id);
      }
      ConservedAlways(l, Apply(l, s, steps[0]), steps[1..]);
    }
  }

  /** Once nothing is in flight, every accepted request has been resolved; before, none is twice. */
  lemma QuietMeansResolved(l: Limits, steps: seq<Step>)
    requires Runs(l, INIT, steps)
    ensures Inv(l, After(l, INIT, steps))
    ensures var s := After(l, INIT, steps);
            && (forall id :: s.resolved[id] <= 1 && (s.resolved[id] == 1 ==> id in s.accepted))
            && (s.queue == [] && s.waiting.None? && s.running == []
                && (forall t :: 0 <= t < |s.tasks| ==>
                      s.tasks[t].channel == [] && s.tasks[t].open == [] && s.tasks[t].plans == []) ==>
                  s.resolved == multiset(s.accepted))
  {
    ConservedAlways(l, INIT, steps);
    var s := After(l, INIT, steps);
    forall id ensures s.resolved[id] <= 1 && (s.resolved[id] == 1 ==> id in s.accepted) {
      assert Places(s, id) == if id in s.accepted then 1 else 0;
    }
    if s.queue == [] && s.waiting.None? && s.running == []
       && (forall t :: 0 <= t < |s.tasks| ==>
           s.tasks[t].channel == [] && s.tasks[t].open == [] && s.tasks[t].plans == [])
    {
      forall id ensures s.resolved[id] == multiset(s.accepted)[id] {
        assert Places(s, id) == if id in s.accepted then 1 else 0;
        EmptyTasks(s.tasks, id);
      }
    }
  }

  lemma {:induction false} NothingCounted(counts: seq<nat>, n: nat)
    requires n <= |counts| && forall k :: 0 <= k < |counts| ==> counts[k] == 0
    ensures SumFirst(counts, n) == 0
  {
    if n > 0 {
      NothingCounted(counts, n - 1);
    }
  }

  lemma EmptyTasks(tasks: seq<Task>, id: Id)
    requires forall t :: 0 <= t < |tasks| ==> tasks[t].channel == [] && tasks[t].open == [] && tasks[t].plans == []
    ensures InTasks(tasks, id) == 0
  {
    assert Ids([]) == [];
    NoHolders(id);
    NothingCounted(Counts(tasks, id), |tasks|);
  }
}
