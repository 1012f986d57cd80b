/**
 How probes are heard of, over every run of the pipeline: each flushed probe is still on its way, has
 failed silently, or has given one report, and a task hears each report once and only while that probe is
 the one that is out.
 */
module ProbeFeedback {
  import opened Planner
  import opened FlushBatch
  import opened Invocation
  import opened Pipeline

  ghost function IsProbeOf(job: Job, t: nat): nat {
    if job.isProbe && job.reportsTo == t then 1 else 0
  }

  /** The probes of task t among the jobs. */
  ghost function ProbesOf(jobs: seq<Job>, t: nat): nat {
    if jobs == [] then 0 else ProbesOf(jobs[..|jobs| - 1], t) + IsProbeOf(jobs[|jobs| - 1], t)
  }

  /** The probe jobs of task t that are queued, waiting for a permit, or running. */
  ghost function ProbesInJobs(s: State, t: nat): nat {
    ProbesOf(s.queue, t) + (if s.waiting.Some? then IsProbeOf(s.waiting.value, t) else 0) + ProbesOf(s.running, t)
  }

  /** The plans of task t's probe that are not sent yet. */
  ghost function ProbesInPlans(s: State, t: nat): nat
    requires t < |s.tasks|
  {
    if SendingProbe(s, t) then |s.tasks[t].plans| else 0
  }

  /**
   Every probe flushed is in a plan, in a job, silent, or has given its one report; what is heard was
   given; and a probe is out exactly while one more was flushed than heard of.
   */
  ghost predicate Accounted(s: State, t: nat)
    requires t < |s.tasks| && t < |s.probing|
  {
    var p := s.probing[t];
    && ProbesInPlans(s, t) + ProbesInJobs(s, t) + p.silent + p.given == p.flushed
    && p.heard <= p.given
    && p.flushed == p.heard + (if p.inflight then 1 else 0)
  }

  ghost predicate ProbeInv(s: State) {
    |s.probing| == |s.tasks| && forall t :: 0 <= t < |s.tasks| ==> Accounted(s, t)
  }

  lemma AppendProbe(jobs: seq<Job>, job: Job, t: nat)
    ensures ProbesOf(jobs + [job], t) == ProbesOf(jobs, t) + IsProbeOf(job, t)
  {
    assert (jobs + [job])[..|jobs|] == jobs;
  }

  lemma {:induction false} RemoveProbe(jobs: seq<Job>, j: nat, t: nat)
    requires j < |jobs|
    ensures ProbesOf(jobs, t) == ProbesOf(jobs[..j] + jobs[j + 1..], t) + IsProbeOf(jobs[j], t)
    decreases |jobs|
  {
    var last := |jobs| - 1;
    var without := jobs[..j] + jobs[j + 1..];
    if j < last {
      RemoveProbe(jobs[..last], j, t);
      assert without[..|without| - 1] == jobs[..last][..j] + jobs[..last][j + 1..];
    } else {
      assert without == jobs[..last];
    }
  }

  lemma {:induction false} NoProbesYet(jobs: seq<Job>, t: nat)
    requires forall k :: 0 <= k < |jobs| ==> jobs[k].reportsTo != t
    ensures ProbesOf(jobs, t) == 0
  {
    if jobs != [] {
      NoProbesYet(jobs[..|jobs| - 1], t);
    }
  }

  /** Jobs report to tasks that exist. */
  ghost predicate KnownTasks(s: State) {
    && (forall k :: 0 <= k < |s.queue| ==> s.queue[k].reportsTo < |s.tasks|)
    && (s.waiting.Some? ==> s.waiting.value.reportsTo < |s.tasks|)
    && (forall k :: 0 <= k < |s.running| ==> s.running[k].reportsTo < |s.tasks|)
  }

  lemma FewerTasksNever(l: Limits, s: State, step: Step)
    requires Enabled(l, s, step)
    ensures |s.tasks| <= |Apply(l, s, step).tasks|
  {
  }

  lemma KnownTasksStep(l: Limits, s: State, step: Step)
    requires KnownTasks(s) && Enabled(l, s, step)
    ensures KnownTasks(Apply(l, s, step))
  {
    FewerTasksNever(l, s, step);
    if step.PlanNext? {
      PlanKnowsTasks(l, s, step.task);
    }
  }

  lemma PlanKnowsTasks(l: Limits, s: State, t: nat)
    requires KnownTasks(s) && t < |s.tasks| && s.tasks[t].plans != []
    ensures KnownTasks(AfterPlan(l, s, t))
  {
  }

  // ---------------------------------------------------------------- every step

  /** What a step leaves alone for task t: its plans, its counters, and its probes among the jobs. */
  ghost predicate Untouched(s: State, s': State, t: nat) {
    && t < |s.tasks| && t < |s'.tasks| && t < |s.probing| && t < |s'.probing|
    && |s'.tasks[t].plans| == |s.tasks[t].plans| && s'.probing[t] == s.probing[t]
    && ProbesInJobs(s', t) == ProbesInJobs(s, t)
  }

  lemma UntouchedStays(s: State, s': State, t: nat)
    requires Untouched(s, s', t) && Accounted(s, t)
    ensures Accounted(s', t)
  {
  }

  lemma AttemptTouchesNone(l: Limits, s: State, req: Request, t: nat)
    requires |s.probing| == |s.tasks| && t < |s.tasks|
    ensures Untouched(s, AfterAttempt(l, s, req), t)
  {
  }

  lemma NewTaskAccounts(l: Limits, s: State, req: Request)
    requires |s.probing| == |s.tasks| && KnownTasks(s) && req.key !in s.entries
    ensures Accounted(AfterAttempt(l, s, req), |s.tasks|)
  {
    NoProbesYet(s.queue, |s.tasks|);
    NoProbesYet(s.running, |s.tasks|);
  }

  lemma AttemptAccounts(l: Limits, s: State, req: Request, t: nat)
    requires ProbeInv(s) && KnownTasks(s) && t < |AfterAttempt(l, s, req).tasks|
    ensures |AfterAttempt(l, s, req).probing| == |AfterAttempt(l, s, req).tasks|
    ensures Accounted(AfterAttempt(l, s, req), t)
  {
    if t < |s.tasks| {
      AttemptTouchesNone(l, s, req, t);
      UntouchedStays(s, AfterAttempt(l, s, req), t);
    } else {
      NewTaskAccounts(l, s, req);
    }
  }

  lemma FlushAccounts(l: Limits, s: State, t: nat, probe: bool)
    requires t < |s.tasks| && t < |s.probing| && Accounted(s, t) && Enabled(l, s, Flush(t, probe))
    ensures Accounted(AfterFlush(l, s, t, probe), t)
  {
    var s' := AfterFlush(l, s, t, probe);
    if probe {
      var open, task := s.tasks[t].open, s.tasks[t];
      assert Items(open) == [BatchItem(open[0].id, open[0].content)];
      SingletonHasOnePlan(l.build, l.maxPayload, Fitting(open, task.key.streaming), Items(open)[0]);
      assert |s'.tasks[t].plans| == 1;
    }
    assert ProbesInPlans(s, t) == 0 && ProbesInJobs(s', t) == ProbesInJobs(s, t);
  }

  /** What sending the next plan of a task does to its own counters and plans. */
  lemma OwnPlanSent(l: Limits, s: State, t: nat)
    requires t < |s.tasks| && s.tasks[t].plans != [] && t < |s.probing|
    ensures var s', plan, p := AfterPlan(l, s, t), s.tasks[t].plans[0], s.probing[t];
            && t < |s'.tasks| && t < |s'.probing| && |s'.tasks[t].plans| == |s.tasks[t].plans| - 1
            && s'.waiting == s.waiting && s'.running == s.running
            && (if plan.Fail? then
                  s'.queue == s.queue && s'.probing[t] == p.(silent := p.silent + if p.sending then 1 else 0)
                else || (s'.queue == s.queue + [JobOf(plan, p.sending, t)] && s'.probing[t] == p)
                     || (s'.queue == s.queue && s'.probing[t] == p.(given := p.given + if p.sending then 1 else 0)))
  {
  }

  lemma OwnPlanAccounts(l: Limits, s: State, t: nat)
    requires t < |s.tasks| && s.tasks[t].plans != [] && t < |s.probing| && Accounted(s, t)
    ensures Accounted(AfterPlan(l, s, t), t)
  {
    var plan := s.tasks[t].plans[0];
    OwnPlanSent(l, s, t);
    if plan.Invoke? {
      AppendProbe(s.queue, JobOf(plan, s.probing[t].sending, t), t);
    }
  }

  lemma OtherPlanSent(l: Limits, s: State, t: nat, u: nat)
    requires t < |s.tasks| && s.tasks[t].plans != [] && |s.probing| == |s.tasks| && u < |s.tasks| && u != t
    ensures AfterPlan(l, s, t).probing[u] == s.probing[u] && AfterPlan(l, s, t).tasks[u] == s.tasks[u]
    ensures ProbesInJobs(AfterPlan(l, s, t), u) == ProbesInJobs(s, u)
  {
    var plan := s.tasks[t].plans[0];
    if plan.Invoke? {
      AppendProbe(s.queue, JobOf(plan, SendingProbe(s, t), t), u);
    }
  }

  lemma PlanAccounts(l: Limits, s: State, t: nat, u: nat)
    requires t < |s.tasks| && s.tasks[t].plans != [] && ProbeInv(s) && u < |s.tasks|
    ensures Accounted(AfterPlan(l, s, t), u)
  {
    assert Accounted(s, u);
    if u == t {
      OwnPlanAccounts(l, s, t);
    } else {
      OtherPlanSent(l, s, t, u);
      UntouchedStays(s, AfterPlan(l, s, t), u);
    }
  }

  lemma FinishAccounts(l: Limits, s: State, j: nat, t: nat)
    requires j < |s.running| && ProbeInv(s) && t < |s.tasks| && s.running[j].reportsTo < |s.tasks|
    ensures Accounted(Apply(l, s, FinishJob(j)), t)
  {
    var s', job := Apply(l, s, FinishJob(j)), s.running[j];
    assert Accounted(s, t);
    RemoveProbe(s.running, j, t);
    assert s'.probing[t]
        == if IsProbeOf(job, t) == 1 then s.probing[t].(given := s.probing[t].given + 1) else s.probing[t];
  }

  lemma {:induction false} ReceiveKeepsProbes(queue: seq<Job>, t: nat)
    requires queue != []
    ensures ProbesOf(queue, t) == ProbesOf(queue[1..], t) + IsProbeOf(queue[0], t)
    decreases |queue|
  {
    var last := |queue| - 1;
    if last > 0 {
      ReceiveKeepsProbes(queue[..last], t);
      assert queue[1..][..last - 1] == queue[..last][1..];
    } else {
      assert queue[..0] == [] && queue[1..] == [];
    }
  }

  lemma MoveAccounts(l: Limits, s: State, step: Step, t: nat)
    requires step.ReceiveJob? || step.AcquirePermit?
    requires Enabled(l, s, step) && t < |s.tasks| && t < |s.probing| && Accounted(s, t)
    ensures Accounted(Apply(l, s, step), t)
  {
    if step.ReceiveJob? {
      ReceiveKeepsProbes(s.queue, t);
    } else {
      AppendProbe(s.running, s.waiting.value, t);
    }
  }

  /** A report that can be heard is that of the probe that is out. */
  lemma HeardWhileOut(l: Limits, s: State, t: nat)
    requires ProbeInv(s) && t < |s.tasks| && s.probing[t].heard < s.probing[t].given
    ensures s.probing[t].inflight && s.probing[t].given == s.probing[t].flushed == s.probing[t].heard + 1
  {
    assert Accounted(s, t);
  }

  lemma TaskStepAccounts(l: Limits, s: State, step: Step, t: nat)
    requires step.Collect? || step.Flush? || step.HearFeedback? || step.EndTask? || step.RemoveEntry?
    requires Enabled(l, s, step) && ProbeInv(s) && t < |s.tasks|
    ensures Accounted(Apply(l, s, step), t)
  {
    assert Accounted(s, t);
    if step.Flush? && t == step.task {
      FlushAccounts(l, s, t, step.probe);
    } else if step.HearFeedback? && t == step.task {
      HeardWhileOut(l, s, t);
      assert ProbesInJobs(Apply(l, s, step), t) == ProbesInJobs(s, t);
    } else {
      UntouchedStays(s, Apply(l, s, step), t);
    }
  }

  lemma StepAccountsOne(l: Limits, s: State, step: Step, t: nat)
    requires ProbeInv(s) && KnownTasks(s) && Enabled(l, s, step) && t < |Apply(l, s, step).tasks|
    ensures |Apply(l, s, step).probing| == |Apply(l, s, step).tasks|
    ensures Accounted(Apply(l, s, step), t)
  {
    if step.Attempt? {
      AttemptAccounts(l, s, step.req, t);
    } else if step.PlanNext? {
      PlanAccounts(l, s, step.task, t);
    } else if step.FinishJob? {
      FinishAccounts(l, s, step.job, t);
    } else if step.ReceiveJob? || step.AcquirePermit? {
      MoveAccounts(l, s, step, t);
    } else {
      TaskStepAccounts(l, s, step, t);
    }
  }

  lemma StepAccounts(l: Limits, s: State, step: Step)
    requires ProbeInv(s) && KnownTasks(s) && Enabled(l, s, step)
    ensures ProbeInv(Apply(l, s, step)) && KnownTasks(Apply(l, s, step))
  {
    KnownTasksStep(l, s, step);
    StillParallel(l, s, step);
    forall t | 0 <= t < |Apply(l, s, step).tasks| ensures Accounted(Apply(l, s, step), t) {
      StepAccountsOne(l, s, step, t);
    }
  }

  lemma StillParallel(l: Limits, s: State, step: Step)
    requires |s.probing| == |s.tasks| && Enabled(l, s, step)
    ensures |Apply(l, s, step).probing| == |Apply(l, s, step).tasks| >= |s.tasks|
  {
  }

  /** Over every run, every probe is accounted for. */
  lemma {:induction false} AccountedAlways(l: Limits, s: State, steps: seq<Step>)
    requires ProbeInv(s) && KnownTasks(s) && Runs(l, s, steps)
    ensures ProbeInv(After(l, s, steps)) && KnownTasks(After(l, s, steps))
    decreases |steps|
  {
    if steps != [] {
      StepAccounts(l, s, steps[0]);
      AccountedAlways(l, Apply(l, s, steps[0]), steps[1..]);
    }
  }

  /**
   Main result, from the start over every run: a task never hears more reports than probes it flushed, no
   more than one probe is out, and while none is out there is none of its probes in a plan, queued, waiting
   or running, none has stayed silent, and no report is left to be heard.
   */
  lemma ProbesFromTheStart(l: Limits, steps: seq<Step>, t: nat)
    requires Runs(l, INIT, steps) && t < |After(l, INIT, steps).tasks|
    ensures var s := After(l, INIT, steps);
            && t < |s.probing|
            && var p := s.probing[t];
               && p.given + ProbesInPlans(s, t) + ProbesInJobs(s, t) + p.silent == p.flushed
               && p.heard <= p.given <= p.flushed <= p.heard + 1
               && (p.inflight <==> p.flushed == p.heard + 1)
               && (p.heard < p.given ==> p.inflight)
               && (!p.inflight ==> ProbesInPlans(s, t) == 0 && ProbesInJobs(s, t) == 0)
               && (!p.inflight ==> p.silent == 0 && p.given == p.heard)
  {
    AccountedAlways(l, INIT, steps);
    assert Accounted(After(l, INIT, steps), t);
  }

  // ---------------------------------------------------------------- a silent probe is the last

  /** With a silent probe, no report is left to be heard. */
  lemma SilentMeansUnheard(s: State, t: nat)
    requires ProbeInv(s) && t < |s.tasks| && s.probing[t].silent > 0
    ensures s.probing[t].inflight && s.probing[t].given == s.probing[t].heard
  {
    assert Accounted(s, t);
  }

  /** How a step may change a task's counters. */
  ghost predicate CounterStep(p: Probing, p': Probing) {
    || p' == p
    || (exists probe :: (probe ==> !p.inflight) && p' == Begun(p, probe))
    || p' == p.(given := p.given + 1)
    || p' == p.(silent := p.silent + 1)
    || (p.heard < p.given && p' == p.(inflight := false, heard := p.heard + 1))
  }

  lemma CountersStep(l: Limits, s: State, step: Step, t: nat)
    requires |s.probing| == |s.tasks| && Enabled(l, s, step) && t < |s.tasks|
    ensures t < |Apply(l, s, step).probing| && CounterStep(s.probing[t], Apply(l, s, step).probing[t])
  {
    if step.PlanNext? {
      if step.task == t { OwnPlanSent(l, s, t); } else { OtherPlanSent(l, s, step.task, t); }
    } else if step.Attempt? {
      AttemptTouchesNone(l, s, step.req, t);
    } else if step.Flush? && step.task == t {
      assert Apply(l, s, step).probing[t] == Begun(s.probing[t], step.probe);
    }
  }

  lemma SilentStep(l: Limits, s: State, step: Step, t: nat)
    requires ProbeInv(s) && Enabled(l, s, step) && t < |s.tasks| && s.probing[t].silent > 0
    ensures t < |Apply(l, s, step).tasks| && t < |Apply(l, s, step).probing|
    ensures Apply(l, s, step).probing[t].silent > 0
    ensures Apply(l, s, step).probing[t].flushed == s.probing[t].flushed
  {
    SilentMeansUnheard(s, t);
    StillParallel(l, s, step);
    CountersStep(l, s, step, t);
  }

  /** Main result: once a probe has stayed silent, its task is never heard again and flushes no other probe. */
  lemma {:induction false} SilentProbeIsTheLast(l: Limits, s: State, steps: seq<Step>, t: nat)
    requires ProbeInv(s) && KnownTasks(s) && Runs(l, s, steps) && t < |s.tasks| && s.probing[t].silent > 0
    ensures var s' := After(l, s, steps);
            && t < |s'.probing| && t < |s'.tasks|
            && s'.probing[t].inflight
            && s'.probing[t].flushed == s.probing[t].flushed
            && !Enabled(l, s', HearFeedback(t))
    decreases |steps|
  {
    SilentMeansUnheard(s, t);
    if steps != [] {
      SilentStep(l, s, steps[0], t);
      StepAccounts(l, s, steps[0]);
      SilentProbeIsTheLast(l, Apply(l, s, steps[0]), steps[1..], t);
    }
  }

  lemma OnePlan(l: Limits, req: Request, pending: Pending)
    ensures var plans := PlanInvocations(l.build, l.maxPayload, pending, Items([req])).plans;
            |plans| == 1 && (plans[0].Fail? <==> !FitsAlone(l.build, l.maxPayload, req))
  {
    assert Items([req]) == [BatchItem(req.id, req.content)];
  }

  /** Exactly the probes that cannot be sent alone stay silent. */
  lemma SilentIff(l: Limits, s: State, t: nat, req: Request)
    requires t < |s.tasks| && t < |s.probing| && s.tasks[t].open == [req] && !s.probing[t].inflight
    requires s.tasks[t].plans == []
    ensures var sent := AfterFlush(l, s, t, true);
            && |sent.tasks[t].plans| == 1
            && AfterPlan(l, sent, t).probing[t].silent
               == s.probing[t].silent + if FitsAlone(l.build, l.maxPayload, req) then 0 else 1
  {
    OnePlan(l, req, Fitting([req], s.tasks[t].key.streaming));
    var sent := AfterFlush(l, s, t, true);
    assert sent.tasks[t].plans != [] && sent.probing[t] == Begun(s.probing[t], true);
    OwnPlanSent(l, sent, t);
  }

  lemma TakenAlone(l: Limits, req: Request)
    ensures Enabled(l, INIT, Attempt(req))
    ensures var s1 := AfterAttempt(l, INIT, req);
            && Enabled(l, s1, Collect(0))
            && Apply(l, s1, Collect(0)).tasks == [Task(req.key, [], [req], [], false)]
            && Apply(l, s1, Collect(0)).probing == [NO_PROBES]
  {
    var s1 := AfterAttempt(l, INIT, req);
    assert s1.tasks == [Task(req.key, [req], [], [], false)];
    assert s1.tasks[0].open + [req] == [req] && s1.tasks[0].channel[1..] == [];
  }

  lemma FlushedSilently(l: Limits, s: State, req: Request)
    requires s.tasks == [Task(req.key, [], [req], [], false)] && s.probing == [NO_PROBES]
    requires !FitsAlone(l.build, l.maxPayload, req)
    ensures Enabled(l, s, Flush(0, true))
    ensures var s3 := AfterFlush(l, s, 0, true);
            && Enabled(l, s3, PlanNext(0))
            && AfterPlan(l, s3, 0).probing == [Probing(true, 1, 1, 0, 0, true)]
  {
    OnePlan(l, req, Fitting([req], req.key.streaming));
    var s3 := AfterFlush(l, s, 0, true);
    assert s3.probing == [Begun(NO_PROBES, true)] && s3.tasks[0].plans != [] && s3.tasks[0].plans[0].Fail?;
    OwnPlanSent(l, s3, 0);
    assert |AfterPlan(l, s3, 0).probing| == 1;
  }

  /** The concrete run: a request that does not fit alone is flushed as a probe, and that was the task's last. */
  lemma OneSilentProbe(l: Limits, req: Request)
    requires !FitsAlone(l.build, l.maxPayload, req)
    ensures var steps := [Attempt(req), Collect(0), Flush(0, true), PlanNext(0)];
            Runs(l, INIT, steps) && After(l, INIT, steps).probing == [Probing(true, 1, 1, 0, 0, true)]
  {
    TakenAlone(l, req);
    FlushedSilently(l, Apply(l, AfterAttempt(l, INIT, req), Collect(0)), req);
    RunFour(l, INIT, Attempt(req), Collect(0), Flush(0, true), PlanNext(0));
  }

  lemma RunFour(l: Limits, s: State, a: Step, b: Step, c: Step, d: Step)
    requires Enabled(l, s, a) && Enabled(l, Apply(l, s, a), b)
    requires Enabled(l, Apply(l, Apply(l, s, a), b), c)
    requires Enabled(l, Apply(l, Apply(l, Apply(l, s, a), b), c), d)
    ensures Runs(l, s, [a, b, c, d])
    ensures After(l, s, [a, b, c, d]) == Apply(l, Apply(l, Apply(l, Apply(l, s, a), b), c), d)
  {
    var s1 := Apply(l, s, a);
    var s2 := Apply(l, s1, b);
    var s3 := Apply(l, s2, c);
    var s4 := Apply(l, s3, d);
    assert Runs(l, s4, []) && After(l, s4, []) == s4;
    assert [d][1..] == [] && Runs(l, s3, [d]) && After(l, s3, [d]) == s4;
    assert [c, d][1..] == [d] && Runs(l, s2, [c, d]) && After(l, s2, [c, d]) == s4;
    assert [b, c, d][1..] == [c, d] && Runs(l, s1, [b, c, d]) && After(l, s1, [b, c, d]) == s4;
    assert [a, b, c, d][1..] == [b, c, d];
  }
}
