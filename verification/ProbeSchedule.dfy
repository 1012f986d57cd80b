/**
 The schedule of one batching task, read off a run of the whole pipeline: what its selects see is what the
 other parties did. It is a schedule on which feedback never runs ahead of the probes.
 */
module ProbeSchedule {
  import opened Planner
  import opened FlushBatch
  import opened Pipeline
  import ProbeFeedback
  import ProbeScheduler
  import Scheduler

  type Events = seq<Scheduler.Event<Request>>

  /** When things happen and what probes report is not part of the pipeline: it is given by event number. */
  datatype Observed = Observed(now: nat -> nat, success: nat -> bool, elapsedMs: nat -> nat)

  /** What task t sees of a step. */
  ghost function StepEvents(l: Limits, s: State, step: Step, t: nat, o: Observed, k: nat): Events
    requires Enabled(l, s, step)
  {
    match step
    case Collect(u) => if u == t then [Scheduler.Arrive(s.tasks[t].channel[0], o.now(k))] else []
    case HearFeedback(u) => if u == t then [Scheduler.ProbeFeedback(o.success(k), o.elapsedMs(k))] else []
    case Flush(u, _) => if u == t then [Scheduler.FlushTimer] else []
    case EndTask(u) => if u == t then [Scheduler.IdleTimeout] else []
    case _ => []
  }

  /** The task's schedule after more steps. */
  ghost function ScheduleOf(l: Limits, s: State, steps: seq<Step>, t: nat, o: Observed, before: Events): Events
    requires Runs(l, s, steps)
    decreases |steps|
  {
    if steps == [] then before
    else ScheduleOf(l, Apply(l, s, steps[0]), steps[1..], t, o, before + StepEvents(l, s, steps[0], t, o, |before|))
  }

  ghost function Flushed(s: State, t: nat): nat {
    if t < |s.probing| then s.probing[t].flushed else 0
  }

  ghost function HeardCount(s: State, t: nat): nat {
    if t < |s.probing| then s.probing[t].heard else 0
  }

  /** The grid of the task's probe clock, and its maximal batch size. */
  datatype Timing = Timing(start: nat, interval: nat, maxBatchSize: nat)

  ghost function Probes(events: Events, n: nat, g: Timing): set<nat>
    requires n <= |events| && g.interval > 0
  {
    ProbeScheduler.ProbesOf(events, n, g.start, g.interval, g.maxBatchSize).alone
  }

  /** Along the run the task flushes no probe that its schedule does not make one. */
  ghost predicate FlushesItsProbes(l: Limits, s: State, steps: seq<Step>, t: nat, o: Observed, before: Events,
                                   g: Timing)
    requires Runs(l, s, steps) && g.interval > 0
    decreases |steps|
  {
    && Flushed(s, t) <= |Probes(before, |before|, g)|
    && (steps == []
        || FlushesItsProbes(l, Apply(l, s, steps[0]), steps[1..], t, o,
                            before + StepEvents(l, s, steps[0], t, o, |before|), g))
  }

  lemma {:induction false} FirstEvents(a: Events, b: Events, n: nat, g: Timing)
    requires n <= |a| && n <= |b| && a[..n] == b[..n] && g.interval > 0
    ensures ProbeScheduler.ProbesOf(a, n, g.start, g.interval, g.maxBatchSize)
         == ProbeScheduler.ProbesOf(b, n, g.start, g.interval, g.maxBatchSize)
    ensures ProbeScheduler.HeardOf(a, n) == ProbeScheduler.HeardOf(b, n)
  {
    if n > 0 {
      assert a[n - 1] == a[..n][n - 1] == b[n - 1];
      assert a[..n - 1] == a[..n][..n - 1] == b[..n - 1];
      FirstEvents(a, b, n - 1, g);
      var alone := Probes(a, n - 1, g);
      FirstStates(a, b, n - 1, g, alone);
    }
  }

  lemma {:induction false} FirstStates(a: Events, b: Events, n: nat, g: Timing, alone: set<nat>)
    requires n <= |a| && n <= |b| && a[..n] == b[..n]
    ensures Scheduler.RunTask(a, n, g.maxBatchSize, true, alone) == Scheduler.RunTask(b, n, g.maxBatchSize, true, alone)
  {
    if n > 0 {
      assert a[n - 1] == a[..n][n - 1] == b[n - 1];
      assert a[..n - 1] == a[..n][..n - 1] == b[..n - 1];
      FirstStates(a, b, n - 1, g, alone);
    }
  }

  /** Feedback among the events so far is what the task has heard, and never ran ahead of the probes. */
  ghost predicate InStep(s: State, t: nat, events: Events, g: Timing)
    requires g.interval > 0
  {
    && |ProbeScheduler.HeardOf(events, |events|)| == HeardCount(s, t)
    && ProbeScheduler.FeedbackOfProbes(events, |events|, g.start, g.interval, g.maxBatchSize)
  }

  lemma StepHeard(l: Limits, s: State, step: Step, t: nat, o: Observed, k: nat)
    requires Enabled(l, s, step) && |s.probing| == |s.tasks|
    ensures var events := StepEvents(l, s, step, t, o, k);
            && |events| <= 1
            && HeardCount(Apply(l, s, step), t)
               == HeardCount(s, t) + if events != [] && events[0].ProbeFeedback? then 1 else 0
  {
    if t < |s.tasks| {
      ProbeFeedback.CountersStep(l, s, step, t);
      if step.PlanNext? {
        if step.task == t {
          ProbeFeedback.OwnPlanSent(l, s, t);
        } else {
          ProbeFeedback.OtherPlanSent(l, s, step.task, t);
        }
      }
    }
  }

  /** One event more: the feedback so far was no more than the probes so far, and neither is it now. */
  lemma OneMoreEvent(s: State, s': State, t: nat, before: Events, events: Events, g: Timing)
    requires g.interval > 0 && InStep(s, t, before, g) && |events| <= 1
    requires HeardCount(s', t) == HeardCount(s, t) + if events != [] && events[0].ProbeFeedback? then 1 else 0
    requires HeardCount(s', t) <= Flushed(s', t) <= |Probes(before + events, |before + events|, g)|
    ensures InStep(s', t, before + events, g)
  {
    var all := before + events;
    forall m | 0 <= m <= |all| ensures |ProbeScheduler.HeardOf(all, m)| <= |Probes(all, m, g)| {
      if m <= |before| {
        FirstEvents(all, before, m, g);
        assert |ProbeScheduler.HeardOf(before, m)| <= |Probes(before, m, g)|;
      } else {
        FirstEvents(all, before, |before|, g);
      }
    }
    FirstEvents(all, before, |before|, g);
    if events == [] {
      assert all == before;
    }
  }

  lemma HeardIsFlushed(s: State, t: nat)
    requires ProbeFeedback.ProbeInv(s)
    ensures HeardCount(s, t) <= Flushed(s, t)
  {
    if t < |s.tasks| {
      assert ProbeFeedback.Accounted(s, t);
    }
  }

  lemma {:induction false} StaysInStep(l: Limits, s: State, steps: seq<Step>, t: nat, o: Observed, before: Events,
                                       g: Timing)
    requires Runs(l, s, steps) && g.interval > 0
    requires ProbeFeedback.ProbeInv(s) && ProbeFeedback.KnownTasks(s)
    requires InStep(s, t, before, g) && FlushesItsProbes(l, s, steps, t, o, before, g)
    ensures InStep(After(l, s, steps), t, ScheduleOf(l, s, steps, t, o, before), g)
    decreases |steps|
  {
    if steps != [] {
      var s', events := Apply(l, s, steps[0]), StepEvents(l, s, steps[0], t, o, |before|);
      ProbeFeedback.StepAccounts(l, s, steps[0]);
      StepHeard(l, s, steps[0], t, o, |before|);
      HeardIsFlushed(s', t);
      OneMoreEvent(s, s', t, before, events, g);
      StaysInStep(l, s', steps[1..], t, o, before + events, g);
    }
  }

  /**
   Main result: on the schedule that a run of the pipeline gives to one of its tasks, a probe is out exactly
   while one more was sent than was heard of, and feedback only comes while its probe is out.
   */
  lemma OneProbeOutInEveryRun(l: Limits, steps: seq<Step>, t: nat, o: Observed, g: Timing, n: nat)
    requires Runs(l, INIT, steps) && g.interval > 0
    requires FlushesItsProbes(l, INIT, steps, t, o, [], g)
    requires n <= |ScheduleOf(l, INIT, steps, t, o, [])|
    requires ProbeScheduler.Lives(ScheduleOf(l, INIT, steps, t, o, []), n, g.start, g.interval, g.maxBatchSize)
    ensures var events := ScheduleOf(l, INIT, steps, t, o, []);
            var p := ProbeScheduler.ProbesOf(events, n, g.start, g.interval, g.maxBatchSize);
            && |p.alone| == |ProbeScheduler.HeardOf(events, n)| + (if p.inflight then 1 else 0)
            && (n > 0 && events[n - 1].ProbeFeedback? ==>
                  ProbeScheduler.ProbesOf(events, n - 1, g.start, g.interval, g.maxBatchSize).inflight)
  {
    assert InStep(INIT, t, [], g);
    StaysInStep(l, INIT, steps, t, o, [], g);
    ProbeScheduler.OneProbeOut(ScheduleOf(l, INIT, steps, t, o, []), n, g.start, g.interval, g.maxBatchSize);
  }
}
