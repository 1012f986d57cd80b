/**
 Batching with a probed wait: now and then one request is sent alone, and how long it took decides
 how long the following batches wait.
 */
module ProbeScheduler {
  import opened WaitPolicy
  import opened Scheduler

  datatype Heard = Heard(success: bool, elapsedMs: nat)

  /** The feedback among the first n events, in order. */
  ghost function HeardOf<R>(schedule: seq<Event<R>>, n: nat): seq<Heard>
    requires n <= |schedule|
  {
    if n == 0 then []
    else
      HeardOf(schedule, n - 1)
      + match schedule[n - 1]
        case ProbeFeedback(success, elapsedMs) => [Heard(success, elapsedMs)]
        case _ => []
  }

  /** The times of the successful probes heard of, in order. */
  ghost function Successes(heard: seq<Heard>): seq<real> {
    if heard == [] then []
    else Successes(heard[..|heard| - 1])
         + if heard[|heard| - 1].success then [heard[|heard| - 1].elapsedMs as real] else []
  }

  /** Which cell of the grid base, base + interval, base + 2 * interval ... the time falls into. */
  function Cell(t: nat, base: nat, interval: nat): int
    requires interval > 0
  {
    (t - base) / interval
  }

  lemma CellBounds(t: nat, base: nat, interval: nat, c: nat)
    requires interval > 0
    ensures base + c * interval <= t ==> c <= Cell(t, base, interval)
    ensures t < base + c * interval ==> Cell(t, base, interval) < c
  {
    var d := Cell(t, base, interval);
    assert t - base == d * interval + (t - base) % interval;
    assert (d + 1) * interval == d * interval + interval;
    if c * interval < (d + 1) * interval { ScaleStrict(c, d + 1, interval); }
    if d * interval < c * interval { ScaleStrict(d, c, interval); }
  }

  lemma ScaleStrict(a: int, b: int, k: nat)
    requires a * k < b * k
    ensures a < b
  {
  }

  /** The least of next, next + interval, next + 2 * interval ... that lies after now. */
  function LeastAfter(next: nat, interval: nat, now: nat): (r: nat)
    requires interval > 0
    ensures now < r && r >= next
    ensures next <= now ==> r - interval <= now
    decreases now - next
  {
    if now < next then next else LeastAfter(next + interval, interval, now)
  }

  /** When the next probe is due, whether one is out, and what the last ones took. */
  class ProbeClock {
    const base: nat       // task start + interval + offset
    const interval: nat
    const smoothing: nat
    var nextProbeAt: nat
    var inflight: bool
    var samples: seq<real>
    ghost var cells: nat  // nextProbeAt is the grid point of this number
    ghost var probes: seq<nat>
    ghost var heard: seq<Heard>

    ghost predicate Valid()
      reads this
    {
      && interval > 0 && smoothing > 0
      && nextProbeAt == base + cells * interval
      && samples == LastOf(Successes(heard), smoothing)
      && (forall j :: 0 <= j < |probes| ==> Cell(probes[j], base, interval) < cells)
      && (forall j, k :: 0 <= j < k < |probes| ==>
            Cell(probes[j], base, interval) < Cell(probes[k], base, interval))
    }

    constructor (startedAt: nat, offset: nat, interval: nat, smoothing: nat)
      requires interval > 0 && smoothing > 0
      ensures Valid() && base == startedAt + interval + offset
      ensures this.interval == interval && this.smoothing == smoothing
      ensures probes == [] && heard == [] && nextProbeAt == base && !inflight
    {
      this.base, this.interval, this.smoothing := startedAt + interval + offset, interval, smoothing;
      nextProbeAt, inflight, samples := startedAt + interval + offset, false, [];
      cells, probes, heard := 0, [], [];
    }

    /** Feedback: no probe is out any more, and a success is a sample. */
    method Hear(success: bool, elapsedMs: nat)
      requires Valid()
      modifies this`inflight, this`samples, this`heard
      ensures Valid() && !inflight && heard == old(heard) + [Heard(success, elapsedMs)]
    {
      inflight := false;
      ghost var heard' := heard + [Heard(success, elapsedMs)];
      assert heard'[..|heard|] == heard;
      if success {
        assert Successes(heard') == Successes(heard) + [elapsedMs as real];
        samples := PushToWindow(samples, smoothing, elapsedMs as real, Successes(heard));
      } else {
        assert Successes(heard') == Successes(heard);
      }
      heard := heard';
    }

    /** Moves a due time to the least grid point after now. */
    method MovePast(now: nat)
      requires interval > 0 && nextProbeAt == base + cells * interval
      modifies this`nextProbeAt, this`cells
      ensures nextProbeAt == base + cells * interval && cells >= old(cells)
      ensures nextProbeAt == LeastAfter(old(nextProbeAt), interval, now)
    {
      while nextProbeAt <= now
        invariant cells >= old(cells) && nextProbeAt == base + cells * interval
        invariant LeastAfter(nextProbeAt, interval, now) == LeastAfter(old(nextProbeAt), interval, now)
        decreases now - nextProbeAt
      {
        nextProbeAt := nextProbeAt + interval;
        cells := cells + 1;
        assert cells * interval == (cells - 1) * interval + interval;
      }
    }

    /** A request has arrived: is it a probe? The due time moves even while a probe is out and no other is sent. */
    method Decide(now: nat) returns (probe: bool)
      requires Valid()
      modifies this`nextProbeAt, this`inflight, this`cells, this`probes
      ensures Valid()
      ensures probe <==> old(!inflight && nextProbeAt <= now)
      ensures probes == old(probes) + if probe then [now] else []
      ensures nextProbeAt == LeastAfter(old(nextProbeAt), interval, now)
      ensures inflight == (old(inflight) || probe)
    {
      var due := now >= nextProbeAt;
      CellBounds(now, base, interval, cells);
      if due {
        MovePast(now);
      }
      CellBounds(now, base, interval, cells);
      probe := !inflight && due;
      if probe {
        inflight := true;
        probes := probes + [now];
      }
    }
  }

  datatype DurationConfig = DurationConfig(minWaitMs: nat, maxWaitMs: nat, warmupProbes: nat, fraction: real)

  /** The wait of an ordinary batch, from the probes heard of when it was opened. */
  ghost function WaitAfter(cfg: DurationConfig, smoothing: nat, heard: seq<Heard>): nat {
    var samples := LastOf(Successes(heard), smoothing);
    DurationWaitMs(if |samples| >= cfg.warmupProbes then Smoothed(samples) else 0.0,
                   cfg.fraction, cfg.minWaitMs, cfg.maxWaitMs)
  }

  /**
   The batch was opened by event number known - 1. If that is a probe, it was sent alone with the minimum
   wait; otherwise it waits as the probes heard of by then say.
   */
  ghost predicate FlushOk<R>(cfg: DurationConfig, smoothing: nat, schedule: seq<Event<R>>, n: nat, alone: set<nat>,
                             f: Flush<R>)
    requires n <= |schedule|
  {
    && 0 < f.known <= n
    && f.batch != [] && schedule[f.known - 1] == Arrive(f.batch[0], f.at)
    && (f.isProbe <==> f.known - 1 in alone)
    && (if f.isProbe then |f.batch| == 1 && f.waitMs == cfg.minWaitMs
        else f.waitMs == WaitAfter(cfg, smoothing, HeardOf(schedule, f.known)))
  }

  ghost predicate AllFlushOk<R>(cfg: DurationConfig, smoothing: nat, schedule: seq<Event<R>>, n: nat, alone: set<nat>,
                                flushed: seq<Flush<R>>)
    requires n <= |schedule|
  {
    forall k :: 0 <= k < |flushed| ==> FlushOk(cfg, smoothing, schedule, n, alone, flushed[k])
  }

  /** Later events, and requests sent alone later, do not matter to batches flushed before. */
  lemma FlushOkLater<R>(cfg: DurationConfig, smoothing: nat, schedule: seq<Event<R>>, n: nat, m: nat, alone: set<nat>,
                        more: set<nat>, flushed: seq<Flush<R>>)
    requires n <= m <= |schedule| && AllFlushOk(cfg, smoothing, schedule, n, alone, flushed)
    requires forall j :: j < n ==> (j in alone <==> j in more)
    ensures AllFlushOk(cfg, smoothing, schedule, m, more, flushed)
  {
    forall k | 0 <= k < |flushed| ensures FlushOk(cfg, smoothing, schedule, m, more, flushed[k]) {
      assert FlushOk(cfg, smoothing, schedule, n, alone, flushed[k]);
    }
  }

  ghost function ProbeTimes<R>(flushed: seq<Flush<R>>): seq<nat> {
    if flushed == [] then []
    else ProbeTimes(flushed[..|flushed| - 1])
         + if flushed[|flushed| - 1].isProbe then [flushed[|flushed| - 1].at] else []
  }

  lemma ProbeTimesNext<R>(flushed: seq<Flush<R>>, f: Flush<R>)
    ensures ProbeTimes(flushed + [f]) == ProbeTimes(flushed) + if f.isProbe then [f.at] else []
  {
    assert (flushed + [f])[..|flushed|] == flushed;
  }

  /** Sending a later request alone does not change what happened before. */
  lemma {:induction false} AloneLater<R>(schedule: seq<Event<R>>, n: nat, maxBatchSize: nat, alone: set<nat>,
                                         later: nat)
    requires n <= later && n <= |schedule|
    ensures RunTask(schedule, n, maxBatchSize, true, alone + {later}) == RunTask(schedule, n, maxBatchSize, true, alone)
  {
    if n > 0 {
      AloneLater(schedule, n - 1, maxBatchSize, alone, later);
    }
  }

  /** Which requests are probes: when the next one is due, whether one is out, and the arrivals sent alone. */
  datatype ProbeState = ProbeState(next: nat, inflight: bool, alone: set<nat>)

  /** Event number k: a request that opens a batch is a probe when one is due and none is out. */
  ghost function StepProbe<R>(p: ProbeState, task: TaskState<R>, e: Event<R>, k: nat, interval: nat): ProbeState
    requires interval > 0
  {
    if task.ended then p
    else
      match e
      case Arrive(_, now) =>
        if task.open != [] then p
        else if now < p.next then p
        else ProbeState(LeastAfter(p.next, interval, now), true, if p.inflight then p.alone else p.alone + {k})
      case ProbeFeedback(_, _) => p.(inflight := false)
      case _ => p
  }

  ghost function ProbesOf<R>(schedule: seq<Event<R>>, n: nat, start: nat, interval: nat, maxBatchSize: nat): ProbeState
    requires n <= |schedule| && interval > 0
  {
    if n == 0 then ProbeState(start, false, {})
    else
      var before := ProbesOf(schedule, n - 1, start, interval, maxBatchSize);
      StepProbe(before, RunTask(schedule, n - 1, maxBatchSize, true, before.alone), schedule[n - 1], n - 1, interval)
  }

  /** The clock is where the first n events have brought it. */
  ghost predicate Clocked<R>(clock: ProbeClock, schedule: seq<Event<R>>, n: nat, maxBatchSize: nat, alone: set<nat>)
    requires n <= |schedule|
    reads clock
  {
    && clock.Valid() && clock.heard == HeardOf(schedule, n)
    && ProbesOf(schedule, n, clock.base, clock.interval, maxBatchSize)
       == ProbeState(clock.nextProbeAt, clock.inflight, alone)
  }

  // ---------------------------------------------------------------- the task

  /** The idle select: takes feedback until a request arrives or the task ends. */
  method AwaitFirst<R>(maxBatchSize: nat, clock: ProbeClock, schedule: seq<Event<R>>, from: nat,
                       ghost alone: set<nat>, ghost batches: seq<seq<R>>)
    returns (i: nat, ended: bool)
    requires from <= |schedule| && Clocked(clock, schedule, from, maxBatchSize, alone)
    requires RunTask(schedule, from, maxBatchSize, true, alone) == TaskState(batches, [], false)
    modifies clock`inflight, clock`samples, clock`heard
    ensures from <= i <= |schedule| && Clocked(clock, schedule, i, maxBatchSize, alone)
    ensures RunTask(schedule, i, maxBatchSize, true, alone) == TaskState(batches, [], ended)
    ensures if ended then i > 0 && !RunTask(schedule, i - 1, maxBatchSize, true, alone).ended
            else i < |schedule| ==> schedule[i].Arrive?
  {
    i := from;
    while i < |schedule| && !schedule[i].Arrive?
      invariant from <= i <= |schedule| && Clocked(clock, schedule, i, maxBatchSize, alone)
      invariant RunTask(schedule, i, maxBatchSize, true, alone) == TaskState(batches, [], false)
    {
      i := i + 1;
      match schedule[i - 1] {
        case ProbeFeedback(success, elapsedMs) => clock.Hear(success, elapsedMs);
        case ChannelClosed => return i, true;
        case IdleTimeout => return i, true;
        case _ =>
      }
    }
    return i, false;
  }

  /** The collecting loop: takes arrivals and feedback until the batch is due, full, or cut off. */
  method CollectDuration<R>(maxBatchSize: nat, clock: ProbeClock, schedule: seq<Event<R>>, from: nat, first: R,
                            ghost alone: set<nat>, ghost batches: seq<seq<R>>)
    returns (batch: seq<R>, i: nat, stop: Stop)
    requires maxBatchSize > 0 && from <= |schedule| && Clocked(clock, schedule, from, maxBatchSize, alone)
    requires forall j :: j in alone ==> j < from
    requires RunTask(schedule, from, maxBatchSize, true, alone) == Growing(batches, [first], maxBatchSize)
    modifies clock`inflight, clock`samples, clock`heard
    ensures from <= i <= |schedule| && batch != [] && batch[0] == first
    ensures Clocked(clock, schedule, i, maxBatchSize, alone)
    ensures RunTask(schedule, i, maxBatchSize, true, alone) == Stopped(batches, batch, stop)
    ensures stop.OutOfSchedule? ==> i == |schedule|
    ensures stop.Closed? ==> i > 0 && !RunTask(schedule, i - 1, maxBatchSize, true, alone).ended
  {
    batch, i := [first], from;
    while |batch| < maxBatchSize
      invariant from <= i <= |schedule| && 1 <= |batch| <= maxBatchSize && batch[0] == first
      invariant RunTask(schedule, i, maxBatchSize, true, alone) == Growing(batches, batch, maxBatchSize)
      invariant Clocked(clock, schedule, i, maxBatchSize, alone)
      decreases |schedule| - i
    {
      if i == |schedule| { return batch, i, OutOfSchedule; }
      i := i + 1;
      match schedule[i - 1] {
        case Arrive(req, _) => batch := batch + [req];
        case ProbeFeedback(success, elapsedMs) => clock.Hear(success, elapsedMs);
        case FlushTimer => return batch, i, Flushed;
        case ChannelClosed => return batch, i, Closed;
        case _ =>
      }
    }
    return batch, i, Flushed;
  }

  /** The wait of an ordinary batch that is opened now. */
  method WaitNow(cfg: DurationConfig, clock: ProbeClock) returns (waitMs: nat)
    requires clock.Valid()
    ensures waitMs == WaitAfter(cfg, clock.smoothing, clock.heard)
  {
    var probeMs := 0.0;
    if |clock.samples| >= cfg.warmupProbes { probeMs := SmoothedProbeMs(clock.samples); }
    waitMs := DurationWaitMs(probeMs, cfg.fraction, cfg.minWaitMs, cfg.maxWaitMs);
  }

  /** The batch the arrived request opens: itself alone when a probe is due, an ordinary one otherwise. */
  method FirstBatch<R>(maxBatchSize: nat, cfg: DurationConfig, clock: ProbeClock, schedule: seq<Event<R>>, from: nat,
                       ghost alone: set<nat>, ghost batches: seq<seq<R>>)
    returns (f: Flush<R>, i: nat, stop: Stop, ghost now: set<nat>)
    requires maxBatchSize > 0 && from < |schedule| && schedule[from].Arrive?
    requires Clocked(clock, schedule, from, maxBatchSize, alone)
    requires forall j :: j in alone ==> j < from
    requires RunTask(schedule, from, maxBatchSize, true, alone) == TaskState(batches, [], false)
    modifies clock
    ensures from < i <= |schedule| && now == if f.isProbe then alone + {from} else alone
    ensures Clocked(clock, schedule, i, maxBatchSize, now)
    ensures RunTask(schedule, i, maxBatchSize, true, now) == Stopped(batches, f.batch, stop)
    ensures stop.Closed? ==> !RunTask(schedule, i - 1, maxBatchSize, true, now).ended
    ensures stop.OutOfSchedule? ==> i == |schedule| && !f.isProbe
    ensures FlushOk(cfg, clock.smoothing, schedule, i, now, f)
    ensures clock.probes == old(clock.probes) + if f.isProbe then [f.at] else []
  {
    var first, at := schedule[from].req, schedule[from].now;
    Opens(schedule, from, maxBatchSize, alone, batches);
    var probe := clock.Decide(at);
    assert HeardOf(schedule, from + 1) == HeardOf(schedule, from);
    if probe {
      AloneLater(schedule, from, maxBatchSize, alone, from);
      return Flush([first], cfg.minWaitMs, true, at, from + 1), from + 1, Flushed, alone + {from};
    }
    now := alone;
    var waitMs := WaitNow(cfg, clock);
    var batch;
    batch, i, stop := CollectDuration(maxBatchSize, clock, schedule, from + 1, first, alone, batches);
    f := Flush(batch, waitMs, false, at, from + 1);
  }

  /** Everything the task keeps, n events into its schedule. */
  ghost predicate TaskAt<R>(cfg: DurationConfig, clock: ProbeClock, schedule: seq<Event<R>>, n: nat, maxBatchSize: nat,
                            alone: set<nat>, flushed: seq<Flush<R>>)
    reads clock
  {
    && n <= |schedule| && Clocked(clock, schedule, n, maxBatchSize, alone)
    && (forall j :: j in alone ==> j < n)
    && ProbeTimes(flushed) == clock.probes
    && AllFlushOk(cfg, clock.smoothing, schedule, n, alone, flushed)
  }

  /** A request has arrived with no batch open. */
  method ServeFirst<R>(maxBatchSize: nat, cfg: DurationConfig, clock: ProbeClock, schedule: seq<Event<R>>, from: nat,
                       flushed: seq<Flush<R>>, ghost alone: set<nat>)
    returns (f: Flush<R>, i: nat, stop: Stop, ghost now: set<nat>)
    requires maxBatchSize > 0 && TaskAt(cfg, clock, schedule, from, maxBatchSize, alone, flushed)
    requires from < |schedule| && schedule[from].Arrive?
    requires RunTask(schedule, from, maxBatchSize, true, alone) == TaskState(Batches(flushed), [], false)
    modifies clock
    ensures from < i
    ensures TaskAt(cfg, clock, schedule, i, maxBatchSize, now, if stop.OutOfSchedule? then flushed else flushed + [f])
    ensures RunTask(schedule, i, maxBatchSize, true, now)
         == if stop.OutOfSchedule? then TaskState(Batches(flushed), f.batch, false)
            else TaskState(Batches(flushed + [f]), [], stop.Closed?)
    ensures stop.OutOfSchedule? ==> Follows(schedule, TaskRun(flushed, f.batch, i, false), maxBatchSize, true, now)
    ensures stop.Closed? ==> Follows(schedule, TaskRun(flushed + [f], [], i, true), maxBatchSize, true, now)
  {
    f, i, stop, now := FirstBatch(maxBatchSize, cfg, clock, schedule, from, alone, Batches(flushed));
    StoppedFollows(schedule, i, maxBatchSize, now, flushed, f, stop);
    FlushOkLater(cfg, clock.smoothing, schedule, from, i, alone, now, flushed);
    ProbeTimesNext(flushed, f);
  }

  method AwaitNext<R>(maxBatchSize: nat, cfg: DurationConfig, clock: ProbeClock, schedule: seq<Event<R>>, from: nat,
                      flushed: seq<Flush<R>>, ghost alone: set<nat>)
    returns (i: nat, ended: bool)
    requires TaskAt(cfg, clock, schedule, from, maxBatchSize, alone, flushed)
    requires RunTask(schedule, from, maxBatchSize, true, alone) == TaskState(Batches(flushed), [], false)
    modifies clock`inflight, clock`samples, clock`heard
    ensures from <= i && TaskAt(cfg, clock, schedule, i, maxBatchSize, alone, flushed)
    ensures RunTask(schedule, i, maxBatchSize, true, alone) == TaskState(Batches(flushed), [], ended)
    ensures ended || i == |schedule| ==> Follows(schedule, TaskRun(flushed, [], i, ended), maxBatchSize, true, alone)
    ensures !ended && i < |schedule| ==> schedule[i].Arrive?
  {
    i, ended := AwaitFirst(maxBatchSize, clock, schedule, from, alone, Batches(flushed));
    FlushOkLater(cfg, clock.smoothing, schedule, from, i, alone, alone, flushed);
    IdleFollows(schedule, i, maxBatchSize, alone, flushed, ended);
  }

  /**
   The task, on every schedule of events, with any feedback at any time. It does what RunTask and ProbesOf
   say; no two of its probes fall into the same cell of the grid (clock.Valid); and every other batch waits
   as the last successful probes heard of when it was opened say.
   */
  method BatcherTaskDuration<R>(maxBatchSize: nat, cfg: DurationConfig, clock: ProbeClock, schedule: seq<Event<R>>)
    returns (run: TaskRun<R>, ghost alone: set<nat>)
    requires maxBatchSize > 0 && clock.Valid()
    requires clock.probes == [] && clock.heard == [] && clock.nextProbeAt == clock.base && !clock.inflight
    modifies clock
    ensures Follows(schedule, run, maxBatchSize, true, alone)
    ensures TaskAt(cfg, clock, schedule, run.used, maxBatchSize, alone, run.flushed)
  {
    var flushed: seq<Flush<R>>, i: nat, ended := [], 0, false;
    alone := {};
    while !ended && i < |schedule|
      invariant TaskAt(cfg, clock, schedule, i, maxBatchSize, alone, flushed)
      invariant RunTask(schedule, i, maxBatchSize, true, alone) == TaskState(Batches(flushed), [], ended)
      invariant ended ==> Follows(schedule, TaskRun(flushed, [], i, true), maxBatchSize, true, alone)
      decreases !ended, |schedule| - i
    {
      i, ended := AwaitNext(maxBatchSize, cfg, clock, schedule, i, flushed, alone);
      if !ended && i < |schedule| {
        var f, stop;
        f, i, stop, alone := ServeFirst(maxBatchSize, cfg, clock, schedule, i, flushed, alone);
        if stop.OutOfSchedule? {
          return TaskRun(flushed, f.batch, i, false), alone;
        }
        flushed := flushed + [f];
        ended := stop.Closed?;
      }
    }
    return TaskRun(flushed, [], i, ended), alone;
  }

  // ---------------------------------------------------------------- the probe protocol

  /** The task has not ended before event number n. */
  ghost predicate Lives<R>(schedule: seq<Event<R>>, n: nat, start: nat, interval: nat, maxBatchSize: nat)
    requires n <= |schedule| && interval > 0
  {
    n == 0 || !RunTask(schedule, n - 1, maxBatchSize, true,
                       ProbesOf(schedule, n - 1, start, interval, maxBatchSize).alone).ended
  }

  lemma {:induction false} AloneIsPast<R>(schedule: seq<Event<R>>, n: nat, start: nat, interval: nat, maxBatchSize: nat)
    requires n <= |schedule| && interval > 0
    ensures forall j :: j in ProbesOf(schedule, n, start, interval, maxBatchSize).alone ==> j < n
  {
    if n > 0 {
      AloneIsPast(schedule, n - 1, start, interval, maxBatchSize);
    }
  }

  /** Whatever feedback comes, there is at most one probe more than feedback, and then one is out. */
  lemma {:induction false} NextProbeNeedsFeedback<R>(schedule: seq<Event<R>>, n: nat, start: nat, interval: nat,
                                                     maxBatchSize: nat)
    requires n <= |schedule| && interval > 0
    ensures var p := ProbesOf(schedule, n, start, interval, maxBatchSize);
            |p.alone| <= |HeardOf(schedule, n)| + if p.inflight then 1 else 0
  {
    if n > 0 {
      NextProbeNeedsFeedback(schedule, n - 1, start, interval, maxBatchSize);
      AloneIsPast(schedule, n - 1, start, interval, maxBatchSize);
    }
  }

  /** Feedback never runs ahead of the probes: of each probe flushed, it comes at most once, and later. */
  ghost predicate FeedbackOfProbes<R>(schedule: seq<Event<R>>, n: nat, start: nat, interval: nat, maxBatchSize: nat)
    requires n <= |schedule| && interval > 0
  {
    forall m :: 0 <= m <= n ==>
      |HeardOf(schedule, m)| <= |ProbesOf(schedule, m, start, interval, maxBatchSize).alone|
  }

  /**
   Main result: as long as feedback never runs ahead of the probes - which every run of the pipeline
   guarantees, see ProbeSchedule - a probe is out exactly while one more has been sent than was heard of,
   and feedback only comes while its probe is out.
   */
  lemma {:induction false} OneProbeOut<R>(schedule: seq<Event<R>>, n: nat, start: nat, interval: nat, maxBatchSize: nat)
    requires n <= |schedule| && interval > 0
    requires FeedbackOfProbes(schedule, n, start, interval, maxBatchSize)
    requires Lives(schedule, n, start, interval, maxBatchSize)
    ensures var p := ProbesOf(schedule, n, start, interval, maxBatchSize);
            |p.alone| == |HeardOf(schedule, n)| + if p.inflight then 1 else 0
    ensures n > 0 && schedule[n - 1].ProbeFeedback? ==>
              ProbesOf(schedule, n - 1, start, interval, maxBatchSize).inflight
  {
    if n > 0 {
      LivedBefore(schedule, n, start, interval, maxBatchSize);
      OneProbeOut(schedule, n - 1, start, interval, maxBatchSize);
      AloneIsPast(schedule, n - 1, start, interval, maxBatchSize);
      assert |HeardOf(schedule, n)| <= |ProbesOf(schedule, n, start, interval, maxBatchSize).alone|;
    }
  }

  lemma LivedBefore<R>(schedule: seq<Event<R>>, n: nat, start: nat, interval: nat, maxBatchSize: nat)
    requires 0 < n <= |schedule| && interval > 0 && Lives(schedule, n, start, interval, maxBatchSize)
    ensures Lives(schedule, n - 1, start, interval, maxBatchSize)
  {
    if n > 1 {
      var before := ProbesOf(schedule, n - 2, start, interval, maxBatchSize);
      var alone := ProbesOf(schedule, n - 1, start, interval, maxBatchSize).alone;
      AloneIsPast(schedule, n - 2, start, interval, maxBatchSize);
      if alone != before.alone {
        assert alone == before.alone + {n - 2};
        AloneLater(schedule, n - 2, maxBatchSize, before.alone, n - 2);
      }
    }
  }

  /** Main result: a probe that is not heard of is the last, however many requests still arrive. */
  lemma {:induction false} UnheardProbeIsTheLast<R>(schedule: seq<Event<R>>, n: nat, m: nat, start: nat, interval: nat,
                                                    maxBatchSize: nat)
    requires n <= m <= |schedule| && interval > 0
    requires ProbesOf(schedule, n, start, interval, maxBatchSize).inflight
    requires |HeardOf(schedule, m)| == |HeardOf(schedule, n)|
    ensures ProbesOf(schedule, m, start, interval, maxBatchSize).inflight
    ensures ProbesOf(schedule, m, start, interval, maxBatchSize).alone
         == ProbesOf(schedule, n, start, interval, maxBatchSize).alone
    decreases m
  {
    if n < m {
      HeardGrows(schedule, n, m - 1);
      UnheardProbeIsTheLast(schedule, n, m - 1, start, interval, maxBatchSize);
    }
  }

  lemma {:induction false} HeardGrows<R>(schedule: seq<Event<R>>, n: nat, m: nat)
    requires n <= m <= |schedule|
    ensures |HeardOf(schedule, n)| <= |HeardOf(schedule, m)|
    decreases m
  {
    if n < m {
      HeardGrows(schedule, n, m - 1);
    }
  }
}
