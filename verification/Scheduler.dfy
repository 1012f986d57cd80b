/**
 The per-key batching tasks. What a task waits for next is decided by the outside world, so a run is
 given by its schedule: the events in the order in which the task's selects see them. Events a select
 does not listen to cannot be seen there and are passed over.
 */
module Scheduler {
  import opened WaitPolicy

  datatype Event<R> =
    | Arrive(req: R, now: nat)
    | ChannelClosed
    | IdleTimeout
    | FlushTimer
    | SamplerTick
    | ProbeFeedback(success: bool, elapsedMs: nat)

  /** A flushed batch, when it was opened, and how many events or probe answers were known by then. */
  datatype Flush<R> = Flush(batch: seq<R>, waitMs: nat, isProbe: bool, at: nat, known: nat)

  /** A run up to the end of its schedule, or up to the task's end. */
  datatype TaskRun<R> = TaskRun(flushed: seq<Flush<R>>, open: seq<R>, used: nat, ended: bool)

  // ---------------------------------------------------------------- what a task does with its events

  datatype TaskState<R> = TaskState(batches: seq<seq<R>>, open: seq<R>, ended: bool)

  /**
   One event. A batch is flushed when it is full, when its timer fires, or when the channel closes; an
   idle task ends when the channel closes or nothing comes for too long. `closes` tells whether closing
   the channel on an open batch ends the task at once; a request that is `alone` is not joined by others.
   */
  ghost function StepTask<R>(s: TaskState<R>, e: Event<R>, maxBatchSize: nat, closes: bool, alone: bool): TaskState<R> {
    if s.ended then s
    else
      match e
      case Arrive(req, _) =>
        var batch := s.open + [req];
        if alone || |batch| >= maxBatchSize then TaskState(s.batches + [batch], [], false) else s.(open := batch)
      case FlushTimer => if s.open == [] then s else TaskState(s.batches + [s.open], [], false)
      case ChannelClosed =>
        if s.open == [] then s.(ended := true) else TaskState(s.batches + [s.open], [], closes)
      case IdleTimeout => if s.open == [] then s.(ended := true) else s
      case _ => s
  }

  /** The first n events; `alone` holds the numbers of those that bring a request to be sent alone. */
  ghost function RunTask<R>(schedule: seq<Event<R>>, n: nat, maxBatchSize: nat, closes: bool,
                            alone: set<nat>): TaskState<R>
    requires n <= |schedule|
  {
    if n == 0 then TaskState([], [], false)
    else
      var before := RunTask(schedule, n - 1, maxBatchSize, closes, alone);
      StepTask(before, schedule[n - 1], maxBatchSize, closes, n - 1 in alone)
  }

  ghost function Batches<R>(flushed: seq<Flush<R>>): seq<seq<R>> {
    seq(|flushed|, k requires 0 <= k < |flushed| => flushed[k].batch)
  }

  /** The run is what the events make of it, up to the end of the schedule or of the task. */
  ghost predicate Follows<R>(schedule: seq<Event<R>>, run: TaskRun<R>, maxBatchSize: nat, closes: bool,
                             alone: set<nat>) {
    && run.used <= |schedule|
    && RunTask(schedule, run.used, maxBatchSize, closes, alone) == TaskState(Batches(run.flushed), run.open, run.ended)
    && (if run.ended then run.used > 0 && !RunTask(schedule, run.used - 1, maxBatchSize, closes, alone).ended
        else run.used == |schedule|)
  }

  /** A batch that may have just been filled. */
  ghost function Growing<R>(batches: seq<seq<R>>, batch: seq<R>, maxBatchSize: nat): TaskState<R> {
    if |batch| < maxBatchSize then TaskState(batches, batch, false) else TaskState(batches + [batch], [], false)
  }

  lemma BatchesNext<R>(flushed: seq<Flush<R>>, f: Flush<R>)
    ensures Batches(flushed + [f]) == Batches(flushed) + [f.batch]
  {
  }

  // ---------------------------------------------------------------- no request is lost or moved

  /** The requests among the first n events. */
  ghost function Received<R>(schedule: seq<Event<R>>, n: nat): seq<R>
    requires n <= |schedule|
  {
    if n == 0 then []
    else Received(schedule, n - 1) + if schedule[n - 1].Arrive? then [schedule[n - 1].req] else []
  }

  ghost function Joined<R>(batches: seq<seq<R>>): seq<R> {
    if batches == [] then [] else Joined(batches[..|batches| - 1]) + batches[|batches| - 1]
  }

  /** The flushed batches and the open one are the received requests, in order, in pieces of the right size. */
  ghost predicate Partitioned<R>(schedule: seq<Event<R>>, run: TaskRun<R>, maxBatchSize: nat) {
    && run.used <= |schedule|
    && Joined(Batches(run.flushed)) + run.open == Received(schedule, run.used)
    && (forall k :: 0 <= k < |run.flushed| ==> 1 <= |run.flushed[k].batch| <= maxBatchSize)
    && |run.open| < maxBatchSize
  }

  ghost predicate Pieces<R>(s: TaskState<R>, received: seq<R>, maxBatchSize: nat) {
    && Joined(s.batches) + s.open == received
    && (forall k :: 0 <= k < |s.batches| ==> 1 <= |s.batches[k]| <= maxBatchSize)
    && |s.open| < maxBatchSize
  }

  lemma JoinedNext<R>(batches: seq<seq<R>>, batch: seq<R>)
    ensures Joined(batches + [batch]) == Joined(batches) + batch
  {
    assert (batches + [batch])[..|batches|] == batches;
  }

  lemma FlushPieces<R>(batches: seq<seq<R>>, batch: seq<R>, ended: bool, received: seq<R>, maxBatchSize: nat)
    requires Joined(batches) + batch == received && 1 <= |batch| <= maxBatchSize
    requires forall k :: 0 <= k < |batches| ==> 1 <= |batches[k]| <= maxBatchSize
    ensures Pieces(TaskState(batches + [batch], [], ended), received, maxBatchSize)
  {
    JoinedNext(batches, batch);
    assert received + [] == received;
  }

  lemma StepPieces<R>(s: TaskState<R>, e: Event<R>, received: seq<R>, maxBatchSize: nat, closes: bool, alone: bool)
    requires maxBatchSize > 0 && Pieces(s, received, maxBatchSize) && !s.ended
    ensures Pieces(StepTask(s, e, maxBatchSize, closes, alone),
                   received + if e.Arrive? then [e.req] else [], maxBatchSize)
  {
    var s' := StepTask(s, e, maxBatchSize, closes, alone);
    if e.Arrive? {
      var batch := s.open + [e.req];
      assert Joined(s.batches) + batch == received + [e.req];
      if s'.open == [] { FlushPieces(s.batches, batch, false, received + [e.req], maxBatchSize); }
    } else {
      assert received + [] == received;
      if s'.batches != s.batches { FlushPieces(s.batches, s.open, s'.ended, received, maxBatchSize); }
    }
  }

  lemma {:induction false} RunPieces<R>(schedule: seq<Event<R>>, n: nat, maxBatchSize: nat, closes: bool,
                                        alone: set<nat>)
    requires maxBatchSize > 0 && n <= |schedule|
    ensures n == 0 || !RunTask(schedule, n - 1, maxBatchSize, closes, alone).ended ==>
              Pieces(RunTask(schedule, n, maxBatchSize, closes, alone), Received(schedule, n), maxBatchSize)
  {
    if n > 0 {
      RunPieces(schedule, n - 1, maxBatchSize, closes, alone);
      var before := RunTask(schedule, n - 1, maxBatchSize, closes, alone);
      if !before.ended {
        StepPieces(before, schedule[n - 1], Received(schedule, n - 1), maxBatchSize, closes, n - 1 in alone);
      }
    }
  }

  /**
   Main result: whatever the schedule and whichever the wait policy, the flushed batches are the
   received requests in order, cut into pieces of at least one and at most the maximal size.
   */
  lemma FollowsPartitions<R>(schedule: seq<Event<R>>, run: TaskRun<R>, maxBatchSize: nat, closes: bool, alone: set<nat>)
    requires maxBatchSize > 0 && Follows(schedule, run, maxBatchSize, closes, alone)
    ensures Partitioned(schedule, run, maxBatchSize)
  {
    var n := run.used;
    RunPieces(schedule, n, maxBatchSize, closes, alone);
    assert forall k :: 0 <= k < |run.flushed| ==> Batches(run.flushed)[k] == run.flushed[k].batch;
  }

  // ---------------------------------------------------------------- fixed wait

  method BatcherTaskFixed<R>(maxWaitMs: nat, maxBatchSize: nat, schedule: seq<Event<R>>) returns (run: TaskRun<R>)
    requires maxBatchSize > 0
    ensures Follows(schedule, run, maxBatchSize, false, {})
    ensures forall k :: 0 <= k < |run.flushed| ==> !run.flushed[k].isProbe && run.flushed[k].waitMs == maxWaitMs
  {
    var flushed: seq<Flush<R>> := [];
    var i := 0;
    while true
      invariant i <= |schedule|
      invariant RunTask(schedule, i, maxBatchSize, false, {}) == TaskState(Batches(flushed), [], false)
      invariant forall k :: 0 <= k < |flushed| ==> !flushed[k].isProbe && flushed[k].waitMs == maxWaitMs
      decreases |schedule| - i
    {
      while i < |schedule| && !schedule[i].Arrive?
        invariant i <= |schedule|
        invariant RunTask(schedule, i, maxBatchSize, false, {}) == TaskState(Batches(flushed), [], false)
      {
        i := i + 1;
        if schedule[i - 1].ChannelClosed? || schedule[i - 1].IdleTimeout? {
          return TaskRun(flushed, [], i, true);
        }
      }
      if i == |schedule| {
        return TaskRun(flushed, [], i, false);
      }
      var batch, at := [schedule[i].req], schedule[i].now;
      i := i + 1;
      assert [] + batch == batch;
      while |batch| < maxBatchSize
        invariant i <= |schedule| && 1 <= |batch| <= maxBatchSize
        invariant RunTask(schedule, i, maxBatchSize, false, {}) == Growing(Batches(flushed), batch, maxBatchSize)
        decreases |schedule| - i
      {
        if i == |schedule| {
          return TaskRun(flushed, batch, i, false);
        }
        i := i + 1;
        if schedule[i - 1].Arrive? {
          batch := batch + [schedule[i - 1].req];
        } else if schedule[i - 1].FlushTimer? || schedule[i - 1].ChannelClosed? {
          break;
        }
      }
      var f := Flush(batch, maxWaitMs, false, at, 0);
      BatchesNext(flushed, f);
      flushed := flushed + [f];
    }
  }

  // ---------------------------------------------------------------- wait by request rate

  /** Why a batch stopped growing. */
  datatype Stop = Flushed | Closed | OutOfSchedule

  /** The state in which a collecting loop leaves the task. */
  ghost function Stopped<R>(batches: seq<seq<R>>, batch: seq<R>, stop: Stop): TaskState<R> {
    match stop
    case Flushed => TaskState(batches + [batch], [], false)
    case Closed => TaskState(batches + [batch], [], true)
    case OutOfSchedule => TaskState(batches, batch, false)
  }

  /** Requests per interval between ticks: the completed intervals, and the one that is running. */
  datatype Intervals = Intervals(done: seq<nat>, running: nat)

  ghost function IntervalsOf<R>(schedule: seq<Event<R>>, n: nat): Intervals
    requires n <= |schedule|
  {
    if n == 0 then Intervals([], 0)
    else
      var before := IntervalsOf(schedule, n - 1);
      match schedule[n - 1]
      case Arrive(_, _) => before.(running := before.running + 1)
      case SamplerTick => Intervals(before.done + [before.running], 0)
      case _ => before
  }

  /** The estimator has counted exactly the first n events. */
  ghost predicate Counted<R>(est: DynamicRateEstimator, schedule: seq<Event<R>>, n: nat)
    requires n <= |schedule|
    reads est
  {
    est.Valid() && Intervals(est.counts, est.count) == IntervalsOf(schedule, n)
  }

  /** The request rate after the first n events: the mean over the last complete intervals. */
  ghost function RateAfter<R>(schedule: seq<Event<R>>, n: nat, secs: real, windowSize: nat): real
    requires n <= |schedule| && secs > 0.0
  {
    Mean(LastOf(Rates(IntervalsOf(schedule, n).done, secs), windowSize))
  }

  /** The batch was opened by the event before `known`, and waits as the rate known by then says. */
  ghost predicate WaitsByRate<R>(schedule: seq<Event<R>>, f: Flush<R>, secs: real, windowSize: nat, policy: real -> nat)
    requires secs > 0.0
  {
    && 0 < f.known <= |schedule|
    && f.batch != [] && schedule[f.known - 1] == Arrive(f.batch[0], f.at)
    && f.waitMs == policy(RateAfter(schedule, f.known, secs, windowSize)) && !f.isProbe
  }

  ghost predicate AllWaitByRate<R>(schedule: seq<Event<R>>, flushed: seq<Flush<R>>, secs: real, windowSize: nat,
                                   policy: real -> nat)
    requires secs > 0.0
  {
    forall k :: 0 <= k < |flushed| ==> WaitsByRate(schedule, flushed[k], secs, windowSize, policy)
  }

  /** The idle select: counts ticks until a request arrives or the task ends. */
  method AwaitDynamic<R>(maxBatchSize: nat, est: DynamicRateEstimator, schedule: seq<Event<R>>, from: nat,
                         ghost batches: seq<seq<R>>)
    returns (i: nat, ended: bool)
    requires from <= |schedule| && Counted(est, schedule, from)
    requires RunTask(schedule, from, maxBatchSize, true, {}) == TaskState(batches, [], false)
    modifies est
    ensures from <= i <= |schedule| && Counted(est, schedule, i)
    ensures RunTask(schedule, i, maxBatchSize, true, {}) == TaskState(batches, [], ended)
    ensures if ended then i > 0 && !RunTask(schedule, i - 1, maxBatchSize, true, {}).ended
            else i < |schedule| ==> schedule[i].Arrive?
  {
    i := from;
    while i < |schedule| && !schedule[i].Arrive?
      invariant from <= i <= |schedule| && Counted(est, schedule, i)
      invariant RunTask(schedule, i, maxBatchSize, true, {}) == TaskState(batches, [], false)
    {
      i := i + 1;
      match schedule[i - 1] {
        case ChannelClosed => return i, true;
        case IdleTimeout => return i, true;
        case SamplerTick => est.Tick();
        case _ =>
      }
    }
    return i, false;
  }

  lemma StoppedFollows<R>(schedule: seq<Event<R>>, i: nat, maxBatchSize: nat, alone: set<nat>, flushed: seq<Flush<R>>,
                          f: Flush<R>, stop: Stop)
    requires 0 < i <= |schedule|
    requires RunTask(schedule, i, maxBatchSize, true, alone) == Stopped(Batches(flushed), f.batch, stop)
    requires stop.OutOfSchedule? ==> i == |schedule|
    requires stop.Closed? ==> !RunTask(schedule, i - 1, maxBatchSize, true, alone).ended
    ensures stop.OutOfSchedule? ==> Follows(schedule, TaskRun(flushed, f.batch, i, false), maxBatchSize, true, alone)
    ensures stop.Closed? ==> Follows(schedule, TaskRun(flushed + [f], [], i, true), maxBatchSize, true, alone)
    ensures !stop.OutOfSchedule? ==>
              RunTask(schedule, i, maxBatchSize, true, alone) == TaskState(Batches(flushed + [f]), [], stop.Closed?)
  {
    BatchesNext(flushed, f);
  }

  lemma IdleFollows<R>(schedule: seq<Event<R>>, i: nat, maxBatchSize: nat, alone: set<nat>, flushed: seq<Flush<R>>,
                       ended: bool)
    requires i <= |schedule|
    requires RunTask(schedule, i, maxBatchSize, true, alone) == TaskState(Batches(flushed), [], ended)
    requires ended ==> i > 0 && !RunTask(schedule, i - 1, maxBatchSize, true, alone).ended
    ensures ended || i == |schedule| ==> Follows(schedule, TaskRun(flushed, [], i, ended), maxBatchSize, true, alone)
  {
  }

  lemma Opens<R>(schedule: seq<Event<R>>, from: nat, maxBatchSize: nat, alone: set<nat>, batches: seq<seq<R>>)
    requires from < |schedule| && schedule[from].Arrive? && from !in alone
    requires RunTask(schedule, from, maxBatchSize, true, alone) == TaskState(batches, [], false)
    ensures RunTask(schedule, from + 1, maxBatchSize, true, alone)
        == Growing(batches, [schedule[from].req], maxBatchSize)
  {
    assert [] + [schedule[from].req] == [schedule[from].req];
  }

  /** The collecting loop: takes arrivals and ticks until the batch is due, full, or cut off. */
  method CollectDynamic<R>(maxBatchSize: nat, est: DynamicRateEstimator, schedule: seq<Event<R>>, from: nat, first: R,
                           ghost batches: seq<seq<R>>)
    returns (batch: seq<R>, i: nat, stop: Stop)
    requires maxBatchSize > 0 && from <= |schedule| && Counted(est, schedule, from)
    requires RunTask(schedule, from, maxBatchSize, true, {}) == Growing(batches, [first], maxBatchSize)
    modifies est
    ensures from <= i <= |schedule| && batch != [] && batch[0] == first && Counted(est, schedule, i)
    ensures RunTask(schedule, i, maxBatchSize, true, {}) == Stopped(batches, batch, stop)
    ensures stop.OutOfSchedule? ==> i == |schedule|
    ensures stop.Closed? ==> i > 0 && !RunTask(schedule, i - 1, maxBatchSize, true, {}).ended
  {
    batch, i := [first], from;
    while |batch| < maxBatchSize
      invariant from <= i <= |schedule| && 1 <= |batch| <= maxBatchSize && batch[0] == first
      invariant Counted(est, schedule, i)
      invariant RunTask(schedule, i, maxBatchSize, true, {}) == Growing(batches, batch, maxBatchSize)
      decreases |schedule| - i
    {
      if i == |schedule| { return batch, i, OutOfSchedule; }
      i := i + 1;
      match schedule[i - 1] {
        case Arrive(req, _) =>
          est.RecordRequest();
          batch := batch + [req];
        case SamplerTick => est.Tick();
        case FlushTimer => return batch, i, Flushed;
        case ChannelClosed => return batch, i, Closed;
        case _ =>
      }
    }
    return batch, i, Flushed;
  }

  /** Counts the arrival that opens a batch, and reads off the rate that its wait is based on. */
  method RateAtArrival<R>(est: DynamicRateEstimator, schedule: seq<Event<R>>, from: nat) returns (rps: real)
    requires from < |schedule| && schedule[from].Arrive? && Counted(est, schedule, from)
    modifies est
    ensures Counted(est, schedule, from + 1)
    ensures rps == RateAfter(schedule, from + 1, est.secs, est.windowSize)
  {
    est.RecordRequest();
    rps := est.SmoothedRps();
  }

  /** One batch, opened by the arrival at `from`. */
  method BatchDynamic<R>(maxBatchSize: nat, policy: real -> nat, est: DynamicRateEstimator, schedule: seq<Event<R>>,
                         from: nat, ghost batches: seq<seq<R>>)
    returns (f: Flush<R>, i: nat, stop: Stop)
    requires maxBatchSize > 0 && from < |schedule| && schedule[from].Arrive? && Counted(est, schedule, from)
    requires RunTask(schedule, from, maxBatchSize, true, {}) == TaskState(batches, [], false)
    modifies est
    ensures from < i <= |schedule| && Counted(est, schedule, i)
    ensures RunTask(schedule, i, maxBatchSize, true, {}) == Stopped(batches, f.batch, stop)
    ensures stop.OutOfSchedule? ==> i == |schedule|
    ensures stop.Closed? ==> !RunTask(schedule, i - 1, maxBatchSize, true, {}).ended
    ensures WaitsByRate(schedule, f, est.secs, est.windowSize, policy)
  {
    Opens(schedule, from, maxBatchSize, {}, batches);
    var first, at := schedule[from].req, schedule[from].now;
    var rps := RateAtArrival(est, schedule, from);
    var batch;
    batch, i, stop := CollectDynamic(maxBatchSize, est, schedule, from + 1, first, batches);
    f := Flush(batch, policy(rps), false, at, from + 1);
  }

  /** The task; every batch waits by the rate of the requests received before it was opened. */
  method BatcherTaskDynamic<R>(maxBatchSize: nat, policy: real -> nat, est: DynamicRateEstimator,
                               schedule: seq<Event<R>>)
    returns (run: TaskRun<R>)
    requires maxBatchSize > 0
    requires Counted(est, schedule, 0)
    modifies est
    ensures Follows(schedule, run, maxBatchSize, true, {})
    ensures Counted(est, schedule, run.used)
    ensures AllWaitByRate(schedule, run.flushed, est.secs, est.windowSize, policy)
  {
    var flushed: seq<Flush<R>>, i: nat, ended := [], 0, false;
    while !ended && i < |schedule|
      invariant i <= |schedule| && Counted(est, schedule, i)
      invariant RunTask(schedule, i, maxBatchSize, true, {}) == TaskState(Batches(flushed), [], ended)
      invariant ended ==> Follows(schedule, TaskRun(flushed, [], i, true), maxBatchSize, true, {})
      invariant AllWaitByRate(schedule, flushed, est.secs, est.windowSize, policy)
      decreases !ended, |schedule| - i
    {
      i, ended := AwaitDynamic(maxBatchSize, est, schedule, i, Batches(flushed));
      IdleFollows(schedule, i, maxBatchSize, {}, flushed, ended);
      if !ended && i < |schedule| {
        var f, stop;
        f, i, stop := BatchDynamic(maxBatchSize, policy, est, schedule, i, Batches(flushed));
        StoppedFollows(schedule, i, maxBatchSize, {}, flushed, f, stop);
        if stop.OutOfSchedule? {
          return TaskRun(flushed, f.batch, i, false);
        }
        flushed := flushed + [f];
        ended := stop.Closed?;
      }
    }
    return TaskRun(flushed, [], i, ended);
  }
}
