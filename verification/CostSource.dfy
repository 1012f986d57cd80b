/**
 Durations and batch sizes of one endpoint, paired first with first as they arrive. A request's cost is
 its duration divided by the size of the batch it is paired with; unpaired durations count in full.
 */
module CostSource {
  import opened Prelude

  datatype Duration = Duration(ms: real, stage: Option<nat>)

  /** The cost of the i-th duration. */
  ghost function CostAt(durations: seq<Duration>, sizes: seq<real>, i: nat): real
    requires i < |durations|
  {
    if i < |sizes| && sizes[i] > 0.0 then durations[i].ms / sizes[i] else durations[i].ms
  }

  /** The cost of the first n durations. */
  ghost function Total(durations: seq<Duration>, sizes: seq<real>, n: nat): real
    requires n <= |durations|
  {
    if n == 0 then 0.0 else Total(durations, sizes, n - 1) + CostAt(durations, sizes, n - 1)
  }

  /** The same, of those in one stage only. */
  ghost function StageTotal(durations: seq<Duration>, sizes: seq<real>, stage: nat, n: nat): real
    requires n <= |durations|
  {
    if n == 0 then 0.0
    else StageTotal(durations, sizes, stage, n - 1)
         + if durations[n - 1].stage == Some(stage) then CostAt(durations, sizes, n - 1) else 0.0
  }

  function At(costs: map<nat, real>, stage: nat): real {
    if stage in costs then costs[stage] else 0.0
  }

  /** What is paired already does not depend on what arrives later. */
  lemma {:induction false} LaterArrivals(durations: seq<Duration>, sizes: seq<real>, more: seq<Duration>,
                                         moreSizes: seq<real>, stage: nat, n: nat)
    requires n <= |durations| && n <= |sizes|
    ensures Total(durations + more, sizes + moreSizes, n) == Total(durations, sizes, n)
    ensures StageTotal(durations + more, sizes + moreSizes, stage, n) == StageTotal(durations, sizes, stage, n)
  {
    if n > 0 {
      LaterArrivals(durations, sizes, more, moreSizes, stage, n - 1);
      assert CostAt(durations + more, sizes + moreSizes, n - 1) == CostAt(durations, sizes, n - 1);
    }
  }

  class SourceState {
    var pendingDurations: seq<Duration>
    var pendingBatchSizes: seq<real>
    var total: real
    var stageTotals: map<nat, real>
    var durationCount: nat
    ghost var durations: seq<Duration>
    ghost var sizes: seq<real>

    /** The first p durations are charged; the others, and the sizes from p on, still wait. */
    ghost predicate ChargedUpTo(p: nat)
      reads this
    {
      && p <= |durations|
      && (p < |sizes| ==> pendingBatchSizes == sizes[p..])
      && (p >= |sizes| ==> pendingBatchSizes == [])
      && pendingDurations == durations[p..]
      && total == Total(durations, sizes, p)
      && (forall s: nat :: At(stageTotals, s) == StageTotal(durations, sizes, s, p))
      && durationCount == |durations|
      && (forall k :: 0 <= k < |sizes| ==> sizes[k] > 0.0)
    }

    /** Everything that can be paired is. */
    ghost predicate Valid()
      reads this
    {
      ChargedUpTo(if |durations| <= |sizes| then |durations| else |sizes|)
    }

    ghost predicate Flushed()
      reads this
    {
      ChargedUpTo(|durations|)
    }

    constructor ()
      ensures Valid() && durations == [] && sizes == []
    {
      pendingDurations, pendingBatchSizes, total, stageTotals, durationCount := [], [], 0.0, map[], 0;
      durations, sizes := [], [];
    }

    /** Charges the next duration, for the batch size that is paired with it or 1 if there is none. */
    method Charge(duration: Duration, batchSize: real, ghost p: nat)
      requires p < |durations| && duration == durations[p]
      requires batchSize == if p < |sizes| then sizes[p] else 1.0
      requires forall k :: 0 <= k < |sizes| ==> sizes[k] > 0.0
      requires total == Total(durations, sizes, p)
      requires forall s: nat :: At(stageTotals, s) == StageTotal(durations, sizes, s, p)
      modifies this`total, this`stageTotals
      ensures total == Total(durations, sizes, p + 1)
      ensures forall s: nat :: At(stageTotals, s) == StageTotal(durations, sizes, s, p + 1)
    {
      var safeBatch := if batchSize > 0.0 then batchSize else 1.0;
      var cost := duration.ms / safeBatch;
      assert cost == CostAt(durations, sizes, p);
      total := total + cost;
      if duration.stage.Some? {
        var stage := duration.stage.value;
        stageTotals := stageTotals[stage := At(stageTotals, stage) + cost];
      }
    }

    method PairPending(ghost start: nat)
      requires start <= |sizes| && ChargedUpTo(start)
      modifies this`pendingDurations, this`pendingBatchSizes, this`total, this`stageTotals
      ensures Valid()
    {
      ghost var p: nat := start;
      while |pendingDurations| > 0 && |pendingBatchSizes| > 0
        invariant p <= |sizes| && ChargedUpTo(p)
        decreases |pendingDurations|
      {
        var duration, batchSize := pendingDurations[0], pendingBatchSizes[0];
        pendingDurations, pendingBatchSizes := pendingDurations[1..], pendingBatchSizes[1..];
        Charge(duration, batchSize, p);
        p := p + 1;
      }
    }

    method AddDuration(duration: Duration)
      requires Valid()
      modifies this
      ensures Valid() && durations == old(durations) + [duration] && sizes == old(sizes)
    {
      ghost var p: nat := if |durations| <= |sizes| then |durations| else |sizes|;
      forall s: nat ensures StageTotal(durations + [duration], sizes, s, p) == StageTotal(durations, sizes, s, p)
      {
        LaterArrivals(durations, sizes, [duration], [], s, p);
        assert sizes + [] == sizes;
      }
      LaterArrivals(durations, sizes, [duration], [], 0, p);
      assert sizes + [] == sizes;
      durationCount := durationCount + 1;
      assert (durations + [duration])[p..] == durations[p..] + [duration];
      pendingDurations := pendingDurations + [duration];
      durations := durations + [duration];
      PairPending(p);
    }

    method AddBatchSize(batchSize: real)
      requires Valid() && batchSize > 0.0
      modifies this
      ensures Valid() && durations == old(durations) && sizes == old(sizes) + [batchSize]
    {
      ghost var p: nat := if |durations| <= |sizes| then |durations| else |sizes|;
      forall s: nat ensures StageTotal(durations, sizes + [batchSize], s, p) == StageTotal(durations, sizes, s, p)
      {
        LaterArrivals(durations, sizes, [], [batchSize], s, p);
        assert durations + [] == durations;
      }
      LaterArrivals(durations, sizes, [], [batchSize], 0, p);
      assert durations + [] == durations;
      assert (sizes + [batchSize])[p..] == sizes[p..] + [batchSize];
      pendingBatchSizes := pendingBatchSizes + [batchSize];
      sizes := sizes + [batchSize];
      PairPending(p);
    }

    /** At the end of the data, the durations without a batch size count in full. */
    method ChargeLeftovers()
      requires Valid()
      modifies this
      ensures Flushed() && durations == old(durations) && sizes == old(sizes)
    {
      ghost var p: nat := if |durations| <= |sizes| then |durations| else |sizes|;
      while |pendingDurations| > 0
        invariant ChargedUpTo(p) && (pendingDurations != [] ==> |sizes| <= p)
        invariant durations == old(durations) && sizes == old(sizes)
        decreases |pendingDurations|
      {
        var duration := pendingDurations[0];
        pendingDurations := pendingDurations[1..];
        Charge(duration, 1.0, p);
        p := p + 1;
      }
    }
  }
}
