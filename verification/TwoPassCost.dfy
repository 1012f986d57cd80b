/**
 The duration cost in two passes over loaded records: first the metric of every endpoint is chosen, then
 its durations are paired with its batch sizes.
 */
module TwoPassCost {
  import opened Prelude
  import opened StageWindows
  import opened CostSource
  import opened DurationCost

  datatype DurationCounts = DurationCounts(http: nat, target: nat)

  ghost function SpecCounts(records: seq<Row>, n: nat, endpoint: string, clock: Clock): DurationCounts
    requires n <= |records|
  {
    DurationCounts(|DurationsOf(records, n, endpoint, HttpReqDuration, clock, false)|,
                   |DurationsOf(records, n, endpoint, TargetElapsed, clock, false)|)
  }

  function CountsOf(counts: map<string, DurationCounts>, endpoint: string): DurationCounts {
    if endpoint in counts then counts[endpoint] else DurationCounts(0, 0)
  }

  /** First pass: how many usable durations of each metric every selected endpoint has. */
  method CountDurations(records: seq<Row>, selected: set<string>, ghost clock: Clock)
    returns (counts: map<string, DurationCounts>)
    ensures forall e :: e in counts ==> e in selected
    ensures forall e :: e in selected ==> CountsOf(counts, e) == SpecCounts(records, |records|, e, clock)
  {
    counts := map[];
    for i := 0 to |records|
      invariant forall e :: e in counts ==> e in selected
      invariant forall e :: e in selected ==> CountsOf(counts, e) == SpecCounts(records, i, e, clock)
    {
      var record := records[i];
      if record.endpoint !in selected || record.value < 0.0 {
        continue;
      }
      if record.metric != HttpReqDuration && record.metric != TargetElapsed {
        continue;
      }
      var count := CountsOf(counts, record.endpoint);
      counts := counts[record.endpoint := if record.metric == TargetElapsed then count.(target := count.target + 1)
                                                                           else count.(http := count.http + 1)];
    }
  }

  function SourceOf(complete: set<string>, endpoint: string): Metric {
    if endpoint in complete then TargetElapsed else HttpReqDuration
  }

  /** The endpoint's queues, created when first needed, hold what the first n records give. */
  ghost predicate LazyUpTo(states: map<string, SourceState>, records: seq<Row>, n: nat, endpoint: string,
                           source: Metric, clock: Clock)
    requires n <= |records|
    reads if endpoint in states then {states[endpoint]} else {}
  {
    var durations := DurationsOf(records, n, endpoint, source, clock, false);
    var sizes := SizesOf(records, n, endpoint, false);
    if endpoint in states then
      states[endpoint].Valid() && states[endpoint].durations == durations && states[endpoint].sizes == sizes
    else durations == [] && sizes == []
  }

  ghost predicate AllLazyUpTo(states: map<string, SourceState>, records: seq<Row>, n: nat, selected: set<string>,
                              complete: set<string>, clock: Clock)
    requires n <= |records|
    reads set e | e in states :: states[e]
  {
    forall e :: e in selected ==> LazyUpTo(states, records, n, e, SourceOf(complete, e), clock)
  }

  ghost predicate Unshared(states: map<string, SourceState>) {
    forall a, b :: a in states && b in states && a != b ==> states[a] != states[b]
  }

  /** endpointState: the endpoint's queues, new and empty if there are none. */
  method EndpointState(states: map<string, SourceState>, endpoint: string) returns (all: map<string, SourceState>)
    requires Unshared(states)
    ensures Unshared(all) && all.Keys == states.Keys + {endpoint}
    ensures forall e :: e in states ==> all[e] == states[e]
    ensures endpoint !in states ==>
              && fresh(all[endpoint]) && all[endpoint].Valid()
              && all[endpoint].durations == [] && all[endpoint].sizes == []
  {
    all := states;
    if endpoint !in states {
      var created := new SourceState();
      all := states[endpoint := created];
    }
  }

  lemma OtherRecord(states: map<string, SourceState>, records: seq<Row>, n: nat, endpoint: string, source: Metric,
                    clock: Clock)
    requires n < |records| && LazyUpTo(states, records, n, endpoint, source, clock) && source != KhoneBatchSize
    requires
      || records[n].endpoint != endpoint
      || (records[n].metric != source && records[n].metric != KhoneBatchSize)
      || records[n].value < 0.0
      || (records[n].metric == KhoneBatchSize && records[n].value <= 0.0)
    ensures LazyUpTo(states, records, n + 1, endpoint, source, clock)
  {
  }

  /** What the second pass does with a record that counts. */
  method TakeRecord(states: map<string, SourceState>, record: Row, source: Metric, clock: Clock,
                    ghost records: seq<Row>, ghost n: nat)
    returns (all: map<string, SourceState>)
    requires n < |records| && record == records[n] && source != KhoneBatchSize
    requires Unshared(states) && LazyUpTo(states, records, n, record.endpoint, source, clock)
    requires record.metric == source || record.metric == KhoneBatchSize
    requires if record.metric == KhoneBatchSize then record.value > 0.0 else record.value >= 0.0
    modifies if record.endpoint in states then {states[record.endpoint]} else {}
    ensures Unshared(all) && all.Keys == states.Keys + {record.endpoint}
    ensures forall e :: e in states ==> all[e] == states[e]
    ensures record.endpoint !in states ==> fresh(all[record.endpoint])
    ensures LazyUpTo(all, records, n + 1, record.endpoint, source, clock)
  {
    all := EndpointState(states, record.endpoint);
    if record.metric == KhoneBatchSize {
      all[record.endpoint].AddBatchSize(record.value);
    } else {
      var stage := FindStageIndex(ElapsedSeconds(record, clock.baseMs), clock.windows);
      all[record.endpoint].AddDuration(Duration(record.value, stage));
    }
  }

  /** One turn of the second pass. */
  method NextRecord(states: map<string, SourceState>, selected: set<string>, complete: set<string>, clock: Clock,
                    records: seq<Row>, n: nat)
    returns (all: map<string, SourceState>)
    requires n < |records| && Unshared(states) && AllLazyUpTo(states, records, n, selected, complete, clock)
    modifies set e | e in states :: states[e]
    ensures Unshared(all)
    ensures forall e :: e in all ==> if e in states then all[e] == states[e] else fresh(all[e])
    ensures AllLazyUpTo(all, records, n + 1, selected, complete, clock)
  {
    var record := records[n];
    var source := SourceOf(complete, record.endpoint);
    var counts := record.endpoint in selected && ((record.metric == source && record.value >= 0.0)
                                                  || (record.metric == KhoneBatchSize && record.value > 0.0));
    all := states;
    if counts {
      all := TakeRecord(states, record, source, clock, records, n);
    }
    forall e | e in selected && !(counts && e == record.endpoint)
      ensures LazyUpTo(all, records, n + 1, e, SourceOf(complete, e), clock)
    {
      OtherRecord(all, records, n, e, SourceOf(complete, e), clock);
    }
  }

  /** Leftover durations are charged in full; an endpoint without any has no total. */
  method CloseRecords(states: map<string, SourceState>, endpoint: string, ghost records: seq<Row>, ghost source: Metric,
                      ghost clock: Clock)
    returns (cost: Option<EndpointCost>)
    requires LazyUpTo(states, records, |records|, endpoint, source, clock)
    modifies if endpoint in states then {states[endpoint]} else {}
    ensures var durations := DurationsOf(records, |records|, endpoint, source, clock, false);
            var sizes := SizesOf(records, |records|, endpoint, false);
            if durations == [] then cost == None
            else
              && cost.Some?
              && cost.value.total == Total(durations, sizes, |durations|)
              && forall s: nat :: At(cost.value.stages, s) == StageTotal(durations, sizes, s, |durations|)
  {
    if endpoint !in states {
      return None;
    }
    states[endpoint].ChargeLeftovers();
    if states[endpoint].durationCount == 0 {
      return None;
    }
    return Some(EndpointCost(states[endpoint].total, states[endpoint].stageTotals));
  }

  /** The endpoints not closed yet still hold everything they were given. */
  ghost predicate LazyLeft(states: map<string, SourceState>, records: seq<Row>, left: set<string>,
                           complete: set<string>, clock: Clock)
    reads set e | e in states :: states[e]
  {
    AllLazyUpTo(states, records, |records|, left, complete, clock)
  }

  /** The totals of the endpoints closed so far: exactly those with a duration have one. */
  ghost predicate Closed(costs: map<string, EndpointCost>, done: set<string>, records: seq<Row>, clock: Clock) {
    && costs.Keys <= done
    && (forall e :: e in done ==> (e in costs <==> SelectedDurations(records, e, clock, false) != []))
    && Priced(costs, records, clock, false)
  }

  method CloseNext(states: map<string, SourceState>, costs: map<string, EndpointCost>, endpoint: string,
                   ghost left: set<string>, ghost done: set<string>, ghost records: seq<Row>,
                   ghost complete: set<string>, ghost clock: Clock)
    returns (all: map<string, EndpointCost>)
    requires Unshared(states) && LazyLeft(states, records, left, complete, clock) && endpoint in left
        && endpoint !in done
    requires Selected(records, endpoint, clock, false) == SourceOf(complete, endpoint)
    requires Closed(costs, done, records, clock)
    modifies if endpoint in states then {states[endpoint]} else {}
    ensures LazyLeft(states, records, left - {endpoint}, complete, clock)
    ensures Closed(all, done + {endpoint}, records, clock)
  {
    assert LazyUpTo(states, records, |records|, endpoint, SourceOf(complete, endpoint), clock);
    var cost := CloseRecords(states, endpoint, records, SourceOf(complete, endpoint), clock);
    all := if cost.Some? then costs[endpoint := cost.value] else costs;
  }

  /** Second pass: pairs the chosen durations with the batch sizes. */
  method PairRecords(records: seq<Row>, selected: set<string>, complete: set<string>, clock: Clock)
    returns (states: map<string, SourceState>)
    ensures Unshared(states) && LazyLeft(states, records, selected, complete, clock)
    ensures forall e :: e in states ==> fresh(states[e])
  {
    states := map[];
    for i := 0 to |records|
      invariant Unshared(states) && forall e :: e in states ==> fresh(states[e])
      invariant AllLazyUpTo(states, records, i, selected, complete, clock)
    {
      states := NextRecord(states, selected, complete, clock, records, i);
    }
  }

  method TwoPass(records: seq<Row>, endpoints: seq<string>, baseMs: int, windows: seq<Window>)
    returns (costs: map<string, EndpointCost>)
    ensures Closed(costs, Names(endpoints), records, Clock(baseMs, windows))
  {
    var clock := Clock(baseMs, windows);
    var selected := Names(endpoints);
    var counts := CountDurations(records, selected, clock);
    var complete := set e | e in selected && CompleteTarget(CountsOf(counts, e).http, CountsOf(counts, e).target);
    assert forall e :: e in selected ==> Selected(records, e, clock, false) == SourceOf(complete, e);
    var states := PairRecords(records, selected, complete, clock);
    costs := map[];
    var left := selected;
    while left != {}
      invariant left <= selected && Unshared(states) && forall e :: e in states ==> fresh(states[e])
      invariant LazyLeft(states, records, left, complete, clock)
      invariant Closed(costs, selected - left, records, clock)
      decreases |left|
    {
      var endpoint :| endpoint in left;
      costs := CloseNext(states, costs, endpoint, left, selected - left, records, complete, clock);
      assert selected - (left - {endpoint}) == selected - left + {endpoint};
      left := left - {endpoint};
    }
    assert selected - left == selected;
  }
}
