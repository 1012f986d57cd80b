/**
 The duration cost of every endpoint, computed twice: in two passes over loaded records, and in one pass
 over a stream that cannot know yet which of two duration metrics will be complete. Exact reals stand for
 floating point, and values that are not finite are not part of this model.
 */
module DurationCost {
  import opened Prelude
  import opened StageWindows
  import opened CostSource

  datatype Metric = HttpReqDuration | TargetElapsed | KhoneBatchSize | HttpReqs

  datatype Row = Row(metric: Metric, endpoint: string, value: real, timestamp: real)

  /** What a moment's stage depends on. */
  datatype Clock = Clock(baseMs: int, windows: seq<Window>)

  /** Rounds half up, as Math.round does. */
  function EpochSecondToMs(seconds: real): int {
    (seconds * 1000.0 + 0.5).Floor
  }

  function ElapsedSeconds(row: Row, baseMs: int): (r: real)
    ensures r >= 0.0
  {
    var elapsed := (EpochSecondToMs(row.timestamp) - baseMs) as real / 1000.0;
    if elapsed < 0.0 then 0.0 else elapsed
  }

  /** A moment's distance from the base, in thousandths: exact to half of one, and never negative. */
  lemma ElapsedIsDistance(row: Row, baseMs: int)
    ensures var elapsed, exact := ElapsedSeconds(row, baseMs) * 1000.0, row.timestamp * 1000.0 - baseMs as real;
            if exact >= 0.0 then exact - 0.5 <= elapsed <= exact + 0.5 else 0.0 <= elapsed <= 0.5
  {
    var ms := EpochSecondToMs(row.timestamp);
    assert ms as real - 0.5 <= row.timestamp * 1000.0 < ms as real + 0.5;
    assert ((ms - baseMs) as real / 1000.0) * 1000.0 == (ms - baseMs) as real;
  }

  /** Only the one-pass form skips rows without a positive timestamp or without a named endpoint. */
  predicate Usable(row: Row) {
    row.timestamp > 0.0 && Named(row.endpoint)
  }

  predicate Named(endpoint: string) {
    endpoint != "" && endpoint != "unknown"
  }

  // ---------------------------------------------------------------- what is computed

  predicate IsRowOf(row: Row, endpoint: string, strict: bool) {
    row.endpoint == endpoint && (strict ==> Usable(row))
  }

  /** The endpoint's durations of one metric among the first n rows, in order. */
  ghost function DurationsOf(rows: seq<Row>, n: nat, endpoint: string, source: Metric, clock: Clock, strict: bool)
    : seq<Duration>
    requires n <= |rows|
  {
    if n == 0 then []
    else
      var row := rows[n - 1];
      DurationsOf(rows, n - 1, endpoint, source, clock, strict)
      + if IsRowOf(row, endpoint, strict) && row.metric == source && row.value >= 0.0
        then [Duration(row.value, StageAt(clock.windows, ElapsedSeconds(row, clock.baseMs)))] else []
  }

  ghost function SizesOf(rows: seq<Row>, n: nat, endpoint: string, strict: bool): seq<real>
    requires n <= |rows|
  {
    if n == 0 then []
    else
      var row := rows[n - 1];
      SizesOf(rows, n - 1, endpoint, strict)
      + if IsRowOf(row, endpoint, strict) && row.metric == KhoneBatchSize && row.value > 0.0 then [row.value] else []
  }

  /** Target durations are used when there are as many as client durations. */
  predicate CompleteTarget(http: nat, target: nat) {
    target > 0 && (http == 0 || target >= http)
  }

  ghost function Selected(rows: seq<Row>, endpoint: string, clock: Clock, strict: bool): Metric {
    if CompleteTarget(|DurationsOf(rows, |rows|, endpoint, HttpReqDuration, clock, strict)|,
                      |DurationsOf(rows, |rows|, endpoint, TargetElapsed, clock, strict)|)
    then TargetElapsed else HttpReqDuration
  }

  /** The target's durations price the endpoint exactly when there are any, and no fewer than the client's. */
  lemma WhichIsSelected(rows: seq<Row>, endpoint: string, clock: Clock, strict: bool)
    ensures var http := |DurationsOf(rows, |rows|, endpoint, HttpReqDuration, clock, strict)|;
            var target := |DurationsOf(rows, |rows|, endpoint, TargetElapsed, clock, strict)|;
            Selected(rows, endpoint, clock, strict)
              == if 0 < target && http <= target then TargetElapsed else HttpReqDuration
  {
  }

  ghost function SelectedDurations(rows: seq<Row>, endpoint: string, clock: Clock, strict: bool): seq<Duration> {
    DurationsOf(rows, |rows|, endpoint, Selected(rows, endpoint, clock, strict), clock, strict)
  }

  ghost function CostOf(rows: seq<Row>, endpoint: string, clock: Clock, strict: bool): real {
    var durations := SelectedDurations(rows, endpoint, clock, strict);
    Total(durations, SizesOf(rows, |rows|, endpoint, strict), |durations|)
  }

  ghost function StageCostOf(rows: seq<Row>, endpoint: string, stage: nat, clock: Clock, strict: bool): real {
    var durations := SelectedDurations(rows, endpoint, clock, strict);
    StageTotal(durations, SizesOf(rows, |rows|, endpoint, strict), stage, |durations|)
  }

  // ---------------------------------------------------------------- one pass

  datatype EndpointCost = EndpointCost(total: real, stages: map<nat, real>)

  datatype PairState = PairState(http: SourceState, target: SourceState) {

    function Source(metric: Metric): SourceState {
      if metric == TargetElapsed then target else http
    }
  }

  /** The first positive timestamp from row k on. */
  ghost function FirstMs(rows: seq<Row>, k: nat): int
    requires k <= |rows|
    decreases |rows| - k
  {
    if k == |rows| then 0
    else if rows[k].timestamp > 0.0 then EpochSecondToMs(rows[k].timestamp)
    else FirstMs(rows, k + 1)
  }

  /** No object is used twice. */
  ghost predicate Separate(states: map<string, PairState>) {
    forall a, b :: a in states && b in states ==>
      && states[a].http != states[b].target
      && (a != b ==> states[a].http != states[b].http && states[a].target != states[b].target)
  }

  /** The endpoint's two sources hold what the first n rows give. */
  ghost predicate UpTo(state: PairState, rows: seq<Row>, n: nat, endpoint: string, clock: Clock)
    requires n <= |rows|
    reads state.http, state.target
  {
    && state.http.Valid() && state.target.Valid()
    && state.http.durations == DurationsOf(rows, n, endpoint, HttpReqDuration, clock, true)
    && state.target.durations == DurationsOf(rows, n, endpoint, TargetElapsed, clock, true)
    && state.http.sizes == SizesOf(rows, n, endpoint, true)
    && state.target.sizes == SizesOf(rows, n, endpoint, true)
  }

  /** What one row does to its endpoint's sources. */
  method TakeRow(state: PairState, row: Row, clock: Clock, ghost rows: seq<Row>, ghost n: nat)
    requires n < |rows| && row == rows[n] && Usable(row)
    requires state.http != state.target && UpTo(state, rows, n, row.endpoint, clock)
    modifies state.http, state.target
    ensures UpTo(state, rows, n + 1, row.endpoint, clock)
  {
    match row.metric
    case HttpReqs =>
    case KhoneBatchSize =>
      if row.value > 0.0 {
        state.http.AddBatchSize(row.value);
        state.target.AddBatchSize(row.value);
      }
    case _ =>
      if row.value >= 0.0 {
        var stage := FindStageIndex(ElapsedSeconds(row, clock.baseMs), clock.windows);
        state.Source(row.metric).AddDuration(Duration(row.value, stage));
      }
  }

  function Names(endpoints: seq<string>): set<string> {
    set e | e in endpoints
  }

  lemma OneMoreName(endpoints: seq<string>, i: nat)
    requires i < |endpoints|
    ensures Names(endpoints[..i + 1]) == Names(endpoints[..i]) + {endpoints[i]}
    ensures endpoints[i] in Names(endpoints)
  {
    assert endpoints[..i + 1] == endpoints[..i] + [endpoints[i]];
  }

  ghost predicate AllUpTo(states: map<string, PairState>, rows: seq<Row>, n: nat, clock: Clock)
    requires n <= |rows|
    reads set e | e in states :: states[e].http
    reads set e | e in states :: states[e].target
  {
    forall e :: e in states ==> UpTo(states[e], rows, n, e, clock)
  }

  method NewState(ghost rows: seq<Row>, ghost endpoint: string, ghost clock: Clock) returns (state: PairState)
    ensures fresh(state.http) && fresh(state.target) && state.http != state.target
    ensures UpTo(state, rows, 0, endpoint, clock)
  {
    var http := new SourceState();
    var target := new SourceState();
    state := PairState(http, target);
  }

  lemma SeparateMore(states: map<string, PairState>, endpoint: string, state: PairState)
    requires Separate(states) && state.http != state.target
    requires forall a :: a in states ==>
               && states[a].http != state.http && states[a].http != state.target
               && states[a].target != state.http && states[a].target != state.target
    ensures Separate(states[endpoint := state])
  {
  }

  lemma OneMoreUpTo(states: map<string, PairState>, rows: seq<Row>, clock: Clock, endpoint: string, state: PairState)
    requires AllUpTo(states, rows, 0, clock) && UpTo(state, rows, 0, endpoint, clock)
    ensures AllUpTo(states[endpoint := state], rows, 0, clock)
  {
  }

  method AddState(states: map<string, PairState>, endpoint: string, ghost rows: seq<Row>, ghost clock: Clock)
    returns (all: map<string, PairState>)
    requires Separate(states) && AllUpTo(states, rows, 0, clock)
    ensures Separate(all) && AllUpTo(all, rows, 0, clock)
    ensures all.Keys == states.Keys + {endpoint}
    ensures forall e :: e in all && e != endpoint ==> all[e] == states[e]
    ensures fresh(all[endpoint].http) && fresh(all[endpoint].target)
  {
    var state := NewState(rows, endpoint, clock);
    SeparateMore(states, endpoint, state);
    OneMoreUpTo(states, rows, clock, endpoint, state);
    all := states[endpoint := state];
  }

  method NewStates(endpoints: seq<string>, ghost rows: seq<Row>, ghost clock: Clock)
    returns (states: map<string, PairState>)
    ensures states.Keys == Names(endpoints)
    ensures Separate(states)
    ensures forall e :: e in states ==> fresh(states[e].http) && fresh(states[e].target)
    ensures AllUpTo(states, rows, 0, clock)
  {
    states := map[];
    for i := 0 to |endpoints|
      invariant states.Keys == Names(endpoints[..i])
      invariant Separate(states)
      invariant forall e :: e in states ==> fresh(states[e].http) && fresh(states[e].target)
      invariant AllUpTo(states, rows, 0, clock)
    {
      OneMoreName(endpoints, i);
      states := AddState(states, endpoints[i], rows, clock);
    }
    assert endpoints[..|endpoints|] == endpoints;
  }

  /** A row that is skipped, or of another endpoint, changes nothing. */
  lemma OtherRow(state: PairState, rows: seq<Row>, n: nat, endpoint: string, clock: Clock)
    requires n < |rows| && UpTo(state, rows, n, endpoint, clock)
    requires !IsRowOf(rows[n], endpoint, true)
    ensures UpTo(state, rows, n + 1, endpoint, clock)
  {
  }

  lemma SkippedRow(states: map<string, PairState>, rows: seq<Row>, n: nat, clock: Clock)
    requires n < |rows| && AllUpTo(states, rows, n, clock) && !Usable(rows[n])
    ensures AllUpTo(states, rows, n + 1, clock)
  {
    forall e | e in states ensures UpTo(states[e], rows, n + 1, e, clock) {
      OtherRow(states[e], rows, n, e, clock);
    }
  }

  lemma OtherEndpoints(states: map<string, PairState>, rows: seq<Row>, n: nat, clock: Clock)
    requires n < |rows|
    requires forall e :: e in states && !IsRowOf(rows[n], e, true) ==> UpTo(states[e], rows, n, e, clock)
    ensures forall e :: e in states && !IsRowOf(rows[n], e, true) ==> UpTo(states[e], rows, n + 1, e, clock)
  {
    forall e | e in states && !IsRowOf(rows[n], e, true) ensures UpTo(states[e], rows, n + 1, e, clock) {
      OtherRow(states[e], rows, n, e, clock);
    }
  }

  /** One turn of the main loop, once the base time is known. */
  method NextRow(states: map<string, PairState>, row: Row, clock: Clock, ghost rows: seq<Row>, ghost n: nat)
    requires n < |rows| && row == rows[n] && row.timestamp > 0.0
    requires Separate(states) && AllUpTo(states, rows, n, clock)
    modifies set e | e in states :: states[e].http
    modifies set e | e in states :: states[e].target
    ensures AllUpTo(states, rows, n + 1, clock)
  {
    if Named(row.endpoint) && row.endpoint in states {
      TakeRow(states[row.endpoint], row, clock, rows, n);
    }
    OtherEndpoints(states, rows, n, clock);
  }

  /** The base time is that of the first row with a positive timestamp, once there has been one. */
  ghost predicate BaseIs(baseMs: Option<int>, rows: seq<Row>, n: nat)
    requires n <= |rows|
  {
    if baseMs.Some? then baseMs.value == FirstMs(rows, 0) else FirstMs(rows, n) == FirstMs(rows, 0)
  }

  lemma BaseNext(baseMs: Option<int>, rows: seq<Row>, n: nat)
    requires n < |rows| && BaseIs(baseMs, rows, n)
    ensures rows[n].timestamp > 0.0 ==> baseMs.GetOr(EpochSecondToMs(rows[n].timestamp)) == FirstMs(rows, 0)
    ensures rows[n].timestamp <= 0.0 ==> BaseIs(baseMs, rows, n + 1)
  {
  }

  /** One row, as the loop reads it. */
  method ReadRow(states: map<string, PairState>, baseMs: Option<int>, rows: seq<Row>, n: nat, windows: seq<Window>,
                 ghost clock: Clock)
    returns (base: Option<int>)
    requires n < |rows| && BaseIs(baseMs, rows, n)
    requires Separate(states) && clock == Clock(FirstMs(rows, 0), windows) && AllUpTo(states, rows, n, clock)
    modifies set e | e in states :: states[e].http
    modifies set e | e in states :: states[e].target
    ensures BaseIs(base, rows, n + 1) && AllUpTo(states, rows, n + 1, clock)
  {
    BaseNext(baseMs, rows, n);
    if rows[n].timestamp <= 0.0 {
      SkippedRow(states, rows, n, clock);
      return baseMs;
    }
    var known := baseMs.GetOr(EpochSecondToMs(rows[n].timestamp));
    NextRow(states, rows[n], Clock(known, windows), rows, n);
    return Some(known);
  }

  method ReadRows(states: map<string, PairState>, rows: seq<Row>, windows: seq<Window>, ghost clock: Clock)
    requires Separate(states) && clock == Clock(FirstMs(rows, 0), windows) && AllUpTo(states, rows, 0, clock)
    modifies set e | e in states :: states[e].http
    modifies set e | e in states :: states[e].target
    ensures AllUpTo(states, rows, |rows|, clock)
  {
    var baseMs: Option<int> := None;
    for i := 0 to |rows|
      invariant BaseIs(baseMs, rows, i) && AllUpTo(states, rows, i, clock)
    {
      baseMs := ReadRow(states, baseMs, rows, i, windows, clock);
    }
  }

  /** The cost is the endpoint's, in all and per stage. */
  ghost predicate IsCostOf(cost: EndpointCost, rows: seq<Row>, endpoint: string, clock: Clock, strict: bool) {
    && cost.total == CostOf(rows, endpoint, clock, strict)
    && forall s: nat :: At(cost.stages, s) == StageCostOf(rows, endpoint, s, clock, strict)
  }

  ghost predicate Priced(costs: map<string, EndpointCost>, rows: seq<Row>, clock: Clock, strict: bool) {
    forall e :: e in costs ==> IsCostOf(costs[e], rows, e, clock, strict)
  }

  /** Leftover durations are charged in full, then the metric is chosen. */
  method CloseEndpoint(state: PairState, ghost rows: seq<Row>, ghost endpoint: string, ghost clock: Clock)
    returns (cost: EndpointCost)
    requires state.http != state.target && UpTo(state, rows, |rows|, endpoint, clock)
    modifies state.http, state.target
    ensures IsCostOf(cost, rows, endpoint, clock, true)
  {
    state.http.ChargeLeftovers();
    state.target.ChargeLeftovers();
    var selected :=
      if CompleteTarget(state.http.durationCount, state.target.durationCount) then state.target else state.http;
    cost := EndpointCost(selected.total, selected.stageTotals);
  }

  /** The endpoints that are not closed yet still hold everything they were given. */
  ghost predicate LeftUpTo(states: map<string, PairState>, done: set<string>, rows: seq<Row>, clock: Clock)
    reads set e | e in states :: states[e].http
    reads set e | e in states :: states[e].target
  {
    forall e :: e in states && e !in done ==> UpTo(states[e], rows, |rows|, e, clock)
  }

  lemma PricedNext(costs: map<string, EndpointCost>, rows: seq<Row>, clock: Clock, endpoint: string, cost: EndpointCost)
    requires Priced(costs, rows, clock, true) && IsCostOf(cost, rows, endpoint, clock, true)
    ensures Priced(costs[endpoint := cost], rows, clock, true)
    ensures costs[endpoint := cost].Keys == costs.Keys + {endpoint}
  {
  }

  lemma NoneLeftTwice(states: map<string, PairState>, done: set<string>, all: set<string>, rows: seq<Row>, clock: Clock)
    requires LeftUpTo(states, done, rows, clock) && all == done
    ensures LeftUpTo(states, all, rows, clock)
  {
  }

  method CloseNext(states: map<string, PairState>, ghost done: set<string>, endpoint: string,
                   ghost rows: seq<Row>, ghost clock: Clock)
    returns (cost: EndpointCost)
    requires Separate(states) && LeftUpTo(states, done, rows, clock)
    requires endpoint in states && endpoint !in done
    modifies states[endpoint].http, states[endpoint].target
    ensures LeftUpTo(states, done + {endpoint}, rows, clock)
    ensures IsCostOf(cost, rows, endpoint, clock, true)
  {
    cost := CloseEndpoint(states[endpoint], rows, endpoint, clock);
  }

  method CloseOne(states: map<string, PairState>, costs: map<string, EndpointCost>, endpoint: string,
                  ghost rows: seq<Row>, ghost clock: Clock)
    returns (all: map<string, EndpointCost>)
    requires Separate(states) && LeftUpTo(states, costs.Keys, rows, clock) && Priced(costs, rows, clock, true)
    requires endpoint in states
    modifies states[endpoint].http, states[endpoint].target
    ensures LeftUpTo(states, all.Keys, rows, clock)
    ensures all.Keys == costs.Keys + {endpoint} && Priced(all, rows, clock, true)
  {
    all := costs;
    if endpoint in costs {
      assert costs.Keys == costs.Keys + {endpoint};
    } else {
      var cost := CloseNext(states, costs.Keys, endpoint, rows, clock);
      PricedNext(costs, rows, clock, endpoint, cost);
      all := costs[endpoint := cost];
      NoneLeftTwice(states, costs.Keys + {endpoint}, all.Keys, rows, clock);
    }
  }

  method CloseAll(states: map<string, PairState>, endpoints: seq<string>, ghost rows: seq<Row>, ghost clock: Clock)
    returns (costs: map<string, EndpointCost>)
    requires Separate(states) && AllUpTo(states, rows, |rows|, clock)
    requires states.Keys == Names(endpoints)
    modifies set e | e in states :: states[e].http
    modifies set e | e in states :: states[e].target
    ensures costs.Keys == Names(endpoints)
    ensures Priced(costs, rows, clock, true)
  {
    costs := map[];
    for i := 0 to |endpoints|
      invariant costs.Keys == Names(endpoints[..i])
      invariant LeftUpTo(states, costs.Keys, rows, clock)
      invariant Priced(costs, rows, clock, true)
    {
      OneMoreName(endpoints, i);
      costs := CloseOne(states, costs, endpoints[i], rows, clock);
    }
    assert endpoints[..|endpoints|] == endpoints;
  }

  /** The streaming computation; it keeps both metrics' totals and chooses at the end. */
  method OnePass(rows: seq<Row>, endpoints: seq<string>, windows: seq<Window>)
    returns (costs: map<string, EndpointCost>)
    ensures costs.Keys == Names(endpoints)
    ensures Priced(costs, rows, Clock(FirstMs(rows, 0), windows), true)
  {
    ghost var clock := Clock(FirstMs(rows, 0), windows);
    var states := NewStates(endpoints, rows, clock);
    ReadRows(states, rows, windows, clock);
    costs := CloseAll(states, endpoints, rows, clock);
  }
}
