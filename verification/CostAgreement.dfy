/**
 What the duration cost is: the same in one pass and in two, independent of how durations and batch
 sizes interleave, and the sum of its stages.
 */
module CostAgreement {
  import opened Prelude
  import opened StageWindows
  import opened CostSource
  import opened DurationCost

  // ---------------------------------------------------------------- one pass agrees with two

  /** The row is a duration or a batch size of the endpoint that counts. */
  predicate Contributes(row: Row, endpoint: string) {
    && row.endpoint == endpoint
    && ((IsDuration(row) && row.value >= 0.0) || (row.metric == KhoneBatchSize && row.value > 0.0))
  }

  predicate IsDuration(row: Row) {
    row.metric == HttpReqDuration || row.metric == TargetElapsed
  }

  /** No row that contributes is skipped by the one-pass form, among the first n. */
  ghost predicate NoneSkipped(rows: seq<Row>, n: nat, endpoint: string)
    requires n <= |rows|
  {
    forall k :: 0 <= k < n && Contributes(rows[k], endpoint) ==>
      rows[k].timestamp > 0.0 && endpoint != "" && endpoint != "unknown"
  }

  ghost predicate SameMs(a: seq<Duration>, b: seq<Duration>) {
    |a| == |b| && forall k :: 0 <= k < |a| ==> a[k].ms == b[k].ms
  }

  /** Both forms read the same durations of either metric and the same batch sizes. */
  ghost predicate ReadTheSame(rows: seq<Row>, endpoint: string, one: Clock, two: Clock) {
    && SameMs(DurationsOf(rows, |rows|, endpoint, HttpReqDuration, one, true),
              DurationsOf(rows, |rows|, endpoint, HttpReqDuration, two, false))
    && SameMs(DurationsOf(rows, |rows|, endpoint, TargetElapsed, one, true),
              DurationsOf(rows, |rows|, endpoint, TargetElapsed, two, false))
    && SizesOf(rows, |rows|, endpoint, true) == SizesOf(rows, |rows|, endpoint, false)
  }

  /** When nothing that contributes is skipped, neither the clock nor the skipping changes what is read. */
  lemma {:induction false} SameArrivals(rows: seq<Row>, n: nat, endpoint: string, source: Metric, one: Clock,
                                        two: Clock)
    requires n <= |rows| && NoneSkipped(rows, n, endpoint) && (source == HttpReqDuration || source == TargetElapsed)
    ensures SameMs(DurationsOf(rows, n, endpoint, source, one, true),
                   DurationsOf(rows, n, endpoint, source, two, false))
    ensures one == two ==>
              DurationsOf(rows, n, endpoint, source, one, true) == DurationsOf(rows, n, endpoint, source, two, false)
    ensures SizesOf(rows, n, endpoint, true) == SizesOf(rows, n, endpoint, false)
  {
    if n > 0 {
      SameArrivals(rows, n - 1, endpoint, source, one, two);
      assert Contributes(rows[n - 1], endpoint) ==> Usable(rows[n - 1]);
    }
  }

  /** How much the endpoint's rows among the first n give. */
  ghost function Amount(rows: seq<Row>, n: nat, endpoint: string, clock: Clock, strict: bool): nat
    requires n <= |rows|
  {
    |DurationsOf(rows, n, endpoint, HttpReqDuration, clock, strict)|
    + |DurationsOf(rows, n, endpoint, TargetElapsed, clock, strict)|
    + |SizesOf(rows, n, endpoint, strict)|
  }

  lemma OneRowAmount(rows: seq<Row>, n: nat, endpoint: string, clock: Clock, strict: bool)
    requires n < |rows|
    ensures Amount(rows, n + 1, endpoint, clock, strict) == Amount(rows, n, endpoint, clock, strict)
              + if Contributes(rows[n], endpoint) && (strict ==> Usable(rows[n])) then 1 else 0
  {
  }

  /** Every row that is skipped though it contributes is missing. */
  lemma {:induction false} SkippedIsMissing(rows: seq<Row>, n: nat, endpoint: string, one: Clock, two: Clock)
    requires n <= |rows|
    ensures Amount(rows, n, endpoint, one, true) <= Amount(rows, n, endpoint, two, false)
    ensures !NoneSkipped(rows, n, endpoint) ==>
        Amount(rows, n, endpoint, one, true) < Amount(rows, n, endpoint, two, false)
  {
    if n > 0 {
      SkippedIsMissing(rows, n - 1, endpoint, one, two);
      OneRowAmount(rows, n - 1, endpoint, one, true);
      OneRowAmount(rows, n - 1, endpoint, two, false);
      if NoneSkipped(rows, n - 1, endpoint) && !(Contributes(rows[n - 1], endpoint) && !Usable(rows[n - 1])) {
        assert NoneSkipped(rows, n, endpoint);
      }
    }
  }

  /**
   Main result, exactly when one pass reads what two passes read: when every row that contributes has a
   positive timestamp and a named endpoint.
   */
  lemma ReadTheSameIff(rows: seq<Row>, endpoint: string, one: Clock, two: Clock)
    ensures ReadTheSame(rows, endpoint, one, two) <==> NoneSkipped(rows, |rows|, endpoint)
  {
    if NoneSkipped(rows, |rows|, endpoint) {
      SameArrivals(rows, |rows|, endpoint, HttpReqDuration, one, two);
      SameArrivals(rows, |rows|, endpoint, TargetElapsed, one, two);
    } else {
      SkippedIsMissing(rows, |rows|, endpoint, one, two);
    }
  }

  lemma {:induction false} TotalOfMs(a: seq<Duration>, b: seq<Duration>, sizes: seq<real>, n: nat)
    requires SameMs(a, b) && n <= |a|
    ensures Total(a, sizes, n) == Total(b, sizes, n)
  {
    if n > 0 {
      TotalOfMs(a, b, sizes, n - 1);
      assert a[n - 1].ms == b[n - 1].ms;
    }
  }

  /**
   Main result: then the one-pass total (which OnePass returns) is the two-pass total (which TwoPass
   returns), whatever base time either uses; with the same base time the stage costs agree too.
   */
  lemma PassesAgree(rows: seq<Row>, endpoint: string, one: Clock, two: Clock)
    requires NoneSkipped(rows, |rows|, endpoint)
    ensures Selected(rows, endpoint, one, true) == Selected(rows, endpoint, two, false)
    ensures CostOf(rows, endpoint, one, true) == CostOf(rows, endpoint, two, false)
    ensures one == two ==>
              forall s: nat :: StageCostOf(rows, endpoint, s, one, true) == StageCostOf(rows, endpoint, s, two, false)
  {
    var n := |rows|;
    SameArrivals(rows, n, endpoint, HttpReqDuration, one, two);
    SameArrivals(rows, n, endpoint, TargetElapsed, one, two);
    var a, b := SelectedDurations(rows, endpoint, one, true), SelectedDurations(rows, endpoint, two, false);
    TotalOfMs(a, b, SizesOf(rows, n, endpoint, false), |a|);
  }

  /** One skipped duration is enough: the one-pass form does not count it, the two-pass form does. */
  lemma OneSkipped(row: Row, clock: Clock)
    requires row.metric == HttpReqDuration && row.value > 0.0 && !Usable(row)
    ensures CostOf([row], row.endpoint, clock, true) == 0.0
    ensures CostOf([row], row.endpoint, clock, false) == row.value
  {
    var rows, e := [row], row.endpoint;
    forall strict: bool, source: Metric
      ensures DurationsOf(rows, 1, e, source, clock, strict) == OneDuration(row, e, source, clock, strict)
      ensures SizesOf(rows, 1, e, strict) == []
    {
      assert DurationsOf(rows, 0, e, source, clock, strict) == [] && SizesOf(rows, 0, e, strict) == [];
    }
    var paid := OneDuration(row, e, HttpReqDuration, clock, false);
    assert SelectedDurations(rows, e, clock, true) == [];
    assert SelectedDurations(rows, e, clock, false) == paid;
    assert Total(paid, [], 1) == Total(paid, [], 0) + CostAt(paid, [], 0);
  }

  /** The two ways to be skipped, each with a concrete row. */
  lemma TimestampsMatter(clock: Clock)
    ensures CostOf([Row(HttpReqDuration, "a", 7.0, 0.0)], "a", clock, true) == 0.0
    ensures CostOf([Row(HttpReqDuration, "a", 7.0, 0.0)], "a", clock, false) == 7.0
  {
    OneSkipped(Row(HttpReqDuration, "a", 7.0, 0.0), clock);
  }

  lemma NamesMatter(clock: Clock)
    ensures CostOf([Row(HttpReqDuration, "unknown", 7.0, 1.0)], "unknown", clock, true) == 0.0
    ensures CostOf([Row(HttpReqDuration, "unknown", 7.0, 1.0)], "unknown", clock, false) == 7.0
  {
    OneSkipped(Row(HttpReqDuration, "unknown", 7.0, 1.0), clock);
  }

  // ---------------------------------------------------------------- interleaving does not matter

  ghost function OneDuration(row: Row, endpoint: string, source: Metric, clock: Clock, strict: bool): seq<Duration> {
    if IsRowOf(row, endpoint, strict) && row.metric == source && row.value >= 0.0
    then [Duration(row.value, StageAt(clock.windows, ElapsedSeconds(row, clock.baseMs)))] else []
  }

  /** The first n rows that are durations, or those that are not, in order. */
  ghost function Only(rows: seq<Row>, n: nat, durations: bool): seq<Row>
    requires n <= |rows|
  {
    if n == 0 then []
    else Only(rows, n - 1, durations) + if IsDuration(rows[n - 1]) == durations then [rows[n - 1]] else []
  }

  lemma {:induction false} FirstRowsDecide(a: seq<Row>, b: seq<Row>, n: nat, endpoint: string, source: Metric,
                                           clock: Clock, strict: bool)
    requires n <= |a| && n <= |b| && a[..n] == b[..n]
    ensures DurationsOf(a, n, endpoint, source, clock, strict) == DurationsOf(b, n, endpoint, source, clock, strict)
    ensures SizesOf(a, n, endpoint, strict) == SizesOf(b, n, endpoint, strict)
  {
    if n > 0 {
      assert a[n - 1] == a[..n][n - 1] == b[n - 1];
      assert a[..n - 1] == a[..n][..n - 1] == b[..n - 1];
      FirstRowsDecide(a, b, n - 1, endpoint, source, clock, strict);
    }
  }

  ghost function OneSize(row: Row, endpoint: string, strict: bool): seq<real> {
    if IsRowOf(row, endpoint, strict) && row.metric == KhoneBatchSize && row.value > 0.0 then [row.value] else []
  }

  lemma OneMoreRow(rows: seq<Row>, row: Row, endpoint: string, source: Metric, clock: Clock, strict: bool)
    ensures DurationsOf(rows + [row], |rows| + 1, endpoint, source, clock, strict)
         == DurationsOf(rows, |rows|, endpoint, source, clock, strict)
             + OneDuration(row, endpoint, source, clock, strict)
    ensures SizesOf(rows + [row], |rows| + 1, endpoint, strict)
         == SizesOf(rows, |rows|, endpoint, strict) + OneSize(row, endpoint, strict)
  {
    FirstRowsDecide(rows + [row], rows, |rows|, endpoint, source, clock, strict);
  }

  /** Which durations are read depends on the duration rows alone. */
  lemma {:induction false} DurationRowsDecide(rows: seq<Row>, n: nat, endpoint: string, source: Metric, clock: Clock,
                                              strict: bool)
    requires n <= |rows| && (source == HttpReqDuration || source == TargetElapsed)
    ensures var d := Only(rows, n, true);
            DurationsOf(rows, n, endpoint, source, clock, strict)
                == DurationsOf(d, |d|, endpoint, source, clock, strict)
  {
    if n > 0 {
      DurationRowsDecide(rows, n - 1, endpoint, source, clock, strict);
      var d, row := Only(rows, n - 1, true), rows[n - 1];
      OneMoreRow(d, row, endpoint, source, clock, strict);
      assert Only(rows, n, true) == if IsDuration(row) then d + [row] else d;
    }
  }

  /** Which batch sizes are read depends on the other rows alone. */
  lemma {:induction false} OtherRowsDecide(rows: seq<Row>, n: nat, endpoint: string, clock: Clock, strict: bool)
    requires n <= |rows|
    ensures var o := Only(rows, n, false);
            SizesOf(rows, n, endpoint, strict) == SizesOf(o, |o|, endpoint, strict)
  {
    if n > 0 {
      OtherRowsDecide(rows, n - 1, endpoint, clock, strict);
      var o, row := Only(rows, n - 1, false), rows[n - 1];
      OneMoreRow(o, row, endpoint, HttpReqDuration, clock, strict);
      assert Only(rows, n, false) == if IsDuration(row) then o else o + [row];
    }
  }

  lemma {:induction false} ClockKeepsMs(rows: seq<Row>, n: nat, endpoint: string, source: Metric, one: Clock,
                                        two: Clock, strict: bool)
    requires n <= |rows|
    ensures SameMs(DurationsOf(rows, n, endpoint, source, one, strict),
                   DurationsOf(rows, n, endpoint, source, two, strict))
  {
    if n > 0 {
      ClockKeepsMs(rows, n - 1, endpoint, source, one, two, strict);
    }
  }

  lemma ClockIsIrrelevant(rows: seq<Row>, endpoint: string, one: Clock, two: Clock, strict: bool)
    ensures CostOf(rows, endpoint, one, strict) == CostOf(rows, endpoint, two, strict)
  {
    ClockKeepsMs(rows, |rows|, endpoint, HttpReqDuration, one, two, strict);
    ClockKeepsMs(rows, |rows|, endpoint, TargetElapsed, one, two, strict);
    var a, b := SelectedDurations(rows, endpoint, one, strict), SelectedDurations(rows, endpoint, two, strict);
    TotalOfMs(a, b, SizesOf(rows, |rows|, endpoint, strict), |a|);
  }

  /**
   Main result: however durations and batch sizes interleave - as long as each keep their own order - every
   endpoint's cost is the same, in either form and whatever the base time; with the same base time every
   stage's cost is, too.
   */
  lemma {:induction false} InterleavingIsIrrelevant(a: seq<Row>, b: seq<Row>, endpoint: string, stage: nat,
                                                    one: Clock, two: Clock, strict: bool)
    requires Only(a, |a|, true) == Only(b, |b|, true) && Only(a, |a|, false) == Only(b, |b|, false)
    ensures CostOf(a, endpoint, one, strict) == CostOf(b, endpoint, two, strict)
    ensures StageCostOf(a, endpoint, stage, one, strict) == StageCostOf(b, endpoint, stage, one, strict)
  {
    DurationRowsDecide(a, |a|, endpoint, HttpReqDuration, one, strict);
    DurationRowsDecide(b, |b|, endpoint, HttpReqDuration, one, strict);
    DurationRowsDecide(a, |a|, endpoint, TargetElapsed, one, strict);
    DurationRowsDecide(b, |b|, endpoint, TargetElapsed, one, strict);
    OtherRowsDecide(a, |a|, endpoint, one, strict);
    OtherRowsDecide(b, |b|, endpoint, one, strict);
    ClockIsIrrelevant(b, endpoint, one, two, strict);
  }

  // ---------------------------------------------------------------- stages

  /** The sum of the stage costs over the first m windows. */
  ghost function SumOverWindows(windows: seq<Window>, m: nat, durations: seq<Duration>, sizes: seq<real>, n: nat): real
    requires m <= |windows| && n <= |durations|
  {
    if m == 0 then 0.0
    else SumOverWindows(windows, m - 1, durations, sizes, n) + StageTotal(durations, sizes, windows[m - 1].index, n)
  }

  /** One more duration raises the sum by its cost once its window is among the m. */
  lemma {:induction false} OneMoreDuration(windows: seq<Window>, m: nat, durations: seq<Duration>, sizes: seq<real>,
                                           n: nat, k: nat)
    requires m <= |windows| && n < |durations| && k < |windows| && Contiguous(windows)
    requires durations[n].stage == Some(windows[k].index)
    ensures SumOverWindows(windows, m, durations, sizes, n + 1)
         == SumOverWindows(windows, m, durations, sizes, n) + if k < m then CostAt(durations, sizes, n) else 0.0
  {
    if m > 0 {
      OneMoreDuration(windows, m - 1, durations, sizes, n, k);
      assert windows[m - 1].index == windows[k].index <==> m - 1 == k;
    }
  }

  lemma {:induction false} NoDurations(windows: seq<Window>, m: nat, durations: seq<Duration>, sizes: seq<real>)
    requires m <= |windows|
    ensures SumOverWindows(windows, m, durations, sizes, 0) == 0.0
  {
    if m > 0 {
      NoDurations(windows, m - 1, durations, sizes);
    }
  }

  ghost predicate InWindow(windows: seq<Window>, stage: Option<nat>) {
    exists k :: 0 <= k < |windows| && stage == Some(windows[k].index)
  }

  ghost predicate AllInWindows(windows: seq<Window>, durations: seq<Duration>) {
    forall i :: 0 <= i < |durations| ==> InWindow(windows, durations[i].stage)
  }

  lemma {:induction false} SumIsTotal(windows: seq<Window>, durations: seq<Duration>, sizes: seq<real>, n: nat)
    requires n <= |durations| && Contiguous(windows) && AllInWindows(windows, durations)
    ensures SumOverWindows(windows, |windows|, durations, sizes, n) == Total(durations, sizes, n)
  {
    if n == 0 {
      NoDurations(windows, |windows|, durations, sizes);
    } else {
      SumIsTotal(windows, durations, sizes, n - 1);
      assert InWindow(windows, durations[n - 1].stage);
      var k :| 0 <= k < |windows| && durations[n - 1].stage == Some(windows[k].index);
      OneMoreDuration(windows, |windows|, durations, sizes, n - 1, k);
    }
  }

  lemma {:induction false} EveryDurationHasAStage(rows: seq<Row>, n: nat, endpoint: string, source: Metric,
                                                  clock: Clock, strict: bool)
    requires n <= |rows| && Contiguous(clock.windows) && clock.windows != []
    ensures AllInWindows(clock.windows, DurationsOf(rows, n, endpoint, source, clock, strict))
  {
    if n > 0 {
      EveryDurationHasAStage(rows, n - 1, endpoint, source, clock, strict);
      var k := EveryMomentHasOneStage(clock.windows, ElapsedSeconds(rows[n - 1], clock.baseMs));
      assert InWindow(clock.windows, StageAt(clock.windows, ElapsedSeconds(rows[n - 1], clock.baseMs)));
    }
  }

  /** With at least one stage of positive length, the stage costs of an endpoint add up to its cost. */
  lemma StagesSumToTotal(rows: seq<Row>, endpoint: string, clock: Clock, strict: bool)
    requires Contiguous(clock.windows) && clock.windows != []
    ensures var durations := SelectedDurations(rows, endpoint, clock, strict);
            var sizes := SizesOf(rows, |rows|, endpoint, strict);
            SumOverWindows(clock.windows, |clock.windows|, durations, sizes, |durations|)
              == CostOf(rows, endpoint, clock, strict)
  {
    var durations := SelectedDurations(rows, endpoint, clock, strict);
    EveryDurationHasAStage(rows, |rows|, endpoint, Selected(rows, endpoint, clock, strict), clock, strict);
    SumIsTotal(clock.windows, durations, SizesOf(rows, |rows|, endpoint, strict), |durations|);
  }
}
