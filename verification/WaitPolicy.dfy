/**
 How long a batch waits: a robust average of the last probe times, scaled and clamped; or a request
 rate over a sliding window of ticks. Exact reals stand for floating point.
 */
module WaitPolicy {
  import opened RealSeqs

  /** The last `window` elements. */
  function LastOf<T>(s: seq<T>, window: nat): seq<T> {
    if |s| <= window then s else s[|s| - window..]
  }

  function Sum(s: seq<real>): real {
    if s == [] then 0.0 else s[0] + Sum(s[1..])
  }

  function Positives(s: seq<real>): (r: seq<real>)
    ensures |r| <= |s|
    ensures forall k :: 0 <= k < |r| ==> r[k] > 0.0
  {
    if s == [] then []
    else Positives(s[..|s| - 1]) + if s[|s| - 1] > 0.0 then [s[|s| - 1]] else []
  }

  function Least(s: seq<real>): real
    requires s != []
  {
    Sort(s)[0]
  }

  function Greatest(s: seq<real>): real
    requires s != []
  {
    Sort(s)[|s| - 1]
  }

  /** The smoothed probe time: the mean of the positive samples, without the extremes from three on. */
  function Smoothed(samples: seq<real>): real {
    var s := Positives(samples);
    if |s| == 0 then 0.0
    else if |s| < 3 then Sum(s) / |s| as real
    else (Sum(s) - Least(s) - Greatest(s)) / (|s| - 2) as real
  }

  lemma {:induction false} SumConcat(a: seq<real>, b: seq<real>)
    ensures Sum(a + b) == Sum(a) + Sum(b)
  {
    if a == [] {
      assert a + b == b;
    } else {
      assert (a + b)[1..] == a[1..] + b;
      SumConcat(a[1..], b);
    }
  }

  lemma ExtremesAre(s: seq<real>, least: real, greatest: real)
    requires IsMin(least, s) && IsMax(greatest, s)
    ensures Least(s) == least && Greatest(s) == greatest
  {
    SortSorts(s);
    SameValues(s, Sort(s));
    var r := Sort(s);
    assert r[0] in r && r[|r| - 1] in r;
    var i :| 0 <= i < |r| && r[i] == least;
    var j :| 0 <= j < |r| && r[j] == greatest;
  }

  /** What one pass over the samples so far has accumulated. */
  ghost predicate Accumulated(samples: seq<real>, count: nat, sum: real, least: real, greatest: real) {
    var s := Positives(samples);
    && count == |s|
    && sum == Sum(s)
    && (count > 0 ==> IsMin(least, s) && IsMax(greatest, s))
  }

  lemma AccumulateOne(samples: seq<real>, v: real, count: nat, sum: real, least: real, greatest: real)
    requires Accumulated(samples, count, sum, least, greatest)
    ensures v <= 0.0 ==> Accumulated(samples + [v], count, sum, least, greatest)
    ensures v > 0.0 ==> Accumulated(samples + [v], count + 1, sum + v,
                                    if count == 0 || v < least then v else least,
                                    if count == 0 || greatest < v then v else greatest)
  {
    var s := Positives(samples);
    assert (samples + [v])[..|samples|] == samples;
    if v > 0.0 {
      assert Positives(samples + [v]) == s + [v];
      SumConcat(s, [v]);
      assert Sum([v]) == v + Sum([v][1..]);
      assert (s + [v])[|s|] == v;
    } else {
      assert Positives(samples + [v]) == s;
    }
  }

  /** One pass over the samples, keeping count, sum and extremes. */
  method SmoothedProbeMs(samples: seq<real>) returns (r: real)
    ensures r == Smoothed(samples)
  {
    var count, sum, least, greatest := 0, 0.0, 0.0, 0.0;
    for k := 0 to |samples|
      invariant Accumulated(samples[..k], count, sum, least, greatest)
    {
      var v := samples[k];
      AccumulateOne(samples[..k], v, count, sum, least, greatest);
      assert samples[..k + 1] == samples[..k] + [v];
      if v > 0.0 {
        least := if count == 0 || v < least then v else least;
        greatest := if count == 0 || greatest < v then v else greatest;
        count := count + 1;
        sum := sum + v;
      }
    }
    assert samples[..|samples|] == samples;
    if count == 0 { return 0.0; }
    if count >= 3 {
      ExtremesAre(Positives(samples), least, greatest);
      return (sum - least - greatest) / (count - 2) as real;
    }
    return sum / count as real;
  }

  // ---------------------------------------------------------------- robustness

  lemma {:induction false} InsertSum(v: real, s: seq<real>)
    ensures Sum(Insert(v, s)) == v + Sum(s)
  {
    if s != [] && v > s[0] {
      InsertSum(v, s[1..]);
    } else {
      assert ([v] + s)[1..] == s;
    }
  }

  lemma {:induction false} SortSum(s: seq<real>)
    ensures Sum(Sort(s)) == Sum(s)
  {
    if s != [] {
      SortSum(s[1..]);
      InsertSum(s[0], Sort(s[1..]));
    }
  }

  lemma {:induction false} SumBounds(s: seq<real>, lo: real, hi: real)
    requires forall k :: 0 <= k < |s| ==> lo <= s[k] <= hi
    ensures |s| as real * lo <= Sum(s) <= |s| as real * hi
  {
    if s != [] {
      SumBounds(s[1..], lo, hi);
      assert |s| as real == |s[1..]| as real + 1.0;
    }
  }

  lemma MeanBounds(sum: real, c: real, lo: real, hi: real)
    requires c > 0.0 && c * lo <= sum <= c * hi
    ensures lo <= sum / c <= hi
  {
    var mean := sum / c;
    assert sum == mean * c;
    assert (sum - c * lo) / c == mean - lo by { Shift(sum, c, lo); }
    assert (c * hi - sum) / c == hi - mean by { Shift(-sum, c, -hi); Negate(sum, c); }
    DivNonNegative(sum - c * lo, c);
    DivNonNegative(c * hi - sum, c);
  }

  lemma Shift(sum: real, c: real, lo: real)
    requires c > 0.0
    ensures (sum - c * lo) / c == sum / c - lo
  {
    assert sum == (sum / c) * c;
    assert sum - c * lo == (sum / c - lo) * c;
  }

  lemma Negate(sum: real, c: real)
    requires c > 0.0
    ensures (-sum) / c == -(sum / c)
  {
    assert sum == (sum / c) * c;
    assert -sum == (-(sum / c)) * c;
  }

  lemma CutEnds(sorted: seq<real>)
    requires |sorted| >= 2
    ensures Sum(sorted[1..|sorted| - 1]) == Sum(sorted) - sorted[0] - sorted[|sorted| - 1]
  {
    var inner, last := sorted[1..|sorted| - 1], sorted[|sorted| - 1];
    assert sorted[1..] == inner + [last];
    SumConcat(inner, [last]);
    assert [last][1..] == [] && Sum([last]) == last;
  }

  /**
   Main result: with three or more positive samples the smoothed time lies between the second smallest
   and the second largest of them, so no single sample, however large, moves it beyond its neighbours.
   */
  lemma SmoothedIsRobust(samples: seq<real>)
    requires |Positives(samples)| >= 3
    ensures var sorted := Sort(Positives(samples));
            sorted[1] <= Smoothed(samples) <= sorted[|sorted| - 2]
  {
    var s := Positives(samples);
    var sorted := Sort(s);
    SortSorts(s);
    SortSum(s);
    TrimmedMean(sorted);
    SameQuotient(Sum(sorted) - sorted[0] - sorted[|sorted| - 1], Sum(s) - Least(s) - Greatest(s),
                 |sorted| - 2, |s| - 2);
  }

  lemma TrimmedMean(sorted: seq<real>)
    requires Sorted(sorted) && |sorted| >= 3
    ensures sorted[1] <= (Sum(sorted) - sorted[0] - sorted[|sorted| - 1]) / (|sorted| - 2) as real
        <= sorted[|sorted| - 2]
  {
    var inner := sorted[1..|sorted| - 1];
    InnerWithin(sorted);
    CutEnds(sorted);
    MeanWithin(inner, sorted[1], sorted[|sorted| - 2]);
    SameQuotient(Sum(inner), Sum(sorted) - sorted[0] - sorted[|sorted| - 1], |inner|, |sorted| - 2);
  }

  lemma InnerWithin(sorted: seq<real>)
    requires Sorted(sorted) && |sorted| >= 3
    ensures var inner := sorted[1..|sorted| - 1];
            forall k :: 0 <= k < |inner| ==> sorted[1] <= inner[k] <= sorted[|sorted| - 2]
  {
    var inner := sorted[1..|sorted| - 1];
    forall k | 0 <= k < |inner| ensures sorted[1] <= inner[k] <= sorted[|sorted| - 2] {
      assert inner[k] == sorted[k + 1];
    }
  }

  lemma SameQuotient(a: real, a': real, n: nat, n': nat)
    requires a == a' && n == n' && n > 0
    ensures a / n as real == a' / n' as real
  {
  }

  // ---------------------------------------------------------------- the wait

  /** Rounding of a non-negative time to the nearest millisecond, halves up. */
  function Round(v: real): int {
    (v + 0.5).Floor
  }

  function Clamp(v: int, lo: nat, hi: nat): nat
    requires lo <= hi
  {
    if v < lo then lo else if v > hi then hi else v
  }

  /** A probe time, longer by the configured fraction. */
  function Scaled(base: real, fraction: real): real {
    base * (1.0 + if fraction > 0.0 then fraction else 0.0)
  }

  /** The wait for a given probe time; without a usable probe time the minimum is scaled instead. */
  function DurationWaitMs(probeMs: real, fraction: real, minWaitMs: nat, maxWaitMs: nat): nat {
    if maxWaitMs <= minWaitMs then maxWaitMs
    else
      var base := if probeMs > 0.0 then probeMs else minWaitMs as real;
      Clamp(Round(Scaled(base, fraction)), minWaitMs, maxWaitMs)
  }

  /**
   What the wait is: the probe time lengthened by the fraction, rounded to the nearest millisecond and
   brought into the bounds; a negative fraction lengthens nothing, and without a usable probe time the
   minimum stands for it.
   */
  lemma WaitIsNearestMs(probeMs: real, fraction: real, minWaitMs: nat, maxWaitMs: nat, aim: real)
    requires aim == (var base := if probeMs > 0.0 then probeMs else minWaitMs as real;
                     if fraction > 0.0 then base + base * fraction else base)
    ensures var wait := DurationWaitMs(probeMs, fraction, minWaitMs, maxWaitMs);
            if maxWaitMs <= minWaitMs then wait == maxWaitMs
            else if aim < minWaitMs as real then wait == minWaitMs
            else if aim > maxWaitMs as real then wait == maxWaitMs
            else minWaitMs <= wait <= maxWaitMs && wait as real - 0.5 <= aim < wait as real + 0.5
  {
    ScaledIs(if probeMs > 0.0 then probeMs else minWaitMs as real, fraction);
    if minWaitMs < maxWaitMs {
      ClampedRound(aim, minWaitMs, maxWaitMs);
    }
  }

  lemma ScaledIs(base: real, fraction: real)
    ensures Scaled(base, fraction) == if fraction > 0.0 then base + base * fraction else base
  {
    if fraction > 0.0 {
      assert base * (1.0 + fraction) == base + base * fraction;
    }
  }

  lemma ClampedRound(aim: real, lo: nat, hi: nat)
    requires lo < hi
    ensures var v := Clamp(Round(aim), lo, hi);
            if aim < lo as real then v == lo
            else if aim > hi as real then v == hi
            else lo <= v <= hi && v as real - 0.5 <= aim < v as real + 0.5
  {
  }

  /** Within the validated configuration, a wait is always between its bounds. */
  lemma WaitInBounds(probeMs: real, fraction: real, minWaitMs: nat, maxWaitMs: nat)
    requires minWaitMs <= maxWaitMs
    ensures minWaitMs <= DurationWaitMs(probeMs, fraction, minWaitMs, maxWaitMs) <= maxWaitMs
  {
  }

  lemma RoundMonotone(u: real, v: real)
    requires u <= v
    ensures Round(u) <= Round(v)
  {
  }

  lemma WaitMonotone(p: real, p': real, fraction: real, minWaitMs: nat, maxWaitMs: nat)
    requires 0.0 < p <= p'
    ensures DurationWaitMs(p, fraction, minWaitMs, maxWaitMs) <= DurationWaitMs(p', fraction, minWaitMs, maxWaitMs)
  {
    ScaledMonotone(p, p', fraction);
    RoundMonotone(Scaled(p, fraction), Scaled(p', fraction));
  }

  lemma ScaledMonotone(p: real, p': real, fraction: real)
    requires p <= p'
    ensures Scaled(p, fraction) <= Scaled(p', fraction)
  {
    var scale := 1.0 + if fraction > 0.0 then fraction else 0.0;
    MulNonNegative(p' - p, scale);
    assert p' * scale - p * scale == (p' - p) * scale;
  }

  /** Main result: one outlier among the samples cannot push the wait beyond what the second largest gives. */
  lemma WaitIsRobust(samples: seq<real>, fraction: real, minWaitMs: nat, maxWaitMs: nat)
    requires |Positives(samples)| >= 3
    ensures var sorted := Sort(Positives(samples));
            && DurationWaitMs(sorted[1], fraction, minWaitMs, maxWaitMs)
               <= DurationWaitMs(Smoothed(samples), fraction, minWaitMs, maxWaitMs)
            && DurationWaitMs(Smoothed(samples), fraction, minWaitMs, maxWaitMs)
               <= DurationWaitMs(sorted[|sorted| - 2], fraction, minWaitMs, maxWaitMs)
  {
    var s := Positives(samples);
    var sorted := Sort(s);
    SmoothedIsRobust(samples);
    SortSorts(s);
    SameValues(s, sorted);
    assert sorted[1] in sorted && sorted[1] > 0.0;
    WaitMonotone(sorted[1], Smoothed(samples), fraction, minWaitMs, maxWaitMs);
    WaitMonotone(Smoothed(samples), sorted[|sorted| - 2], fraction, minWaitMs, maxWaitMs);
  }

  // ---------------------------------------------------------------- sliding windows

  /** Appending to a window and dropping from its front keeps exactly the last elements. */
  method PushToWindow(samples: seq<real>, window: nat, value: real, ghost all: seq<real>) returns (r: seq<real>)
    requires samples == LastOf(all, window) && window > 0
    ensures r == LastOf(all + [value], window)
  {
    ghost var whole := all + [value];
    ghost var k := |whole| - |samples| - 1;
    r := samples + [value];
    while |r| > window
      invariant 0 <= k <= |whole| && r == whole[k..]
      invariant k > 0 ==> |r| >= window
    {
      r := r[1..];
      k := k + 1;
    }
  }

  function SumNat(s: seq<nat>): nat {
    if s == [] then 0 else SumNat(s[..|s| - 1]) + s[|s| - 1]
  }

  /** Requests per second of every completed interval. */
  function Rates(counts: seq<nat>, secs: real): seq<real>
    requires secs > 0.0
  {
    seq(|counts|, k requires 0 <= k < |counts| => counts[k] as real / secs)
  }

  /** Counts requests between ticks; every request is counted in exactly one interval. */
  class DynamicRateEstimator {
    const secs: real
    const windowSize: nat
    var count: nat
    var samples: seq<real>
    ghost var counts: seq<nat>   // of all completed intervals
    ghost var recorded: nat

    ghost predicate Valid()
      reads this
    {
      && secs > 0.0 && windowSize > 0
      && samples == LastOf(Rates(counts, secs), windowSize)
      && SumNat(counts) + count == recorded
    }

    constructor (secs: real, windowSize: nat)
      requires secs > 0.0 && windowSize > 0
      ensures Valid() && recorded == 0 && counts == []
    {
      this.secs, this.windowSize := secs, windowSize;
      count, samples, counts, recorded := 0, [], [], 0;
    }

    method RecordRequest()
      requires Valid()
      modifies this
      ensures Valid() && recorded == old(recorded) + 1 && counts == old(counts) && count == old(count) + 1
    {
      count := count + 1;
      recorded := recorded + 1;
    }

    method Tick()
      requires Valid()
      modifies this
      ensures Valid() && recorded == old(recorded) && count == 0
      ensures counts == old(counts) + [old(count)]
    {
      var rps := count as real / secs;
      samples := PushToWindow(samples, windowSize, rps, Rates(counts, secs));
      assert Rates(counts + [count], secs) == Rates(counts, secs) + [rps];
      assert (counts + [count])[..|counts|] == counts;
      counts := counts + [count];
      count := 0;
    }

    /** The mean of the window; MeanWithin says what that is good for. */
    method SmoothedRps() returns (r: real)
      requires Valid()
      ensures r == Mean(samples)
    {
      if samples == [] { return 0.0; }
      return Sum(samples) / |samples| as real;
    }
  }

  function Mean(s: seq<real>): real {
    if s == [] then 0.0 else Sum(s) / |s| as real
  }

  lemma MeanWithin(s: seq<real>, lo: real, hi: real)
    requires s != [] && forall k :: 0 <= k < |s| ==> lo <= s[k] <= hi
    ensures lo <= Mean(s) <= hi
  {
    SumBounds(s, lo, hi);
    MeanBounds(Sum(s), |s| as real, lo, hi);
  }
}
