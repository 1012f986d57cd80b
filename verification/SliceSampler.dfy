/**
 The sampler of batch sizes: per second of the run it keeps the samples with the smallest hashes, so
 that what is kept does not depend on the order of arrival. The hash of a sample is an input.
 */
module SliceSampler {

  datatype BatchSample = BatchSample(timestamp: int, elapsedSeconds: real, batchSize: real)

  datatype Pick = Pick(hash: nat, sample: BatchSample)

  const SLICE_SECONDS: real := 1.0

  function SliceOf(sample: BatchSample): int {
    ((if sample.elapsedSeconds < 0.0 then 0.0 else sample.elapsedSeconds) / SLICE_SECONDS).Floor
  }

  function Max(a: int, b: int): int {
    if a >= b then a else b
  }

  function Ceil(x: real): int {
    -((-x).Floor)
  }

  function EstimatedSlices(plannedSeconds: real): int {
    Max(1, Ceil((if plannedSeconds < 1.0 then 1.0 else plannedSeconds) / SLICE_SECONDS))
  }

  /** A slice is one second of the run; what lies before the start counts as its first. */
  lemma SliceIsASecond(sample: BatchSample)
    ensures var slice := SliceOf(sample);
            && (sample.elapsedSeconds >= 0.0 ==> slice as real <= sample.elapsedSeconds < (slice + 1) as real)
            && (sample.elapsedSeconds < 0.0 ==> slice == 0)
  {
  }

  /** The planned slices are the least number of seconds that covers the planned time, one at least. */
  lemma SlicesCoverThePlan(plannedSeconds: real)
    ensures var n := EstimatedSlices(plannedSeconds);
            n >= 1 && n as real >= plannedSeconds && (n > 1 ==> (n - 1) as real < plannedSeconds)
  {
  }

  // ---------------------------------------------------------------- the smallest hashes

  /** The hashes of the samples offered to one slice. */
  ghost function Offered(samples: seq<BatchSample>, hash: BatchSample -> nat, slice: int): multiset<nat> {
    if samples == [] then multiset{}
    else
      var last := samples[|samples| - 1];
      Offered(samples[..|samples| - 1], hash, slice)
      + if SliceOf(last) == slice then multiset{hash(last)} else multiset{}
  }

  /** kept is made of the min(cap, n) smallest of the n offered. */
  ghost predicate IsBottom(kept: multiset<nat>, offered: multiset<nat>, cap: nat) {
    && kept <= offered
    && |kept| == (if |offered| <= cap then |offered| else cap)
    && forall k, r :: k in kept && r in offered - kept ==> k <= r
  }

  lemma SameSizeSubset(a: multiset<nat>, b: multiset<nat>)
    requires a <= b && |a| == |b|
    ensures a == b
  {
    assert b == a + (b - a);
    assert |b - a| == 0;
  }

  lemma SomeMore(a: multiset<nat>, b: multiset<nat>) returns (x: nat)
    requires |a| == |b| && a != b
    ensures a[x] > b[x]
  {
    if forall x :: a[x] <= b[x] {
      SameSizeSubset(a, b);
      assert false;
    }
    x :| a[x] > b[x];
  }

  lemma NotKept(a: multiset<nat>, b: multiset<nat>, offered: multiset<nat>, cap: nat, x: nat, y: nat)
    requires a <= offered && IsBottom(b, offered, cap) && a[x] > b[x] && y in b
    ensures y <= x
  {
    assert x in offered - b;
  }

  /** There is only one way to keep the smallest. */
  lemma BottomIsUnique(a: multiset<nat>, b: multiset<nat>, offered: multiset<nat>, cap: nat)
    requires IsBottom(a, offered, cap) && IsBottom(b, offered, cap)
    ensures a == b
  {
    if a != b {
      var x := SomeMore(a, b);
      var y := SomeMore(b, a);
      NotKept(a, b, offered, cap, x, y);
      NotKept(b, a, offered, cap, y, x);
      assert false;
    }
  }

  lemma BottomRoom(kept: multiset<nat>, offered: multiset<nat>, cap: nat, hash: nat)
    requires IsBottom(kept, offered, cap) && |kept| < cap
    ensures IsBottom(kept + multiset{hash}, offered + multiset{hash}, cap)
  {
    SameSizeSubset(kept, offered);
  }

  lemma BottomKeep(kept: multiset<nat>, offered: multiset<nat>, cap: nat, hash: nat)
    requires IsBottom(kept, offered, cap) && |kept| == cap
    requires forall k :: k in kept ==> k <= hash
    ensures IsBottom(kept, offered + multiset{hash}, cap)
  {
    assert (offered + multiset{hash}) - kept == (offered - kept) + multiset{hash};
  }

  lemma BottomReplace(kept: multiset<nat>, offered: multiset<nat>, cap: nat, worst: nat, hash: nat)
    requires IsBottom(kept, offered, cap) && |kept| == cap
    requires worst in kept && hash < worst && forall k :: k in kept ==> k <= worst
    ensures IsBottom(kept - multiset{worst} + multiset{hash}, offered + multiset{hash}, cap)
  {
    var kept' := kept - multiset{worst} + multiset{hash};
    assert (offered + multiset{hash}) - kept' == (offered - kept) + multiset{worst};
  }

  function Hashes(picks: seq<Pick>): (hashes: seq<nat>)
    ensures |hashes| == |picks|
    ensures forall k :: 0 <= k < |picks| ==> hashes[k] == picks[k].hash
  {
    seq(|picks|, k requires 0 <= k < |picks| => picks[k].hash)
  }

  /** Every pick is a sample that was offered to this slice, under its own hash. */
  ghost predicate Genuine(picks: seq<Pick>, samples: seq<BatchSample>, hash: BatchSample -> nat, slice: int) {
    forall k :: 0 <= k < |picks| ==>
      picks[k].sample in samples && SliceOf(picks[k].sample) == slice && picks[k].hash == hash(picks[k].sample)
  }

  /** A slice keeps the smallest hashes offered to it, with their samples. */
  ghost predicate BinOk(picks: seq<Pick>, samples: seq<BatchSample>, hash: BatchSample -> nat, slice: int, cap: nat) {
    IsBottom(multiset(Hashes(picks)), Offered(samples, hash, slice), cap) && Genuine(picks, samples, hash, slice)
  }

  lemma OneMoreOffered(samples: seq<BatchSample>, sample: BatchSample, hash: BatchSample -> nat, slice: int)
    ensures SliceOf(sample) != slice ==> Offered(samples + [sample], hash, slice) == Offered(samples, hash, slice)
    ensures SliceOf(sample) == slice ==>
              Offered(samples + [sample], hash, slice) == Offered(samples, hash, slice) + multiset{hash(sample)}
  {
    assert (samples + [sample])[..|samples|] == samples;
  }

  /** The picks of a slice, none if nothing was offered to it. */
  function Picks(bins: map<int, seq<Pick>>, slice: int): seq<Pick> {
    if slice in bins then bins[slice] else []
  }

  ghost predicate BinsOk(bins: map<int, seq<Pick>>, samples: seq<BatchSample>, hash: BatchSample -> nat, cap: nat) {
    forall slice :: BinOk(Picks(bins, slice), samples, hash, slice, cap)
  }

  lemma NothingOffered(hash: BatchSample -> nat, cap: nat)
    ensures BinsOk(map[], [], hash, cap)
  {
    assert Hashes([]) == [];
    forall slice ensures BinOk([], [], hash, slice, cap) {
      assert Offered([], hash, slice) == multiset{};
    }
  }

  lemma OtherSlice(picks: seq<Pick>, samples: seq<BatchSample>, sample: BatchSample, hash: BatchSample -> nat,
                   slice: int, cap: nat)
    requires BinOk(picks, samples, hash, slice, cap) && SliceOf(sample) != slice
    ensures BinOk(picks, samples + [sample], hash, slice, cap)
  {
    OneMoreOffered(samples, sample, hash, slice);
  }

  lemma HashesPush(picks: seq<Pick>, pick: Pick)
    ensures multiset(Hashes(picks + [pick])) == multiset(Hashes(picks)) + multiset{pick.hash}
  {
    assert Hashes(picks + [pick]) == Hashes(picks) + [pick.hash];
  }

  lemma HashesReplace(picks: seq<Pick>, i: nat, pick: Pick)
    requires i < |picks|
    ensures picks[i].hash in multiset(Hashes(picks))
    ensures multiset(Hashes(picks[i := pick]))
        == multiset(Hashes(picks)) - multiset{picks[i].hash} + multiset{pick.hash}
  {
    assert Hashes(picks)[i] in Hashes(picks);
    assert Hashes(picks[i := pick]) == Hashes(picks)[i := pick.hash];
  }

  lemma PickAdded(picks: seq<Pick>, samples: seq<BatchSample>, sample: BatchSample, hash: BatchSample -> nat,
                  slice: int, cap: nat)
    requires BinOk(picks, samples, hash, slice, cap) && SliceOf(sample) == slice && |picks| < cap
    ensures BinOk(picks + [Pick(hash(sample), sample)], samples + [sample], hash, slice, cap)
  {
    OneMoreOffered(samples, sample, hash, slice);
    HashesPush(picks, Pick(hash(sample), sample));
    BottomRoom(multiset(Hashes(picks)), Offered(samples, hash, slice), cap, hash(sample));
  }

  ghost predicate IsWorst(picks: seq<Pick>, i: nat) {
    i < |picks| && forall k :: 0 <= k < |picks| ==> picks[k].hash <= picks[i].hash
  }

  lemma PickRefused(picks: seq<Pick>, samples: seq<BatchSample>, sample: BatchSample, hash: BatchSample -> nat,
                    slice: int, cap: nat, worst: nat)
    requires BinOk(picks, samples, hash, slice, cap) && SliceOf(sample) == slice && |picks| == cap
    requires IsWorst(picks, worst) && hash(sample) >= picks[worst].hash
    ensures BinOk(picks, samples + [sample], hash, slice, cap)
  {
    OneMoreOffered(samples, sample, hash, slice);
    BottomKeep(multiset(Hashes(picks)), Offered(samples, hash, slice), cap, hash(sample));
  }

  lemma PickReplaced(picks: seq<Pick>, samples: seq<BatchSample>, sample: BatchSample, hash: BatchSample -> nat,
                     slice: int, cap: nat, worst: nat)
    requires BinOk(picks, samples, hash, slice, cap) && SliceOf(sample) == slice && |picks| == cap
    requires IsWorst(picks, worst) && hash(sample) < picks[worst].hash
    ensures BinOk(picks[worst := Pick(hash(sample), sample)], samples + [sample], hash, slice, cap)
  {
    OneMoreOffered(samples, sample, hash, slice);
    HashesReplace(picks, worst, Pick(hash(sample), sample));
    forall k | k in multiset(Hashes(picks)) ensures k <= picks[worst].hash {
      assert k in Hashes(picks);
    }
    BottomReplace(multiset(Hashes(picks)), Offered(samples, hash, slice), cap, picks[worst].hash, hash(sample));
  }

  method WorstPick(picks: seq<Pick>) returns (worst: nat)
    requires picks != []
    ensures IsWorst(picks, worst)
  {
    worst := 0;
    var worstHash := picks[0].hash;
    for i := 1 to |picks|
      invariant worst < |picks| && worstHash == picks[worst].hash
      invariant forall k :: 0 <= k < i ==> picks[k].hash <= worstHash
    {
      if picks[i].hash > worstHash {
        worstHash := picks[i].hash;
        worst := i;
      }
    }
  }

  /** The picks of a slice after one more sample for it: kept when there is room or when it beats the worst. */
  method Offer(picks: seq<Pick>, sample: BatchSample, hash: BatchSample -> nat, cap: nat,
               ghost samples: seq<BatchSample>, ghost slice: int)
    returns (kept: seq<Pick>)
    requires cap >= 1 && BinOk(picks, samples, hash, slice, cap) && SliceOf(sample) == slice
    ensures BinOk(kept, samples + [sample], hash, slice, cap)
  {
    var h := hash(sample);
    if |picks| < cap {
      PickAdded(picks, samples, sample, hash, slice, cap);
      return picks + [Pick(h, sample)];
    }
    var worst := WorstPick(picks);
    if h < picks[worst].hash {
      PickReplaced(picks, samples, sample, hash, slice, cap, worst);
      return picks[worst := Pick(h, sample)];
    }
    PickRefused(picks, samples, sample, hash, slice, cap, worst);
    return picks;
  }

  lemma BinsAfter(bins: map<int, seq<Pick>>, samples: seq<BatchSample>, sample: BatchSample, hash: BatchSample -> nat,
                  cap: nat, picks: seq<Pick>)
    requires BinsOk(bins, samples, hash, cap)
    requires BinOk(picks, samples + [sample], hash, SliceOf(sample), cap)
    ensures BinsOk(bins[SliceOf(sample) := picks], samples + [sample], hash, cap)
  {
    var after := bins[SliceOf(sample) := picks];
    forall slice ensures BinOk(Picks(after, slice), samples + [sample], hash, slice, cap) {
      if slice != SliceOf(sample) {
        OtherSlice(Picks(bins, slice), samples, sample, hash, slice, cap);
      }
    }
  }

  class BatchTimeSliceSampler {
    const perSliceCap: nat
    const hash: BatchSample -> nat
    var bins: map<int, seq<Pick>>
    ghost var samples: seq<BatchSample>

    ghost predicate Valid()
      reads this
    {
      perSliceCap >= 1 && BinsOk(bins, samples, hash, perSliceCap)
    }

    /** The cap shares 85 percent of the budget among the planned slices, but keeps at least one each. */
    constructor (limit: nat, plannedSeconds: real, hash: BatchSample -> nat)
      ensures Valid() && samples == [] && this.hash == hash
      ensures perSliceCap > 1 ==>
                (perSliceCap * EstimatedSlices(plannedSeconds)) as real <= limit as real * 0.85
      ensures ((perSliceCap + 1) * EstimatedSlices(plannedSeconds)) as real > limit as real * 0.85
    {
      var cappedBudget := Max(1, (limit as real * 0.85).Floor);
      perSliceCap := Max(1, cappedBudget / EstimatedSlices(plannedSeconds));
      this.hash := hash;
      bins := map[];
      samples := [];
      new;
      NothingOffered(this.hash, perSliceCap);
    }

    /** Offers one sample: it is kept when there is room or when it beats the largest kept hash. */
    method Add(sample: BatchSample)
      requires Valid()
      modifies this
      ensures Valid() && samples == old(samples) + [sample]
    {
      var slice := SliceOf(sample);
      var picks := Offer(Picks(bins, slice), sample, hash, perSliceCap, samples, slice);
      BinsAfter(bins, samples, sample, hash, perSliceCap, picks);
      bins := bins[slice := picks];
      samples := samples + [sample];
    }
  }

  // ---------------------------------------------------------------- order does not matter

  lemma {:induction false} OfferedConcat(a: seq<BatchSample>, b: seq<BatchSample>, hash: BatchSample -> nat, slice: int)
    ensures Offered(a + b, hash, slice) == Offered(a, hash, slice) + Offered(b, hash, slice)
    decreases |b|
  {
    if b == [] {
      assert a + b == a;
    } else {
      assert (a + b)[..|a + b| - 1] == a + b[..|b| - 1];
      OfferedConcat(a, b[..|b| - 1], hash, slice);
    }
  }

  ghost function Given(sample: BatchSample, hash: BatchSample -> nat, slice: int): multiset<nat> {
    if SliceOf(sample) == slice then multiset{hash(sample)} else multiset{}
  }

  lemma OfferedWithout(b: seq<BatchSample>, k: nat, hash: BatchSample -> nat, slice: int)
    requires k < |b|
    ensures multiset(b[..k] + b[k + 1..]) == multiset(b) - multiset{b[k]}
    ensures Offered(b, hash, slice) == Offered(b[..k] + b[k + 1..], hash, slice) + Given(b[k], hash, slice)
  {
    var left, right := b[..k], b[k + 1..];
    assert b == left + [b[k]] + right;
    OfferedConcat(left, right, hash, slice);
    OfferedConcat(left + [b[k]], right, hash, slice);
    OneMoreOffered(left, b[k], hash, slice);
  }

  lemma {:induction false} OfferedIgnoresOrder(a: seq<BatchSample>, b: seq<BatchSample>,
                                                 hash: BatchSample -> nat, slice: int)
    requires multiset(a) == multiset(b)
    ensures Offered(a, hash, slice) == Offered(b, hash, slice)
    decreases |a|
  {
    if a == [] {
      assert |multiset(a)| == |multiset(b)|;
    } else {
      var last := a[|a| - 1];
      assert last in multiset(b);
      var k :| 0 <= k < |b| && b[k] == last;
      var a', b' := a[..|a| - 1] + a[|a| - 1 + 1..], b[..k] + b[k + 1..];
      OfferedWithout(a, |a| - 1, hash, slice);
      OfferedWithout(b, k, hash, slice);
      OfferedIgnoresOrder(a', b', hash, slice);
    }
  }

  /** Main result: two samplers with the same cap that were offered the same samples keep the same hashes. */
  lemma KeptIgnoresOrder(a: seq<Pick>, b: seq<Pick>, samplesA: seq<BatchSample>, samplesB: seq<BatchSample>,
                         hash: BatchSample -> nat, slice: int, cap: nat)
    requires BinOk(a, samplesA, hash, slice, cap) && BinOk(b, samplesB, hash, slice, cap)
    requires multiset(samplesA) == multiset(samplesB)
    ensures multiset(Hashes(a)) == multiset(Hashes(b))
  {
    OfferedIgnoresOrder(samplesA, samplesB, hash, slice);
    BottomIsUnique(multiset(Hashes(a)), multiset(Hashes(b)), Offered(samplesA, hash, slice), cap);
  }
}
