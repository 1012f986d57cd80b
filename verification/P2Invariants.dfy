/**
 What every sequence of observations keeps: markers in order, positions exact, extremes exact, and
 therefore an estimate between the smallest and the largest value seen.
 */
module P2Invariants {
  import opened P2Markers
  import opened RealSeqs

  /** Heights sorted, positions strictly increasing from 1 to the count, desired positions as designed. */
  ghost predicate Inv(q: real, values: seq<real>, m: Markers) {
    && Five(m)
    && Sorted(m.x)
    && Increasing(m.n) && m.n[0] == 1 && m.n[4] == |values|
    && (forall i :: 0 <= i < 5 ==> m.np[i] == Desired(|values|, Dn(q)[i]))
    && IsMin(m.x[0], values) && IsMax(m.x[4], values)
  }

  lemma DivNonPositive(a: real, b: real)
    requires a <= 0.0 && b > 0.0
    ensures a / b <= 0.0
  {
  }

  lemma NegatedProduct(a: real, b: real)
    requires a >= 0.0 && b >= 0.0
    ensures (-1.0 * a) * b <= 0.0
  {
    MulNonNegative(a, b);
    assert (-1.0 * a) * b == -(a * b);
  }

  lemma QuotientsNonNegative(a: real, b: real, l: real, r: real, w: real)
    requires a >= 0.0 && b >= 0.0 && l > 0.0 && r > 0.0 && w > 0.0
    ensures (a / r + b / l) / w >= 0.0
  {
    DivNonNegative(a, r);
    DivNonNegative(b, l);
    DivNonNegative(a / r + b / l, w);
  }

  lemma QuotientsNonPositive(a: real, b: real, l: real, r: real, w: real)
    requires a <= 0.0 && b <= 0.0 && l > 0.0 && r > 0.0 && w > 0.0
    ensures (a / r + b / l) / w <= 0.0
  {
    DivNonPositive(a, r);
    DivNonPositive(b, l);
    DivNonPositive(a / r + b / l, w);
  }

  /** The correction has the sign its two terms share. */
  lemma BendSign(d: real, l: real, r: real, w: real, up: real, down: real)
    requires l > 0.0 && r > 0.0 && w > 0.0
    ensures d * (l + d) * up >= 0.0 && d * (r - d) * down >= 0.0 ==> Bend(d, l, r, w, up, down) >= 0.0
    ensures d * (l + d) * up <= 0.0 && d * (r - d) * down <= 0.0 ==> Bend(d, l, r, w, up, down) <= 0.0
  {
    var a, b := d * (l + d) * up, d * (r - d) * down;
    if a >= 0.0 && b >= 0.0 { QuotientsNonNegative(a, b, l, r, w); }
    if a <= 0.0 && b <= 0.0 { QuotientsNonPositive(a, b, l, r, w); }
  }

  lemma BendUp(l: real, r: real, w: real, up: real, down: real)
    requires l >= 1.0 && r >= 1.0 && w > 0.0 && up >= 0.0 && down >= 0.0
    ensures Bend(1.0, l, r, w, up, down) >= 0.0
  {
    assert 1.0 * (l + 1.0) * up >= 0.0 by { MulNonNegative(l + 1.0, up); }
    assert 1.0 * (r - 1.0) * down >= 0.0 by { MulNonNegative(r - 1.0, down); }
    BendSign(1.0, l, r, w, up, down);
  }

  lemma BendDown(l: real, r: real, w: real, up: real, down: real)
    requires l >= 1.0 && r >= 1.0 && w > 0.0 && up >= 0.0 && down >= 0.0
    ensures Bend(-1.0, l, r, w, up, down) <= 0.0
  {
    assert -1.0 * (l + -1.0) * up <= 0.0 by { NegatedProduct(l - 1.0, up); }
    assert -1.0 * (r - -1.0) * down <= 0.0 by { NegatedProduct(r + 1.0, down); }
    BendSign(-1.0, l, r, w, up, down);
  }

  /** The parabola moves a height in the direction of the marker. */
  lemma ParabolicDirection(i: nat, d: int, x: seq<real>, n: seq<int>)
    requires 1 <= i <= 3 && (d == 1 || d == -1) && |x| == 5 && |n| == 5
    requires Sorted(x) && n[i - 1] < n[i] < n[i + 1]
    ensures d == 1 ==> x[i] <= Parabolic(i, d, x, n)
    ensures d == -1 ==> Parabolic(i, d, x, n) <= x[i]
  {
    var l, r, w := (n[i] - n[i - 1]) as real, (n[i + 1] - n[i]) as real, (n[i + 1] - n[i - 1]) as real;
    BendUp(l, r, w, x[i + 1] - x[i], x[i] - x[i - 1]);
    BendDown(l, r, w, x[i + 1] - x[i], x[i] - x[i - 1]);
  }

  /** A proper fraction of a gap stays inside it. */
  lemma FractionOfGap(gap: real, parts: real)
    requires gap >= 0.0 && parts >= 1.0
    ensures 0.0 <= gap / parts <= gap
  {
    DivNonNegative(gap, parts);
    assert gap == (gap / parts) * parts;
    if gap / parts > gap {
      MulNonNegative(gap / parts, parts - 1.0);
    }
  }

  lemma LinearInGap(i: nat, d: int, x: seq<real>, n: seq<int>)
    requires 1 <= i <= 3 && (d == 1 || d == -1) && |x| == 5 && |n| == 5
    requires Sorted(x) && n[i - 1] < n[i] < n[i + 1]
    ensures d == 1 ==> x[i] <= Linear(i, d, x, n) <= x[i + 1]
    ensures d == -1 ==> x[i - 1] <= Linear(i, d, x, n) <= x[i]
  {
    if d == 1 {
      FractionOfGap(x[i + 1] - x[i], (n[i + 1] - n[i]) as real);
    } else {
      var gap, parts := x[i] - x[i - 1], (n[i] - n[i - 1]) as real;
      FractionOfGap(gap, parts);
      assert -1.0 * (x[i - 1] - x[i]) == gap;
      assert (n[i - 1] - n[i]) as real == -parts;
      NegatedDivisor(gap, parts);
    }
  }

  lemma NegatedDivisor(a: real, b: real)
    requires b > 0.0
    ensures a / -b == -(a / b)
  {
    assert a == (a / b) * b;
    assert a == (-(a / b)) * -b;
  }

  /** An up move never lowers a height, a down move never raises it, and neither leaves its neighbours. */
  lemma MovedHeightInOrder(i: nat, d: int, x: seq<real>, n: seq<int>)
    requires 1 <= i <= 3 && (d == 1 || d == -1) && |x| == 5 && |n| == 5
    requires Sorted(x) && Increasing(n)
    ensures x[i - 1] <= MovedHeight(i, d, x, n) <= x[i + 1]
    ensures d == 1 ==> x[i] <= MovedHeight(i, d, x, n)
    ensures d == -1 ==> MovedHeight(i, d, x, n) <= x[i]
  {
    ParabolicDirection(i, d, x, n);
    LinearInGap(i, d, x, n);
  }

  lemma AdjustKeeps(q: real, values: seq<real>, m: Markers, i: nat)
    requires Inv(q, values, m) && 1 <= i <= 3
    ensures Inv(q, values, Adjust(m, i))
  {
    var d := Move(m, i);
    if d != 0 {
      MovedHeightInOrder(i, d, m.x, m.n);
      var x' := m.x[i := MovedHeight(i, d, m.x, m.n)];
      forall j, k | 0 <= j <= k < 5 ensures x'[j] <= x'[k] {
        assert m.x[j] <= m.x[k];
        if j == i < k { assert m.x[i + 1] <= m.x[k]; }
        if j < i == k { assert m.x[j] <= m.x[i - 1]; }
      }
      assert Adjust(m, i).x == x';
    }
  }

  lemma PlaceDesired(q: real, m: Markers, v: real, count: nat)
    requires Five(m) && forall i :: 0 <= i < 5 ==> m.np[i] == Desired(count, Dn(q)[i])
    ensures forall i :: 0 <= i < 5 ==> Place(m, q, v).np[i] == Desired(count + 1, Dn(q)[i])
  {
    forall i | 0 <= i < 5 ensures Place(m, q, v).np[i] == Desired(count + 1, Dn(q)[i]) {
      DesiredNext(count, Dn(q)[i]);
    }
  }

  lemma PlaceHeights(values: seq<real>, x: seq<real>, v: real)
    requires |x| == 5 && Sorted(x) && IsMin(x[0], values) && IsMax(x[4], values)
    ensures Sorted(Widen(x, v)) && IsMin(Widen(x, v)[0], values + [v]) && IsMax(Widen(x, v)[4], values + [v])
  {
    var r, values' := Widen(x, v), values + [v];
    assert values'[|values|] == v;
    assert x[0] in values' && x[4] in values' && v in values';
    assert x[0] <= x[1] <= x[2] <= x[3] <= x[4];
  }

  lemma PlaceKeeps(q: real, values: seq<real>, m: Markers, v: real)
    requires Inv(q, values, m)
    ensures Inv(q, values + [v], Place(m, q, v))
  {
    var r := Place(m, q, v);
    var values' := values + [v];
    PlaceKeepsOrder(m, q, v);
    PlaceDesired(q, m, v, |values|);
    PlaceHeights(values, m.x, v);
  }

  lemma ObserveKeeps(q: real, values: seq<real>, m: Markers, v: real)
    requires Inv(q, values, m)
    ensures Inv(q, values + [v], Observe(m, q, v))
  {
    PlaceKeeps(q, values, m, v);
    var m0 := Place(m, q, v);
    AdjustKeeps(q, values + [v], m0, 1);
    AdjustKeeps(q, values + [v], Adjust(m0, 1), 2);
    AdjustKeeps(q, values + [v], Adjust(Adjust(m0, 1), 2), 3);
  }

  lemma StartEstablishes(q: real, init: seq<real>)
    requires |init| == 5
    ensures Inv(q, init, Start(q, init))
  {
    SortSorts(init);
    SameValues(init, Sort(init));
    var x := Sort(init);
    assert x[0] in x && x[4] in x;
    forall k | 0 <= k < 5 ensures x[0] <= init[k] <= x[4] {
      assert init[k] in init;
      var j :| 0 <= j < 5 && x[j] == init[k];
    }
  }

  lemma {:induction false} CollectingKeepsAll(q: real, values: seq<real>)
    requires |values| < 5
    ensures After(q, values) == Collecting(values)
    decreases |values|
  {
    if values != [] {
      CollectingKeepsAll(q, values[..|values| - 1]);
      assert values == values[..|values| - 1] + [values[|values| - 1]];
    }
  }

  /** Main result: from the fifth observation on, the invariant holds after every sequence of values. */
  lemma {:induction false} InvAlways(q: real, values: seq<real>)
    requires |values| >= 5
    ensures After(q, values).Tracking? && Inv(q, values, After(q, values).m)
    decreases |values|
  {
    var init, last := values[..|values| - 1], values[|values| - 1];
    assert values == init + [last];
    if |values| == 5 {
      CollectingKeepsAll(q, init);
      StartEstablishes(q, values);
    } else {
      InvAlways(q, init);
      ObserveKeeps(q, init, After(q, init).m, last);
    }
  }

  /** Main result: at every moment the estimate lies between the smallest and the largest value seen. */
  lemma EstimateInRange(q: Quantile, values: seq<real>, least: real, greatest: real)
    requires IsMin(least, values) && IsMax(greatest, values)
    ensures Estimate(q, After(q, values)).Some?
    ensures least <= Estimate(q, After(q, values)).value <= greatest
  {
    if |values| >= 5 {
      InvAlways(q, values);
      var m := After(q, values).m;
      assert m.x[0] in values && m.x[4] in values;
    } else {
      CollectingKeepsAll(q, values);
      SortSorts(values);
      SameValues(values, Sort(values));
      InterpolateInRange(q, Sort(values), least, greatest);
    }
  }

  lemma InterpolateInRange(q: Quantile, sorted: seq<real>, least: real, greatest: real)
    requires sorted != [] && Sorted(sorted)
    requires forall v :: v in sorted ==> least <= v <= greatest
    ensures least <= Interpolate(q, sorted) <= greatest
  {
    var pos := Position(|sorted|, q);
    PositionInRange(|sorted|, q);
    var base := pos.Floor;
    var next := if base + 1 < |sorted| then sorted[base + 1] else sorted[base];
    assert sorted[base] in sorted && next in sorted;
    BetweenIsBetween(sorted[base], next, pos - base as real);
  }

  lemma BetweenIsBetween(lo: real, hi: real, rest: real)
    requires lo <= hi && 0.0 <= rest <= 1.0
    ensures lo <= Between(lo, hi, rest) <= hi
  {
    MulNonNegative(rest, hi - lo);
    MulNonNegative(1.0 - rest, hi - lo);
    assert (1.0 - rest) * (hi - lo) == (hi - lo) - rest * (hi - lo);
  }
}
