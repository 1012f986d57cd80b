/**
 What the sketch computes when it moves a marker: the parabola through the marker and its neighbours, or
 else the line to the neighbour it moves towards; and, while it collects, the quantile itself.
 */
module P2Interpolation {
  import opened Prelude
  import opened RealSeqs
  import opened P2Markers
  import opened P2Invariants

  function Curve(a: real, b: real, c: real, t: real): real {
    a * (t * t) + b * t + c
  }

  /** Marker i and both its neighbours lie on the parabola. */
  ghost predicate OnCurve(a: real, b: real, c: real, i: nat, x: seq<real>, n: seq<int>)
    requires 1 <= i <= 3 && |x| == 5 && |n| == 5
  {
    && x[i - 1] == Curve(a, b, c, n[i - 1] as real)
    && x[i] == Curve(a, b, c, n[i] as real)
    && x[i + 1] == Curve(a, b, c, n[i + 1] as real)
  }

  /** From p on, the parabola climbs by this much over a distance of d. */
  lemma Climb(a: real, b: real, c: real, p: real, d: real)
    ensures Curve(a, b, c, p + d) - Curve(a, b, c, p) == d * (2.0 * a * p + b + a * d)
  {
    assert (p + d) * (p + d) == p * p + 2.0 * (p * d) + d * d;
    assert a * (p * p + 2.0 * (p * d) + d * d) == a * (p * p) + 2.0 * (a * (p * d)) + a * (d * d);
    assert b * (p + d) == b * p + b * d;
    assert d * (2.0 * a * p + b + a * d) == 2.0 * (a * (p * d)) + b * d + a * (d * d) by {
      assert d * (2.0 * a * p) == 2.0 * (a * (p * d));
      assert d * (a * d) == a * (d * d);
    }
  }

  /** The two terms of the correction, weighted: the mean slope, and the curvature over the distance. */
  lemma WeightedTerms(d: real, l: real, r: real, w: real, a: real, s: real)
    requires w == l + r
    ensures d * (l + d) * (s + a * r) + d * (r - d) * (s - a * l) == (d * (s + a * d)) * w
  {
    var p, m := d * (l + d), d * (r - d);
    assert p == d * l + d * d && m == d * r - d * d;
    assert p * (s + a * r) == p * s + a * (p * r) && m * (s - a * l) == m * s - a * (m * l);
    assert p * r == (d * l) * r + (d * d) * r && m * l == (d * r) * l - (d * d) * l;
    assert p * s + m * s == (d * s) * (l + r);
    assert a * (p * r) - a * (m * l) == a * ((d * d) * (l + r));
    assert (d * (s + a * d)) * (l + r) == (d * s) * (l + r) + a * ((d * d) * (l + r));
  }

  /** When the heights lie on a parabola, with slope s at the marker, the correction is the parabola's. */
  lemma BendOfCurve(d: real, l: real, r: real, w: real, up: real, down: real, a: real, s: real)
    requires l != 0.0 && r != 0.0 && w == l + r && w != 0.0
    requires up == r * (s + a * r) && down == l * (s - a * l)
    ensures Bend(d, l, r, w, up, down) == d * (s + a * d)
  {
    BendParts(d, l, r, w, up, down, l + d, r - d, s + a * r, s - a * l, d * (s + a * d)) by {
      WeightedTerms(d, l, r, w, a, s);
    }
  }

  lemma BendParts(d: real, l: real, r: real, w: real, up: real, down: real, e: real, f: real, j: real, k: real,
                  t: real)
    requires l != 0.0 && r != 0.0 && w != 0.0
    requires e == l + d && f == r - d && up == r * j && down == l * k
    requires d * e * j + d * f * k == t * w
    ensures Bend(d, l, r, w, up, down) == t
  {
    ShareOfSlope(d, e, up, r, j);
    ShareOfSlope(d, f, down, l, k);
    QuotientUnique(d * e * j + d * f * k, w, t);
  }

  lemma ShareOfSlope(d: real, reach: real, gap: real, g: real, slope: real)
    requires g != 0.0 && gap == g * slope
    ensures Share(d, reach, gap, g) == d * reach * slope
  {
    assert d * reach * gap == (d * reach * slope) * g;
    QuotientUnique(d * reach * gap, g, d * reach * slope);
  }

  lemma Slopes(a: real, b: real, c: real, p: real, l: real, r: real)
    ensures var s := 2.0 * a * p + b;
            && Curve(a, b, c, p + r) - Curve(a, b, c, p) == r * (s + a * r)
            && Curve(a, b, c, p) - Curve(a, b, c, p - l) == l * (s - a * l)
  {
    var s := 2.0 * a * p + b;
    Climb(a, b, c, p, r);
    Climb(a, b, c, p, -l);
    assert p + -l == p - l;
    assert -((-l) * (s + a * (-l))) == l * (s - a * l);
  }

  /** The parabola's formula is parabolic interpolation: the parabola through the three markers, d further. */
  lemma ParabolicFollowsCurve(a: real, b: real, c: real, i: nat, d: int, x: seq<real>, n: seq<int>)
    requires 1 <= i <= 3 && |x| == 5 && |n| == 5 && n[i - 1] < n[i] < n[i + 1]
    requires OnCurve(a, b, c, i, x, n)
    ensures Parabolic(i, d, x, n) == Curve(a, b, c, (n[i] + d) as real)
  {
    var p, l, r := n[i] as real, (n[i] - n[i - 1]) as real, (n[i + 1] - n[i]) as real;
    var s := 2.0 * a * p + b;
    assert n[i + 1] as real == p + r && n[i - 1] as real == p - l && (n[i] + d) as real == p + d as real;
    Slopes(a, b, c, p, l, r);
    Climb(a, b, c, p, d as real);
    BendOfCurve(d as real, l, r, (n[i + 1] - n[i - 1]) as real, x[i + 1] - x[i], x[i] - x[i - 1], a, s);
  }

  /** There always is such a parabola, whatever the heights are: its coefficients from the divided differences. */
  lemma ThreeMarkersOnCurve(i: nat, x: seq<real>, n: seq<int>) returns (a: real, b: real, c: real)
    requires 1 <= i <= 3 && |x| == 5 && |n| == 5 && n[i - 1] < n[i] < n[i + 1]
    ensures OnCurve(a, b, c, i, x, n)
  {
    var p, l, r := n[i] as real, (n[i] - n[i - 1]) as real, (n[i + 1] - n[i]) as real;
    var up, down := (x[i + 1] - x[i]) / r, (x[i] - x[i - 1]) / l;
    assert x[i + 1] - x[i] == r * up && x[i] - x[i - 1] == l * down;
    a, b, c := CurveWithSlopes(p, l, r, up, down, x[i]);
    assert n[i + 1] as real == p + r && n[i - 1] as real == p - l;
  }

  lemma CurveWithSlopes(p: real, l: real, r: real, up: real, down: real, at: real) returns (a: real, b: real, c: real)
    requires l > 0.0 && r > 0.0
    ensures Curve(a, b, c, p) == at
    ensures Curve(a, b, c, p + r) - Curve(a, b, c, p) == r * up
    ensures Curve(a, b, c, p) - Curve(a, b, c, p - l) == l * down
  {
    a := (up - down) / (l + r);
    var s := down + a * l;
    b := s - 2.0 * a * p;
    c := at - a * (p * p) - b * p;
    Slopes(a, b, c, p, l, r);
    EndSlopes(a, s, l, r, up, down);
  }

  lemma EndSlopes(a: real, s: real, l: real, r: real, up: real, down: real)
    requires l > 0.0 && r > 0.0 && a == (up - down) / (l + r) && s == down + a * l
    ensures s + a * r == up && s - a * l == down
  {
    assert a * (l + r) == up - down;
    assert a * (l + r) == a * l + a * r;
  }

  /** So a move by the whole distance to a neighbour would give the neighbour's height. */
  lemma ParabolicMeetsNeighbours(i: nat, x: seq<real>, n: seq<int>)
    requires 1 <= i <= 3 && |x| == 5 && |n| == 5 && n[i - 1] < n[i] < n[i + 1]
    ensures Parabolic(i, n[i + 1] - n[i], x, n) == x[i + 1]
    ensures Parabolic(i, n[i - 1] - n[i], x, n) == x[i - 1]
    ensures Parabolic(i, 0, x, n) == x[i]
  {
    var a, b, c := ThreeMarkersOnCurve(i, x, n);
    ParabolicFollowsCurve(a, b, c, i, n[i + 1] - n[i], x, n);
    ParabolicFollowsCurve(a, b, c, i, n[i - 1] - n[i], x, n);
    ParabolicFollowsCurve(a, b, c, i, 0, x, n);
  }

  // ---------------------------------------------------------------- the line

  function Line(slope: real, c: real, t: real): real {
    slope * t + c
  }

  ghost predicate OnLine(slope: real, c: real, i: nat, j: nat, x: seq<real>, n: seq<int>)
    requires i < |x| == |n| && j < |n|
  {
    x[i] == Line(slope, c, n[i] as real) && x[j] == Line(slope, c, n[j] as real)
  }

  lemma LinearFollowsLine(slope: real, c: real, i: nat, d: int, x: seq<real>, n: seq<int>)
    requires 1 <= i <= 3 && (d == 1 || d == -1) && |x| == 5 && |n| == 5 && n[i + d] != n[i]
    requires OnLine(slope, c, i, i + d, x, n)
    ensures Linear(i, d, x, n) == Line(slope, c, (n[i] + d) as real)
  {
    var g, gap := (n[i + d] - n[i]) as real, x[i + d] - x[i];
    assert gap == slope * g;
    assert d as real * gap == (d as real * slope) * g;
    QuotientUnique(d as real * gap, g, d as real * slope);
    assert (n[i] + d) as real == n[i] as real + d as real;
  }

  // ---------------------------------------------------------------- a move

  /**
   The height of marker i after a move by d, without the formulas: the parabola's through the three
   markers when that lies between the neighbours' heights, or else the line's to the neighbour ahead.
   */
  ghost predicate Interpolated(i: nat, d: int, x: seq<real>, n: seq<int>, height: real)
    requires 1 <= i <= 3 && (d == 1 || d == -1) && |x| == 5 && |n| == 5
  {
    var ahead, t := i + d, (n[i] + d) as real;
    forall a, b, c, slope, c' :: OnCurve(a, b, c, i, x, n) && OnLine(slope, c', i, ahead, x, n) ==>
      height == if x[i - 1] < Curve(a, b, c, t) < x[i + 1] then Curve(a, b, c, t) else Line(slope, c', t)
  }

  lemma MovedHeightInterpolates(i: nat, d: int, x: seq<real>, n: seq<int>)
    requires 1 <= i <= 3 && (d == 1 || d == -1) && |x| == 5 && |n| == 5 && Increasing(n)
    ensures Interpolated(i, d, x, n, MovedHeight(i, d, x, n))
  {
    var ahead, t := i + d, (n[i] + d) as real;
    forall a, b, c, slope, c' | OnCurve(a, b, c, i, x, n) && OnLine(slope, c', i, ahead, x, n)
      ensures MovedHeight(i, d, x, n)
           == if x[i - 1] < Curve(a, b, c, t) < x[i + 1] then Curve(a, b, c, t) else Line(slope, c', t)
    {
      ParabolicFollowsCurve(a, b, c, i, d, x, n);
      LinearFollowsLine(slope, c', i, d, x, n);
    }
  }

  // ---------------------------------------------------------------- while collecting

  lemma Weighted(lo: real, hi: real, rest: real)
    ensures Between(lo, hi, rest) == (1.0 - rest) * lo + rest * hi
  {
  }

  /** The value that lies base whole steps and a rest above the smallest. */
  function ReadOff(sorted: seq<real>, base: nat, rest: real): real
    requires base < |sorted| && (rest > 0.0 ==> base + 1 < |sorted|)
  {
    if rest > 0.0 then (1.0 - rest) * sorted[base] + rest * sorted[base + 1] else sorted[base]
  }

  lemma InterpolateReads(q: Quantile, len: nat, sorted: seq<real>, base: nat, rest: real)
    requires 0 < len == |sorted| && (len - 1) as real * q == base as real + rest && 0.0 <= rest < 1.0
    ensures base < len && (rest > 0.0 ==> base + 1 < len)
    ensures Interpolate(q, sorted) == ReadOff(sorted, base, rest)
  {
    PositionInRange(len, q);
    PartOf((len - 1) as real, q);
    assert Position(len, q).Floor == base;
    assert base as real + rest <= (len - 1) as real;
    if rest > 0.0 {
      assert base < len - 1;
      Weighted(sorted[base], sorted[base + 1], rest);
    }
  }

  /** Up to four values: the estimate is read off their sorted sequence where the quantile falls. */
  lemma ExactWhileCollecting(q: Quantile, values: seq<real>, base: nat, rest: real)
    requires 0 < |values| < 5 && (|values| - 1) as real * q == base as real + rest && 0.0 <= rest < 1.0
    ensures base < |values| && (rest > 0.0 ==> base + 1 < |values|)
    ensures Estimate(q, After(q, values)) == Some(ReadOff(Sort(values), base, rest))
  {
    InterpolateReads(q, |values|, Sort(values), base, rest);
    CollectingKeepsAll(q, values);
  }

  // ---------------------------------------------------------------- one run by hand

  lemma StepTo(q: real, values: seq<real>, v: real, m: Markers)
    requires After(q, values) == Tracking(m) && Five(m) && Increasing(m.n)
    ensures After(q, values + [v]) == Tracking(Observe(m, q, v))
  {
    assert (values + [v])[..|values|] == values;
  }

  /** The median's markers after a value in the first cell. */
  lemma PlacedAt(m: Markers, v: real, m': Markers)
    requires Five(m) && Five(m') && m.x[0] <= v < m.x[1] && m'.x == m.x
    requires forall i :: 0 <= i < 5 ==> m'.n[i] == m.n[i] + if i > 0 then 1 else 0
    requires forall i :: 0 <= i < 5 ==> m'.np[i] == m.np[i] + i as real * 0.25
    ensures Place(m, 0.5, v) == m'
  {
    assert forall i :: 0 <= i < 5 ==> Dn(0.5)[i] == i as real * 0.25;
    assert Place(m, 0.5, v).np == m'.np;
    assert Place(m, 0.5, v).n == m'.n;
  }

  const FIVE: seq<real> := [0.0, 2.0, 3.0, 9.0, 16.0]
  const M5 := Markers(FIVE, [1, 2, 3, 4, 5], [1.0, 2.0, 3.0, 4.0, 5.0])
  const M6 := Markers(FIVE, [1, 3, 4, 5, 6], [1.0, 2.25, 3.5, 4.75, 6.0])
  const M7 := Markers(FIVE, [1, 4, 5, 6, 7], [1.0, 2.5, 4.0, 5.5, 7.0])
  const ONE_MOVED := M7.(x := [0.0, 7.0 / 6.0, 3.0, 9.0, 16.0], n := [1, 3, 5, 6, 7])
  const TWO_MOVED := M7.(x := [0.0, 7.0 / 6.0, 25.0 / 12.0, 9.0, 16.0], n := [1, 3, 4, 6, 7])

  lemma FiveByHand()
    ensures After(0.5, FIVE) == Tracking(M5)
  {
    CollectingKeepsAll(0.5, FIVE[..4]);
    assert FIVE == FIVE[..4] + [16.0];
    assert Sort(FIVE) == FIVE;
    assert Start(0.5, FIVE) == M5;
  }

  lemma SixByHand()
    ensures After(0.5, FIVE + [0.5]) == Tracking(M6)
  {
    FiveByHand();
    StepTo(0.5, FIVE, 0.5, M5);
    PlacedAt(M5, 0.5, M6);
    assert Move(M6, 1) == 0 && Move(M6, 2) == 0 && Move(M6, 3) == 0;
  }

  lemma FirstMarkerByHand()
    ensures Adjust(M7, 1) == ONE_MOVED
  {
    assert Move(M7, 1) == -1;
    assert Parabolic(1, -1, M7.x, M7.n) == 7.0 / 6.0;
  }

  lemma SecondMarkerByHand()
    ensures Adjust(ONE_MOVED, 2) == TWO_MOVED
  {
    assert Move(ONE_MOVED, 2) == -1;
    assert Parabolic(2, -1, ONE_MOVED.x, ONE_MOVED.n) == 7.0 / 18.0;
    assert Linear(2, -1, ONE_MOVED.x, ONE_MOVED.n) == 25.0 / 12.0;
  }

  lemma SeventhByHand()
    ensures Observe(M6, 0.5, 0.6) == Adjust(TWO_MOVED, 3)
  {
    PlacedAt(M6, 0.6, M7);
    FirstMarkerByHand();
    SecondMarkerByHand();
  }

  /** Seven observations of a median: one marker moves along its parabola, the next along its line. */
  lemma SevenByHand()
    ensures Estimate(0.5, After(0.5, FIVE + [0.5] + [0.6])) == Some(25.0 / 12.0)
  {
    SixByHand();
    SeventhByHand();
    StepTo(0.5, FIVE + [0.5], 0.6, M6);
    OtherHeightsStay(TWO_MOVED, 3, 2);
  }

  lemma OtherHeightsStay(m: Markers, i: nat, j: nat)
    requires Five(m) && Increasing(m.n) && 1 <= i <= 3 && j < 5 && j != i
    ensures Adjust(m, i).x[j] == m.x[j]
  {
  }
}
