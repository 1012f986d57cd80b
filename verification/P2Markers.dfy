/**
 The P-square quantile sketch over exact reals: five markers with heights, positions and desired
 positions. This is the specification; P2Quantile has the code that updates arrays in place.
 */
module P2Markers {
  import opened Prelude
  import opened RealSeqs

  datatype Markers = Markers(x: seq<real>, n: seq<int>, np: seq<real>)

  /** Before the fifth observation the sketch only collects. */
  datatype Sketch = Collecting(init: seq<real>) | Tracking(m: Markers)

  type Quantile = q: real | 0.0 < q < 1.0 witness 0.5

  function Dn(q: real): seq<real> {
    [0.0, q / 2.0, q, (1.0 + q) / 2.0, 1.0]
  }

  // ---------------------------------------------------------------- one observation

  /** Where a marker with increment dn should be after count observations. */
  function Desired(count: int, dn: real): real {
    1.0 + (count - 1) as real * dn
  }

  lemma DesiredNext(count: int, dn: real)
    ensures Desired(count + 1, dn) == Desired(count, dn) + dn
  {
    var c := (count - 1) as real;
    assert (c + 1.0) * dn == c * dn + dn;
  }

  ghost predicate Five(m: Markers) {
    |m.x| == 5 && |m.n| == 5 && |m.np| == 5
  }

  ghost predicate Increasing(n: seq<int>) {
    forall i, j :: 0 <= i < j < |n| ==> n[i] < n[j]
  }

  /** The cell the value falls into, after the extreme markers have been widened to contain it. */
  function Cell(x: seq<real>, v: real): nat
    requires |x| == 5
  {
    if v < x[1] then 0 else if v < x[2] then 1 else if v < x[3] then 2 else 3
  }

  function Widen(x: seq<real>, v: real): seq<real>
    requires |x| == 5
  {
    if v < x[0] then x[0 := v]
    else if v < x[1] || v < x[2] || v < x[3] || v < x[4] then x
    else x[4 := v]
  }

  function Place(m: Markers, q: real, v: real): (r: Markers)
    requires Five(m)
    ensures Five(r)
  {
    var k := if v < m.x[0] then 0 else Cell(m.x, v);
    Markers(Widen(m.x, v),
            seq(5, i requires 0 <= i < 5 => if i > k then m.n[i] + 1 else m.n[i]),
            seq(5, i requires 0 <= i < 5 => m.np[i] + Dn(q)[i]))
  }

  /** The part of the correction that one neighbour gives: its gap in height over its gap in position. */
  function Share(d: real, reach: real, gap: real, g: real): real
    requires g != 0.0
  {
    (d * reach * gap) / g
  }

  /** The parabola's correction, from the gaps in position (l, r, l and r together) and in height. */
  function Bend(d: real, l: real, r: real, w: real, up: real, down: real): real
    requires l != 0.0 && r != 0.0 && w != 0.0
  {
    (Share(d, l + d, up, r) + Share(d, r - d, down, l)) / w
  }

  function Parabolic(i: nat, d: int, x: seq<real>, n: seq<int>): real
    requires 1 <= i <= 3 && |x| == 5 && |n| == 5
    requires n[i - 1] < n[i] < n[i + 1]
  {
    x[i] + Bend(d as real, (n[i] - n[i - 1]) as real, (n[i + 1] - n[i]) as real, (n[i + 1] - n[i - 1]) as real,
                x[i + 1] - x[i], x[i] - x[i - 1])
  }

  /** The straight line's correction, from the gap in position and in height. */
  function Chord(d: real, g: real, gap: real): real
    requires g != 0.0
  {
    (d * gap) / g
  }

  function Linear(i: nat, d: int, x: seq<real>, n: seq<int>): real
    requires 1 <= i <= 3 && (d == 1 || d == -1) && |x| == 5 && |n| == 5
    requires n[i + d] != n[i]
  {
    x[i] + Chord(d as real, (n[i + d] - n[i]) as real, x[i + d] - x[i])
  }

  /** Which way marker i moves, if at all: it is a whole position off, and there is room. */
  function Move(m: Markers, i: nat): int
    requires Five(m) && 1 <= i <= 3
  {
    var d := m.np[i] - m.n[i] as real;
    if d >= 1.0 && m.n[i + 1] - m.n[i] > 1 then 1
    else if d <= -1.0 && m.n[i - 1] - m.n[i] < -1 then -1
    else 0
  }

  function MovedHeight(i: nat, d: int, x: seq<real>, n: seq<int>): real
    requires 1 <= i <= 3 && (d == 1 || d == -1) && |x| == 5 && |n| == 5 && Increasing(n)
  {
    var qHat := Parabolic(i, d, x, n);
    if x[i - 1] < qHat < x[i + 1] then qHat else Linear(i, d, x, n)
  }

  function Adjust(m: Markers, i: nat): (r: Markers)
    requires Five(m) && 1 <= i <= 3 && Increasing(m.n)
    ensures Five(r) && Increasing(r.n)
  {
    var d := Move(m, i);
    if d == 0 then m
    else m.(x := m.x[i := MovedHeight(i, d, m.x, m.n)], n := m.n[i := m.n[i] + d])
  }

  lemma PlaceKeepsOrder(m: Markers, q: real, v: real)
    requires Five(m) && Increasing(m.n)
    ensures Increasing(Place(m, q, v).n)
  {
  }

  function Observe(m: Markers, q: real, v: real): (r: Markers)
    requires Five(m) && Increasing(m.n)
    ensures Five(r) && Increasing(r.n)
  {
    PlaceKeepsOrder(m, q, v);
    Adjust(Adjust(Adjust(Place(m, q, v), 1), 2), 3)
  }

  function Start(q: real, init: seq<real>): (r: Markers)
    requires |init| == 5
    ensures Five(r) && Increasing(r.n)
  {
    Markers(Sort(init), [1, 2, 3, 4, 5], [1.0, 1.0 + 2.0 * q, 1.0 + 4.0 * q, 3.0 + 2.0 * q, 5.0])
  }

  ghost predicate Usable(s: Sketch) {
    match s
    case Collecting(init) => |init| < 5
    case Tracking(m) => Five(m) && Increasing(m.n)
  }

  function Add(q: real, s: Sketch, v: real): (r: Sketch)
    requires Usable(s)
    ensures Usable(r)
  {
    match s
    case Collecting(init) => if |init| < 4 then Collecting(init + [v]) else Tracking(Start(q, init + [v]))
    case Tracking(m) => Tracking(Observe(m, q, v))
  }

  /** The sketch after a sequence of observations. */
  function After(q: real, values: seq<real>): (s: Sketch)
    ensures Usable(s)
  {
    if values == [] then Collecting([]) else Add(q, After(q, values[..|values| - 1]), values[|values| - 1])
  }

  /** The estimate: exact while collecting, then the height of the middle marker. */
  function Estimate(q: Quantile, s: Sketch): Option<real>
    requires Usable(s)
  {
    match s
    case Tracking(m) => Some(m.x[2])
    case Collecting(init) => if init == [] then None else Some(Interpolate(q, Sort(init)))
  }

  function Interpolate(q: Quantile, sorted: seq<real>): real
    requires sorted != []
  {
    var pos := Position(|sorted|, q);
    PositionInRange(|sorted|, q);
    var base := pos.Floor;
    var next := if base + 1 < |sorted| then sorted[base + 1] else sorted[base];
    Between(sorted[base], next, pos - base as real)
  }

  /** Where the quantile falls among len sorted values. */
  function Position(len: nat, q: Quantile): real {
    (len - 1) as real * q
  }

  function Between(lo: real, hi: real, rest: real): real {
    lo + rest * (hi - lo)
  }

  lemma PartOf(c: real, q: real)
    requires c >= 0.0 && 0.0 <= q <= 1.0
    ensures 0.0 <= c * q <= c
  {
    MulNonNegative(c, q);
    MulNonNegative(c, 1.0 - q);
    assert c * (1.0 - q) == c - c * q;
  }

  lemma PositionInRange(len: nat, q: Quantile)
    requires len > 0
    ensures 0 <= Position(len, q).Floor < len
  {
    PartOf((len - 1) as real, q);
  }
}
