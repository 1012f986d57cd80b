/**
 Changing the unit and the origin of the observations changes the estimate the same way, and nothing
 else: the marker positions do not even notice.
 */
module P2Affine {
  import opened Prelude
  import opened P2Markers
  import opened RealSeqs

  function Affine(a: real, b: real, v: real): real {
    a * v + b
  }

  function AffineSeq(a: real, b: real, s: seq<real>): (r: seq<real>)
    ensures |r| == |s|
    ensures forall k :: 0 <= k < |s| ==> r[k] == Affine(a, b, s[k])
  {
    seq(|s|, k requires 0 <= k < |s| => Affine(a, b, s[k]))
  }

  function AffineMarkers(a: real, b: real, m: Markers): Markers {
    m.(x := AffineSeq(a, b, m.x))
  }

  function AffineSketch(a: real, b: real, s: Sketch): Sketch {
    match s
    case Collecting(init) => Collecting(AffineSeq(a, b, init))
    case Tracking(m) => Tracking(AffineMarkers(a, b, m))
  }

  lemma KeepsOrder(a: real, b: real, u: real, v: real)
    requires a > 0.0
    ensures u < v <==> Affine(a, b, u) < Affine(a, b, v)
    ensures u <= v <==> Affine(a, b, u) <= Affine(a, b, v)
  {
    if u < v { assert a * (v - u) > 0.0; }
    if v < u { assert a * (u - v) > 0.0; }
  }

  lemma Difference(a: real, b: real, u: real, v: real)
    ensures Affine(a, b, u) - Affine(a, b, v) == a * (u - v)
  {
  }

  lemma ScaledQuotient(a: real, t: real, p: real, g: real)
    requires g != 0.0 && t == a * p
    ensures t / g == a * (p / g)
  {
    var k := p / g;
    assert p == k * g;
    assert a * (k * g) == (a * k) * g;
    QuotientUnique(t, g, a * k);
  }

  lemma ScaledProduct(a: real, c: real, gap: real)
    ensures c * (a * gap) == a * (c * gap)
  {
  }

  lemma BendScales(a: real, d: real, l: real, r: real, w: real, up: real, down: real)
    requires l != 0.0 && r != 0.0 && w != 0.0
    ensures Bend(d, l, r, w, a * up, a * down) == a * Bend(d, l, r, w, up, down)
  {
    var p, p' := d * (l + d) * up, d * (l + d) * (a * up);
    var s, s' := d * (r - d) * down, d * (r - d) * (a * down);
    ScaledProduct(a, d * (l + d), up);
    ScaledProduct(a, d * (r - d), down);
    ScaledQuotient(a, p', p, r);
    ScaledQuotient(a, s', s, l);
    var sum, sum' := p / r + s / l, p' / r + s' / l;
    assert sum' == a * sum by { Distribute(a, p / r, s / l); }
    ScaledQuotient(a, sum', sum, w);
  }

  lemma Distribute(a: real, u: real, v: real)
    ensures a * u + a * v == a * (u + v)
  {
  }

  lemma SameBend(d: real, l: real, r: real, w: real, up: real, up': real, down: real, down': real)
    requires l != 0.0 && r != 0.0 && w != 0.0 && up == up' && down == down'
    ensures Bend(d, l, r, w, up, down) == Bend(d, l, r, w, up', down')
  {
  }

  lemma BendAffine(a: real, b: real, d: real, l: real, r: real, w: real, below: real, at: real, above: real)
    requires l != 0.0 && r != 0.0 && w != 0.0
    ensures Bend(d, l, r, w, Affine(a, b, above) - Affine(a, b, at), Affine(a, b, at) - Affine(a, b, below))
         == a * Bend(d, l, r, w, above - at, at - below)
  {
    var up, up' := above - at, Affine(a, b, above) - Affine(a, b, at);
    var down, down' := at - below, Affine(a, b, at) - Affine(a, b, below);
    assert up' == a * up by { Difference(a, b, above, at); }
    assert down' == a * down by { Difference(a, b, at, below); }
    BendScales(a, d, l, r, w, up, down);
    SameBend(d, l, r, w, up', a * up, down', a * down);
  }

  lemma BentAffine(a: real, b: real, d: real, l: real, r: real, w: real, below: real, at: real, above: real)
    requires l != 0.0 && r != 0.0 && w != 0.0
    ensures Affine(a, b, at)
        + Bend(d, l, r, w, Affine(a, b, above) - Affine(a, b, at), Affine(a, b, at) - Affine(a, b, below))
         == Affine(a, b, at + Bend(d, l, r, w, above - at, at - below))
  {
    BendAffine(a, b, d, l, r, w, below, at, above);
    Shifted(a, b, at, Bend(d, l, r, w, above - at, at - below));
  }

  lemma ParabolicAffine(a: real, b: real, i: nat, d: int, x: seq<real>, n: seq<int>)
    requires 1 <= i <= 3 && |x| == 5 && |n| == 5
    requires n[i - 1] < n[i] < n[i + 1]
    ensures Parabolic(i, d, AffineSeq(a, b, x), n) == Affine(a, b, Parabolic(i, d, x, n))
  {
    var l, r, w := (n[i] - n[i - 1]) as real, (n[i + 1] - n[i]) as real, (n[i + 1] - n[i - 1]) as real;
    BentAffine(a, b, d as real, l, r, w, x[i - 1], x[i], x[i + 1]);
  }

  lemma Shifted(a: real, b: real, v: real, by': real)
    ensures Affine(a, b, v + by') == Affine(a, b, v) + a * by'
  {
  }

  lemma ChordScales(a: real, d: real, g: real, gap: real)
    requires g != 0.0
    ensures Chord(d, g, a * gap) == a * Chord(d, g, gap)
  {
    ScaledProduct(a, d, gap);
    ScaledQuotient(a, d * (a * gap), d * gap, g);
  }

  lemma LinearAffine(a: real, b: real, i: nat, d: int, x: seq<real>, n: seq<int>)
    requires 1 <= i <= 3 && (d == 1 || d == -1) && |x| == 5 && |n| == 5
    requires n[i + d] != n[i]
    ensures Linear(i, d, AffineSeq(a, b, x), n) == Affine(a, b, Linear(i, d, x, n))
  {
    var x' := AffineSeq(a, b, x);
    var g, gap, gap' := (n[i + d] - n[i]) as real, x[i + d] - x[i], x'[i + d] - x'[i];
    assert gap' == a * gap by { Difference(a, b, x[i + d], x[i]); }
    ChordScales(a, d as real, g, gap);
    Shifted(a, b, x[i], Chord(d as real, g, gap));
  }

  lemma AdjustAffine(a: real, b: real, m: Markers, i: nat)
    requires a > 0.0 && Five(m) && Increasing(m.n) && 1 <= i <= 3
    ensures Adjust(AffineMarkers(a, b, m), i) == AffineMarkers(a, b, Adjust(m, i))
  {
    var d := Move(m, i);
    assert Move(AffineMarkers(a, b, m), i) == d;
    if d != 0 {
      var qHat := Parabolic(i, d, m.x, m.n);
      ParabolicAffine(a, b, i, d, m.x, m.n);
      LinearAffine(a, b, i, d, m.x, m.n);
      KeepsOrder(a, b, m.x[i - 1], qHat);
      KeepsOrder(a, b, qHat, m.x[i + 1]);
      var h := MovedHeight(i, d, m.x, m.n);
      assert MovedHeight(i, d, AffineSeq(a, b, m.x), m.n) == Affine(a, b, h);
      assert AffineSeq(a, b, m.x)[i := Affine(a, b, h)] == AffineSeq(a, b, m.x[i := h]);
    }
  }

  lemma PlaceAffine(a: real, b: real, m: Markers, q: real, v: real)
    requires a > 0.0 && Five(m)
    ensures Place(AffineMarkers(a, b, m), q, Affine(a, b, v)) == AffineMarkers(a, b, Place(m, q, v))
  {
    forall k | 0 <= k < 5 ensures v < m.x[k] <==> Affine(a, b, v) < AffineSeq(a, b, m.x)[k] {
      KeepsOrder(a, b, v, m.x[k]);
    }
    var x, v' := AffineSeq(a, b, m.x), Affine(a, b, v);
    assert v < m.x[0] <==> v' < x[0];
    assert v < m.x[1] <==> v' < x[1];
    assert v < m.x[2] <==> v' < x[2];
    assert v < m.x[3] <==> v' < x[3];
    assert v < m.x[4] <==> v' < x[4];
    assert Widen(x, v') == AffineSeq(a, b, Widen(m.x, v));
  }

  lemma ObserveAffine(a: real, b: real, m: Markers, q: real, v: real)
    requires a > 0.0 && Five(m) && Increasing(m.n)
    ensures Observe(AffineMarkers(a, b, m), q, Affine(a, b, v)) == AffineMarkers(a, b, Observe(m, q, v))
  {
    PlaceAffine(a, b, m, q, v);
    PlaceKeepsOrder(m, q, v);
    var m0 := Place(m, q, v);
    AdjustAffine(a, b, m0, 1);
    AdjustAffine(a, b, Adjust(m0, 1), 2);
    AdjustAffine(a, b, Adjust(Adjust(m0, 1), 2), 3);
  }

  lemma {:induction false} InsertAffine(a: real, b: real, v: real, s: seq<real>)
    requires a > 0.0
    ensures Insert(Affine(a, b, v), AffineSeq(a, b, s)) == AffineSeq(a, b, Insert(v, s))
  {
    if s != [] {
      KeepsOrder(a, b, v, s[0]);
      InsertAffine(a, b, v, s[1..]);
      assert AffineSeq(a, b, s)[1..] == AffineSeq(a, b, s[1..]);
    }
  }

  lemma {:induction false} SortAffine(a: real, b: real, s: seq<real>)
    requires a > 0.0
    ensures Sort(AffineSeq(a, b, s)) == AffineSeq(a, b, Sort(s))
  {
    if s != [] {
      SortAffine(a, b, s[1..]);
      assert AffineSeq(a, b, s)[1..] == AffineSeq(a, b, s[1..]);
      InsertAffine(a, b, s[0], Sort(s[1..]));
    }
  }

  /** Main result: the sketch of the transformed observations is the transformed sketch, positions untouched. */
  lemma {:induction false} AfterAffine(a: real, b: real, q: real, values: seq<real>)
    requires a > 0.0
    ensures After(q, AffineSeq(a, b, values)) == AffineSketch(a, b, After(q, values))
    decreases |values|
  {
    if values == [] {
      assert AffineSeq(a, b, []) == [];
    } else {
      var init, v := values[..|values| - 1], values[|values| - 1];
      var all := AffineSeq(a, b, values);
      assert all[..|all| - 1] == AffineSeq(a, b, init);
      AfterAffine(a, b, q, init);
      match After(q, init)
      case Tracking(m) => ObserveAffine(a, b, m, q, v);
      case Collecting(s) =>
        assert AffineSeq(a, b, s + [v]) == AffineSeq(a, b, s) + [Affine(a, b, v)];
        SortAffine(a, b, s + [v]);
    }
  }

  lemma InterpolateAffine(a: real, b: real, q: Quantile, sorted: seq<real>)
    requires sorted != []
    ensures Interpolate(q, AffineSeq(a, b, sorted)) == Affine(a, b, Interpolate(q, sorted))
  {
    var pos := Position(|sorted|, q);
    PositionInRange(|sorted|, q);
    var base := pos.Floor;
    var next := if base + 1 < |sorted| then sorted[base + 1] else sorted[base];
    BetweenAffine(a, b, sorted[base], next, pos - base as real);
  }

  lemma BetweenAffine(a: real, b: real, lo: real, hi: real, rest: real)
    ensures Between(Affine(a, b, lo), Affine(a, b, hi), rest) == Affine(a, b, Between(lo, hi, rest))
  {
    var gap, gap' := hi - lo, Affine(a, b, hi) - Affine(a, b, lo);
    assert gap' == a * gap by { Difference(a, b, hi, lo); }
    assert rest * gap' == a * (rest * gap) by { ScaledProduct(a, rest, gap); }
    Shifted(a, b, lo, rest * gap);
  }

  /** Main result: the estimate is affine equivariant, for any number of observations. */
  lemma EstimateAffine(a: real, b: real, q: Quantile, values: seq<real>)
    requires a > 0.0
    ensures var e, e' := Estimate(q, After(q, values)), Estimate(q, After(q, AffineSeq(a, b, values)));
            e' == if e.None? then None else Some(Affine(a, b, e.value))
  {
    AfterAffine(a, b, q, values);
    match After(q, values)
    case Tracking(m) =>
    case Collecting(init) =>
      if init != [] {
        SortAffine(a, b, init);
        InterpolateAffine(a, b, q, Sort(init));
      }
  }
}
