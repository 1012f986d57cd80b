/**
 The sketch as it runs: five-element arrays updated in place, one observation at a time. Proved to be
 the sketch of P2Markers for everything observed so far, so that all that is proved about that one
 (P2Invariants, P2Affine) holds of it.
 */
module P2Quantile {
  import opened Prelude
  import opened P2Markers
  import opened RealSeqs
  import opened P2Invariants
  import opened P2Interpolation

  /** A JavaScript number: NaN and the infinities are not observations. */
  datatype Number = Finite(v: real) | NotFinite

  class P2 {
    const q: Quantile
    var count: nat
    var init: seq<real>
    var n: array?<int>
    var np: array?<real>
    var x: array?<real>
    var dn: seq<real>
    ghost var seen: seq<real>

    ghost function Repr(): set<object>
      reads this
    {
      {this} + (if n == null then {} else {n}) + (if np == null then {} else {np}) + (if x == null then {} else {x})
    }

    ghost predicate Shape()
      reads this
    {
      && (x == null <==> n == null) && (x == null <==> np == null)
      && (x != null ==> x != np && x.Length == 5 && n.Length == 5 && np.Length == 5 && dn == Dn(q))
      && (x == null ==> |init| < 5)
    }

    ghost function View(): Sketch
      requires Shape()
      reads this, Repr()
    {
      if x == null then Collecting(init) else Tracking(Markers(x[..], n[..], np[..]))
    }

    ghost predicate Valid()
      reads this, Repr()
    {
      Shape() && count == |seen| && View() == After(q, seen)
    }

    constructor (q: Quantile)
      ensures Valid() && this.q == q && seen == []
      ensures fresh(Repr())
    {
      this.q := q;
      count, init := 0, [];
      n, np, x := null, null, null;
      dn := [];
      seen := [];
    }

    /** One more observation; anything that is not a finite number is ignored. */
    method Add(value: Number)
      requires Valid()
      modifies Repr()
      ensures Valid() && fresh(Repr() - old(Repr()))
      ensures seen == if value.NotFinite? then old(seen) else old(seen) + [value.v]
    {
      if value.NotFinite? { return; }
      var v := value.v;
      count := count + 1;
      ghost var seen' := seen + [v];
      assert seen'[..|seen'| - 1] == seen;
      if x == null {
        init := init + [v];
        if |init| >= 5 {
          StartTracking();
        }
        seen := seen';
        return;
      }
      Track(v);
      seen := seen';
    }

    /** An observation once the markers are there. */
    method Track(v: real)
      requires Shape() && x != null && Increasing(n[..])
      modifies x, n, np
      ensures View() == Tracking(Observe(Markers(old(x[..]), old(n[..]), old(np[..])), q, v))
    {
      ghost var before := Markers(x[..], n[..], np[..]);
      var k := FindCell(v);
      ShiftPositions(k);
      AdvanceDesired();
      assert Markers(x[..], n[..], np[..]) == Place(before, q, v);
      PlaceKeepsOrder(before, q, v);
      AdjustMarker(1);
      AdjustMarker(2);
      AdjustMarker(3);
    }

    method StartTracking()
      requires x == null && n == null && np == null && |init| == 5
      modifies this`init, this`x, this`n, this`np, this`dn
      ensures Shape() && x != null && fresh(x) && fresh(n) && fresh(np)
      ensures View() == Tracking(Start(q, old(init)))
    {
      var sorted := Sort(init);
      x := new real[5](i requires 0 <= i < 5 => sorted[i]);
      init := [];
      n := new int[] [1, 2, 3, 4, 5];
      np := new real[] [1.0, 1.0 + 2.0 * q, 1.0 + 4.0 * q, 3.0 + 2.0 * q, 5.0];
      dn := [0.0, q / 2.0, q, (1.0 + q) / 2.0, 1.0];
      assert x[..] == sorted;
    }

    /** Finds the cell of v, widening the extreme markers when v lies outside. */
    method FindCell(v: real) returns (k: nat)
      requires Shape() && x != null
      modifies x
      ensures x[..] == Widen(old(x[..]), v)
      ensures k == if v < old(x[0]) then 0 else Cell(old(x[..]), v)
    {
      if v < x[0] {
        x[0] := v;
        k := 0;
      } else if v < x[1] {
        k := 0;
      } else if v < x[2] {
        k := 1;
      } else if v < x[3] {
        k := 2;
      } else if v < x[4] {
        k := 3;
      } else {
        x[4] := v;
        k := 3;
      }
    }

    method ShiftPositions(k: nat)
      requires Shape() && x != null && k <= 3
      modifies n
      ensures var was := old(n[..]);
              n[..] == seq(5, i requires 0 <= i < 5 => if i > k then was[i] + 1 else was[i])
    {
      var i := k + 1;
      while i < 5
        invariant k + 1 <= i <= 5
        invariant forall j :: 0 <= j < 5 ==> n[j] == if k < j < i then old(n[j]) + 1 else old(n[j])
      {
        n[i] := n[i] + 1;
        i := i + 1;
      }
    }

    method AdvanceDesired()
      requires Shape() && x != null
      modifies np
      ensures var was := old(np[..]);
              np[..] == seq(5, i requires 0 <= i < 5 => was[i] + Dn(q)[i])
    {
      var i := 0;
      while i < 5
        invariant 0 <= i <= 5
        invariant forall j :: 0 <= j < 5 ==> np[j] == if j < i then old(np[j]) + dn[j] else old(np[j])
      {
        np[i] := np[i] + dn[i];
        i := i + 1;
      }
    }

    /** Moves a marker that is a whole position off, if there is room, and gives it the height of its new place. */
    method AdjustMarker(i: nat)
      requires Shape() && x != null && 1 <= i <= 3 && Increasing(n[..])
      modifies x, n
      ensures Increasing(n[..])
      ensures n[i] == old(n[i]) ==> x[..] == old(x[..])
      ensures n[i] != old(n[i]) ==> (n[i] - old(n[i]) == 1 || n[i] - old(n[i]) == -1)
                                    && Interpolated(i, n[i] - old(n[i]), old(x[..]), old(n[..]), x[i])
      ensures Markers(x[..], n[..], np[..]) == Adjust(Markers(old(x[..]), old(n[..]), np[..]), i)
    {
      ghost var before := Markers(x[..], n[..], np[..]);
      var d := np[i] - n[i] as real;
      var canMoveUp := d >= 1.0 && n[i + 1] - n[i] > 1;
      var canMoveDown := d <= -1.0 && n[i - 1] - n[i] < -1;
      if !canMoveUp && !canMoveDown { return; }
      var di := if d >= 0.0 then 1 else -1;
      var qHat := Parabolic(i, di, x[..], n[..]);
      if x[i - 1] < qHat < x[i + 1] {
        x[i] := qHat;
      } else {
        x[i] := Linear(i, di, x[..], n[..]);
      }
      n[i] := n[i] + di;
      assert n[..] == before.n[i := before.n[i] + di];
      assert x[..] == before.x[i := MovedHeight(i, di, before.x, before.n)];
      MovedHeightInterpolates(i, di, before.x, before.n);
    }

    /** The current estimate: none before the first observation. */
    method Value() returns (r: Option<real>)
      requires Valid()
      ensures r == Estimate(q, After(q, seen))
      ensures r.None? <==> seen == []
      ensures forall least, greatest :: IsMin(least, seen) && IsMax(greatest, seen) ==>
                r.Some? && least <= r.value <= greatest
    {
      forall least, greatest | IsMin(least, seen) && IsMax(greatest, seen)
        ensures Estimate(q, After(q, seen)).Some? && least <= Estimate(q, After(q, seen)).value <= greatest
      {
        EstimateInRange(q, seen, least, greatest);
      }
      if |seen| < 5 { CollectingKeepsAll(q, seen); }
      if count == 0 { return None; }
      if x == null { return Some(Interpolate(q, Sort(init))); }
      return Some(x[2]);
    }
  }
}
