/** Sequences of reals: sorting, extremes, and the sign of products and quotients. */
module RealSeqs {

  function Insert(v: real, s: seq<real>): (r: seq<real>)
    ensures |r| == |s| + 1
  {
    if s == [] then [v] else if v <= s[0] then [v] + s else [s[0]] + Insert(v, s[1..])
  }

  function Sort(s: seq<real>): (r: seq<real>)
    ensures |r| == |s|
  {
    if s == [] then [] else Insert(s[0], Sort(s[1..]))
  }

  ghost predicate Sorted(s: seq<real>) {
    forall i, j :: 0 <= i <= j < |s| ==> s[i] <= s[j]
  }

  lemma {:induction false} InsertKeepsValues(v: real, s: seq<real>)
    ensures multiset(Insert(v, s)) == multiset(s) + multiset{v}
  {
    if s != [] && v > s[0] {
      InsertKeepsValues(v, s[1..]);
      assert s == [s[0]] + s[1..];
    }
  }

  lemma {:induction false} InsertAbove(v: real, s: seq<real>, lo: real)
    requires lo <= v && forall k :: 0 <= k < |s| ==> lo <= s[k]
    ensures forall k :: 0 <= k < |Insert(v, s)| ==> lo <= Insert(v, s)[k]
  {
    if s != [] && v > s[0] {
      InsertAbove(v, s[1..], lo);
    }
  }

  lemma {:induction false} InsertSorts(v: real, s: seq<real>)
    requires Sorted(s)
    ensures Sorted(Insert(v, s))
  {
    if s != [] && v > s[0] {
      InsertSorts(v, s[1..]);
      InsertAbove(v, s[1..], s[0]);
    }
  }

  lemma {:induction false} SortSorts(s: seq<real>)
    ensures Sorted(Sort(s))
    ensures multiset(Sort(s)) == multiset(s)
  {
    if s != [] {
      SortSorts(s[1..]);
      InsertSorts(s[0], Sort(s[1..]));
      InsertKeepsValues(s[0], Sort(s[1..]));
      assert s == [s[0]] + s[1..];
    }
  }

  ghost predicate IsMin(v: real, values: seq<real>) {
    v in values && forall k :: 0 <= k < |values| ==> v <= values[k]
  }

  ghost predicate IsMax(v: real, values: seq<real>) {
    v in values && forall k :: 0 <= k < |values| ==> values[k] <= v
  }

  lemma SameValues(a: seq<real>, b: seq<real>)
    requires multiset(a) == multiset(b)
    ensures forall v :: v in a <==> v in b
  {
    forall v ensures v in a <==> v in b {
      assert v in a <==> v in multiset(a);
      assert v in b <==> v in multiset(b);
    }
  }

  lemma MulNonNegative(a: real, b: real)
    requires a >= 0.0 && b >= 0.0
    ensures a * b >= 0.0
  {
  }

  lemma DivNonNegative(a: real, b: real)
    requires a >= 0.0 && b > 0.0
    ensures a / b >= 0.0
  {
  }

  lemma QuotientUnique(t: real, g: real, k: real)
    requires g != 0.0 && t == k * g
    ensures t / g == k
  {
  }
}
