/** Percentage rollouts: which variant a hash value falls to, and how many fall to each. */
module Rollouts {
  import opened Json
  import opened Targeting

  const HASHES: int := 0x1_0000_0000

  type Hash = n: int | 0 <= n < HASHES

  function Weights(variants: seq<Variant>): seq<real> {
    seq(|variants|, i requires 0 <= i < |variants| => variants[i].weight)
  }

  function Prefix(w: seq<real>, i: nat): real
    requires i <= |w|
  {
    if i == 0 then 0.0 else Prefix(w, i - 1) + w[i - 1]
  }

  function Total(w: seq<real>): real {
    Prefix(w, |w|)
  }

  function Point(w: seq<real>, n: Hash): real {
    n as real / HASHES as real * Total(w)
  }

  /** The first index from i on whose cumulative weight exceeds the point; the last one if none does. */
  function FirstAbove(w: seq<real>, point: real, i: nat): nat
    requires w != [] && i <= |w|
    decreases |w| - i
  {
    if i == |w| then |w| - 1
    else if point < Prefix(w, i + 1) then i
    else FirstAbove(w, point, i + 1)
  }

  function Select(w: seq<real>, n: Hash): nat
    requires w != []
  {
    FirstAbove(w, Point(w, n), 0)
  }

  /** The two loops of bucket: total the weights, then accumulate until the point is passed. */
  method SelectVariant(variants: seq<Variant>, n: Hash) returns (v: Value)
    requires variants != []
    ensures Select(Weights(variants), n) < |variants|
    ensures v == variants[Select(Weights(variants), n)].value
  {
    ghost var w := Weights(variants);
    var total := 0.0;
    for i := 0 to |variants|
      invariant total == Prefix(w, i)
    {
      total := total + variants[i].weight;
    }
    var point := n as real / HASHES as real * total;
    assert point == Point(w, n);
    var cumulative := 0.0;
    for i := 0 to |variants|
      invariant cumulative == Prefix(w, i)
      invariant FirstAbove(w, point, 0) == FirstAbove(w, point, i)
    {
      cumulative := cumulative + variants[i].weight;
      if point < cumulative {
        return variants[i].value;
      }
    }
    return variants[|variants| - 1].value;
  }

  // ---------------------------------------------------------------- where the boundaries lie

  predicate Proper(w: seq<real>) {
    w != [] && (forall i :: 0 <= i < |w| ==> 0.0 <= w[i]) && 0.0 < Total(w)
  }

  function Ceil(x: real): int {
    -(-x).Floor
  }

  /** The least hash value that variant i - 1 no longer gets. */
  function Boundary(w: seq<real>, i: nat): int
    requires i <= |w| && 0.0 < Total(w)
  {
    Ceil(HASHES as real * Prefix(w, i) / Total(w))
  }

  lemma {:induction false} PrefixMonotone(w: seq<real>, i: nat, j: nat)
    requires Proper(w) && i <= j <= |w|
    ensures 0.0 <= Prefix(w, i) <= Prefix(w, j)
    decreases j
  {
    if i < j {
      PrefixMonotone(w, i, j - 1);
    } else if i > 0 {
      PrefixMonotone(w, i - 1, i - 1);
    }
  }

  lemma BelowCeil(n: int, x: real)
    ensures n < Ceil(x) <==> n as real < x
  {
  }

  lemma ScaleLess(a: real, b: real, t: real)
    requires 0.0 < t
    ensures a < b <==> a * t < b * t
  {
    assert b * t - a * t == (b - a) * t;
    if b <= a { assert (a - b) * t >= 0.0; }
  }

  /** The comparison bucket makes, cleared of its divisions. */
  lemma ClearDivisions(r: real, h: real, c: real, total: real)
    requires 0.0 < total && 0.0 < h
    ensures r / h * total < c <==> r < h * c / total
  {
    var x, p := h * c / total, r / h * total;
    assert x * total == h * c;
    assert p * h == r * total by {
      assert p * h == (r / h * h) * total;
    }
    ScaleLess(p, c, h);
    ScaleLess(r, x, total);
  }

  lemma PointBelow(w: seq<real>, n: Hash, i: nat)
    requires Proper(w) && i <= |w|
    ensures Point(w, n) < Prefix(w, i) <==> n < Boundary(w, i)
  {
    ClearDivisions(n as real, HASHES as real, Prefix(w, i), Total(w));
    BelowCeil(n, HASHES as real * Prefix(w, i) / Total(w));
  }

  lemma Ends(w: seq<real>)
    requires Proper(w)
    ensures Boundary(w, 0) == 0 && Boundary(w, |w|) == HASHES
  {
    assert HASHES as real * Total(w) / Total(w) == HASHES as real;
  }

  lemma BoundaryMonotone(w: seq<real>, i: nat, j: nat)
    requires Proper(w) && i <= j <= |w|
    ensures 0 <= Boundary(w, i) <= Boundary(w, j) <= HASHES
  {
    PrefixMonotone(w, 0, i);
    PrefixMonotone(w, i, j);
    PrefixMonotone(w, j, |w|);
    Ends(w);
    QuotientMonotone(0.0, Prefix(w, i), Total(w));
    QuotientMonotone(Prefix(w, i), Prefix(w, j), Total(w));
    QuotientMonotone(Prefix(w, j), Total(w), Total(w));
  }

  lemma QuotientMonotone(a: real, b: real, total: real)
    requires a <= b && 0.0 < total
    ensures HASHES as real * a / total <= HASHES as real * b / total
  {
    var x, y := HASHES as real * a / total, HASHES as real * b / total;
    assert x * total == HASHES as real * a && y * total == HASHES as real * b;
    assert (y - x) * total >= 0.0;
  }

  lemma {:induction false} FirstAboveInside(w: seq<real>, n: Hash, i: nat, from: nat)
    requires Proper(w) && from <= i < |w|
    requires Boundary(w, i) <= n < Boundary(w, i + 1)
    ensures FirstAbove(w, Point(w, n), from) == i
    decreases i - from
  {
    PointBelow(w, n, from + 1);
    if from < i {
      BoundaryMonotone(w, from + 1, i);
      FirstAboveInside(w, n, i, from + 1);
    }
  }

  /** Some variant's interval holds n, so the loop never falls through to its last line. */
  lemma {:induction false} SomeInterval(w: seq<real>, n: Hash, j: nat) returns (i: nat)
    requires Proper(w) && j <= |w| && n < Boundary(w, j)
    ensures i < j && Boundary(w, i) <= n < Boundary(w, i + 1)
    decreases j
  {
    Ends(w);
    if n < Boundary(w, j - 1) {
      i := SomeInterval(w, n, j - 1);
    } else {
      i := j - 1;
    }
  }

  lemma SelectIsInterval(w: seq<real>, n: Hash, i: nat)
    requires Proper(w) && i < |w|
    ensures Select(w, n) == i <==> Boundary(w, i) <= n < Boundary(w, i + 1)
  {
    Ends(w);
    var k := SomeInterval(w, n, |w|);
    FirstAboveInside(w, n, k, 0);
    if k < i { BoundaryMonotone(w, k + 1, i); }
    if i < k { BoundaryMonotone(w, i + 1, k); }
  }

  lemma FallbackUnreachable(w: seq<real>, n: Hash)
    requires Proper(w)
    ensures Select(w, n) < |w| && Point(w, n) < Prefix(w, Select(w, n) + 1)
    ensures 0.0 < w[Select(w, n)]
  {
    Ends(w);
    var k := SomeInterval(w, n, |w|);
    FirstAboveInside(w, n, k, 0);
    PointBelow(w, n, k);
    PointBelow(w, n, k + 1);
  }

  // ---------------------------------------------------------------- shares

  ghost function Share(w: seq<real>, i: nat): set<int>
    requires w != []
  {
    set n: int | 0 <= n < HASHES && Select(w, n) == i
  }

  predicate Between(lo: int, n: int, hi: int) {
    lo <= n < hi
  }

  function Interval(lo: int, hi: int): set<int> {
    set n | lo <= n < hi && Between(lo, n, hi)
  }

  lemma {:induction false} IntervalSize(lo: int, hi: int)
    requires lo <= hi
    ensures |Interval(lo, hi)| == hi - lo
    decreases hi - lo
  {
    if lo < hi {
      IntervalSize(lo, hi - 1);
      forall n ensures n in Interval(lo, hi) <==> n in Interval(lo, hi - 1) + {hi - 1} {
        assert Between(lo, n, hi) <==> Between(lo, n, hi - 1) || n == hi - 1;
      }
      assert Interval(lo, hi) == Interval(lo, hi - 1) + {hi - 1};
    }
  }

  lemma ShareSize(w: seq<real>, i: nat)
    requires Proper(w) && i < |w|
    ensures |Share(w, i)| == Boundary(w, i + 1) - Boundary(w, i)
  {
    BoundaryMonotone(w, i, i + 1);
    forall n: int ensures n in Share(w, i) <==> n in Interval(Boundary(w, i), Boundary(w, i + 1)) {
      if 0 <= n < HASHES { SelectIsInterval(w, n, i); }
      assert Between(Boundary(w, i), n, Boundary(w, i + 1)) <==> Boundary(w, i) <= n < Boundary(w, i + 1);
    }
    assert Share(w, i) == Interval(Boundary(w, i), Boundary(w, i + 1));
    IntervalSize(Boundary(w, i), Boundary(w, i + 1));
  }

  /**
   * In exact arithmetic a variant's share of the hash values is within one of its share of the
   * weight, and a variant without weight gets none.
   */
  lemma ShareBound(w: seq<real>, i: nat)
    requires Proper(w) && i < |w|
    ensures var exact := HASHES as real * w[i] / Total(w);
            exact - 1.0 < |Share(w, i)| as real < exact + 1.0
    ensures w[i] == 0.0 ==> Share(w, i) == {}
  {
    ShareSize(w, i);
    QuotientAdds(Prefix(w, i), w[i], Total(w));
    CeilDifference(HASHES as real * Prefix(w, i) / Total(w), HASHES as real * w[i] / Total(w));
  }

  lemma QuotientAdds(p: real, e: real, total: real)
    requires 0.0 < total
    ensures HASHES as real * (p + e) / total == HASHES as real * p / total + HASHES as real * e / total
  {
    var h := HASHES as real;
    var x, d, y := h * p / total, h * e / total, h * (p + e) / total;
    assert x * total == h * p && d * total == h * e && y * total == h * (p + e);
    assert (x + d) * total == y * total;
    ScaleLess(x + d, y, total);
    ScaleLess(y, x + d, total);
  }

  lemma CeilDifference(x: real, e: real)
    ensures e - 1.0 < (Ceil(x + e) - Ceil(x)) as real < e + 1.0
    ensures e == 0.0 ==> Ceil(x + e) == Ceil(x)
  {
  }

  ghost function ShareSum(w: seq<real>, i: nat): int
    requires w != [] && i <= |w|
  {
    if i == 0 then 0 else ShareSum(w, i - 1) + |Share(w, i - 1)|
  }

  lemma {:induction false} ShareSumIsBoundary(w: seq<real>, i: nat)
    requires Proper(w) && i <= |w|
    ensures ShareSum(w, i) == Boundary(w, i)
  {
    Ends(w);
    if i > 0 {
      ShareSumIsBoundary(w, i - 1);
      ShareSize(w, i - 1);
    }
  }

  /** Every hash value is someone's: the shares add up to all of them. */
  lemma SharesCoverEverything(w: seq<real>)
    requires Proper(w)
    ensures ShareSum(w, |w|) == HASHES
  {
    ShareSumIsBoundary(w, |w|);
    Ends(w);
  }

  // ---------------------------------------------------------------- changing the weights

  lemma {:induction false} FirstAboveNoLater(v: seq<real>, w: seq<real>, point: real, from: nat)
    requires w != [] && |v| == |w| && from <= |w|
    requires forall i :: 0 <= i <= |w| ==> Prefix(w, i) <= Prefix(v, i)
    ensures FirstAbove(v, point, from) <= FirstAbove(w, point, from)
    ensures from < |w| ==> from <= FirstAbove(w, point, from)
    decreases |w| - from
  {
    if from < |w| {
      FirstAboveNoLater(v, w, point, from + 1);
      assert Prefix(w, from + 1) <= Prefix(v, from + 1);
    }
  }

  /**
   * Sticky ramp: keep the salt and the total and move weight forward, so that no prefix sum goes
   * down, and no caller moves to a later variant.
   */
  lemma StickyRamp(before: seq<real>, after: seq<real>, n: Hash)
    requires before != [] && |before| == |after| && Total(before) == Total(after)
    requires forall i :: 0 <= i <= |before| ==> Prefix(before, i) <= Prefix(after, i)
    ensures Select(after, n) <= Select(before, n)
  {
    assert Point(after, n) == Point(before, n);
    FirstAboveNoLater(after, before, Point(before, n), 0);
  }

  function Scaled(c: real, w: seq<real>): seq<real> {
    seq(|w|, i requires 0 <= i < |w| => c * w[i])
  }

  lemma {:induction false} PrefixScales(c: real, w: seq<real>, i: nat)
    requires i <= |w|
    ensures Prefix(Scaled(c, w), i) == c * Prefix(w, i)
  {
    if i > 0 { PrefixScales(c, w, i - 1); }
  }

  lemma {:induction false} FirstAboveScales(c: real, w: seq<real>, point: real, from: nat)
    requires 0.0 < c && w != [] && from <= |w|
    ensures FirstAbove(Scaled(c, w), c * point, from) == FirstAbove(w, point, from)
    decreases |w| - from
  {
    if from < |w| {
      PrefixScales(c, w, from + 1);
      ScaleLess(point, Prefix(w, from + 1), c);
      FirstAboveScales(c, w, point, from + 1);
    }
  }

  /** Only the proportions matter: scaling every weight moves no one. */
  lemma ScalingMovesNoOne(c: real, w: seq<real>, n: Hash)
    requires 0.0 < c && w != []
    ensures Select(Scaled(c, w), n) == Select(w, n)
  {
    PrefixScales(c, w, |w|);
    var f := n as real / HASHES as real;
    assert f * (c * Total(w)) == c * (f * Total(w));
    assert |Scaled(c, w)| == |w|;
    assert Point(Scaled(c, w), n) == c * Point(w, n);
    FirstAboveScales(c, w, Point(w, n), 0);
    calc {
      Select(Scaled(c, w), n);
      FirstAbove(Scaled(c, w), Point(Scaled(c, w), n), 0);
      FirstAbove(Scaled(c, w), c * Point(w, n), 0);
      FirstAbove(w, Point(w, n), 0);
      Select(w, n);
    }
  }
}
