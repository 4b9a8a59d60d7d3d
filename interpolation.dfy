/**
 * `CGFloat.interpolate(inputRange:outputRange:)`: piecewise-linear lookup
 * of `x` in a list of knots. The tab bar uses it to size and place its
 * underline from the fractional page `progress`. `CGFloat` is taken as `real`.
 */
module Interpolation {

  /**
   * What the source needs to run without trapping: a first input, an output
   * for every input, and a second input whenever the loop `1...length` is
   * reached (it traps when `length` is 0).
   */
  predicate CanInterpolate(x: real, xs: seq<real>, ys: seq<real>) {
    1 <= |xs| <= |ys| && (x > xs[0] ==> |xs| >= 2)
  }

  /** The value on the segment from (x1, y1) to (x2, y2) at `x`. */
  function Lerp(x: real, x1: real, x2: real, y1: real, y2: real): real
    requires x1 != x2
  {
    y1 + ((y2 - y1) / (x2 - x1)) * (x - x1)
  }

  /**
   * The loop from `index` on: `x` lies beyond `xs[index - 1]`, so the first
   * segment whose right end reaches `x` has a non-empty width.
   */
  function ScanFrom(x: real, xs: seq<real>, ys: seq<real>, index: nat): real
    requires 1 <= index <= |xs| <= |ys| && x > xs[index - 1]
    decreases |xs| - index
  {
    if index == |xs| then ys[|xs| - 1]
    else if x <= xs[index] then Lerp(x, xs[index - 1], xs[index], ys[index - 1], ys[index])
    else ScanFrom(x, xs, ys, index + 1)
  }

  function Interpolate(x: real, xs: seq<real>, ys: seq<real>): (y: real)
    requires CanInterpolate(x, xs, ys)
    ensures x <= xs[0] ==> y == ys[0]
    ensures (forall k :: 0 <= k < |xs| ==> x > xs[k]) ==> y == ys[|xs| - 1]
  {
    if x <= xs[0] then ys[0]
    else if forall k :: 0 <= k < |xs| ==> x > xs[k] then
      ScanPastAll(x, xs, ys, 1);
      ScanFrom(x, xs, ys, 1)
    else ScanFrom(x, xs, ys, 1)
  }

  /** The source's loop with its early returns. */
  method InterpolateLoop(x: real, inputRange: seq<real>, outputRange: seq<real>) returns (y: real)
    requires CanInterpolate(x, inputRange, outputRange)
    ensures y == Interpolate(x, inputRange, outputRange)
  {
    var length := |inputRange| - 1;
    if x <= inputRange[0] {
      return outputRange[0];
    }
    var index := 1;
    while index <= length
      invariant 1 <= index <= length + 1
      invariant x > inputRange[index - 1]
      invariant Interpolate(x, inputRange, outputRange) == ScanFrom(x, inputRange, outputRange, index)
    {
      var x1 := inputRange[index - 1];
      var x2 := inputRange[index];
      var y1 := outputRange[index - 1];
      var y2 := outputRange[index];
      if x <= inputRange[index] {
        return y1 + ((y2 - y1) / (x2 - x1)) * (x - x1);
      }
      index := index + 1;
    }
    return outputRange[length];
  }

  // ---------------------------------------------------------------------
  // Properties
  // ---------------------------------------------------------------------

  predicate StrictlyIncreasing(xs: seq<real>) {
    forall i, j :: 0 <= i < j < |xs| ==> xs[i] < xs[j]
  }

  /** `r` lies between the smallest and the largest of the first `n` outputs. */
  predicate WithinOutputs(r: real, ys: seq<real>, n: nat)
    requires n <= |ys|
  {
    (exists i :: 0 <= i < n && ys[i] <= r) && (exists j :: 0 <= j < n && r <= ys[j])
  }

  /** At or below the first input the first output is returned. */
  lemma BelowFirstInput(x: real, xs: seq<real>, ys: seq<real>)
    requires CanInterpolate(x, xs, ys) && x <= xs[0]
    ensures Interpolate(x, xs, ys) == ys[0]
  {
  }

  lemma {:induction false} ScanPastAll(x: real, xs: seq<real>, ys: seq<real>, index: nat)
    requires 1 <= index <= |xs| <= |ys| && forall k :: 0 <= k < |xs| ==> x > xs[k]
    ensures ScanFrom(x, xs, ys, index) == ys[|xs| - 1]
    decreases |xs| - index
  {
    if index < |xs| {
      ScanPastAll(x, xs, ys, index + 1);
    }
  }

  /** Beyond every input the output at `length` is returned. */
  lemma AbovePastInputs(x: real, xs: seq<real>, ys: seq<real>)
    requires 2 <= |xs| <= |ys| && forall k :: 0 <= k < |xs| ==> x > xs[k]
    ensures CanInterpolate(x, xs, ys)
    ensures Interpolate(x, xs, ys) == ys[|xs| - 1]
  {
    ScanPastAll(x, xs, ys, 1);
  }

  /** With increasing inputs, being past the last input is enough. */
  lemma AboveLastInput(x: real, xs: seq<real>, ys: seq<real>)
    requires 2 <= |xs| <= |ys| && StrictlyIncreasing(xs) && x > xs[|xs| - 1]
    ensures CanInterpolate(x, xs, ys)
    ensures Interpolate(x, xs, ys) == ys[|xs| - 1]
  {
    AbovePastInputs(x, xs, ys);
  }

  lemma LerpAtRightEnd(x1: real, x2: real, y1: real, y2: real)
    requires x1 != x2
    ensures Lerp(x2, x1, x2, y1, y2) == y2
  {
    var d := x2 - x1;
    assert ((y2 - y1) / d) * d == y2 - y1;
  }

  /** On a segment of positive width, the value lies between the segment's two outputs. */
  lemma LerpBetween(x: real, x1: real, x2: real, y1: real, y2: real)
    requires x1 < x <= x2
    ensures var y := Lerp(x, x1, x2, y1, y2);
      (y1 <= y <= y2) || (y2 <= y <= y1)
  {
    var t := (x - x1) / (x2 - x1);
    assert 0.0 < t <= 1.0;
    var d := y2 - y1;
    assert Lerp(x, x1, x2, y1, y2) == y1 + d * t;
    if y1 <= y2 {
      ScaleDown(d, t);
    } else {
      ScaleDown(-d, t);
      assert d * t == -((-d) * t);
    }
  }

  lemma ScaleDown(d: real, t: real)
    requires 0.0 <= d && 0.0 < t <= 1.0
    ensures 0.0 <= d * t <= d
  {
    assert d - d * t == d * (1.0 - t);
  }

  /**
   * The scan stops at the segment holding `x`: if `x` is in
   * (`xs[i - 1]`, `xs[i]`] and every earlier input is below `x`, the scan
   * from any earlier index returns the value on segment `i`.
   */
  lemma {:induction false} ScanReachesSegment(x: real, xs: seq<real>, ys: seq<real>, index: nat, i: nat)
    requires 1 <= index <= i < |xs| <= |ys|
    requires forall k :: 0 <= k < i ==> x > xs[k]
    requires x <= xs[i]
    ensures ScanFrom(x, xs, ys, index) == Lerp(x, xs[i - 1], xs[i], ys[i - 1], ys[i])
    decreases i - index
  {
    if index < i {
      ScanReachesSegment(x, xs, ys, index + 1, i);
    }
  }

  /** With increasing inputs, each input returns exactly its output. */
  lemma Knot(xs: seq<real>, ys: seq<real>, i: nat)
    requires 1 <= |xs| <= |ys| && StrictlyIncreasing(xs) && i < |xs|
    ensures CanInterpolate(xs[i], xs, ys)
    ensures Interpolate(xs[i], xs, ys) == ys[i]
  {
    if i > 0 {
      ScanReachesSegment(xs[i], xs, ys, 1, i);
      LerpAtRightEnd(xs[i - 1], xs[i], ys[i - 1], ys[i]);
    }
  }

  /** With increasing inputs, an `x` in (`xs[i - 1]`, `xs[i]`] gives a value between `ys[i - 1]` and `ys[i]`. */
  lemma Segment(x: real, xs: seq<real>, ys: seq<real>, i: nat)
    requires |xs| <= |ys| && StrictlyIncreasing(xs) && 1 <= i < |xs|
    requires xs[i - 1] < x <= xs[i]
    ensures CanInterpolate(x, xs, ys)
    ensures var r := Interpolate(x, xs, ys);
      (ys[i - 1] <= r <= ys[i]) || (ys[i] <= r <= ys[i - 1])
  {
    ScanReachesSegment(x, xs, ys, 1, i);
    LerpBetween(x, xs[i - 1], xs[i], ys[i - 1], ys[i]);
  }

  lemma {:induction false} ScanWithinOutputs(x: real, xs: seq<real>, ys: seq<real>, index: nat)
    requires 1 <= index <= |xs| <= |ys| && x > xs[index - 1]
    ensures WithinOutputs(ScanFrom(x, xs, ys, index), ys, |xs|)
    decreases |xs| - index
  {
    var r := ScanFrom(x, xs, ys, index);
    if index == |xs| {
      assert ys[|xs| - 1] <= r <= ys[|xs| - 1];
    } else if x <= xs[index] {
      LerpBetween(x, xs[index - 1], xs[index], ys[index - 1], ys[index]);
      if ys[index - 1] <= r {
        assert ys[index - 1] <= r <= ys[index];
      } else {
        assert ys[index] <= r <= ys[index - 1];
      }
    } else {
      ScanWithinOutputs(x, xs, ys, index + 1);
    }
  }

  /**
   * Whatever the inputs, the result never leaves the range of the outputs in
   * use: it is at least the smallest and at most the largest of them.
   */
  lemma WithinOutputRange(x: real, xs: seq<real>, ys: seq<real>)
    requires CanInterpolate(x, xs, ys)
    ensures WithinOutputs(Interpolate(x, xs, ys), ys, |xs|)
  {
    if x <= xs[0] {
      assert ys[0] <= ys[0];
    } else {
      ScanWithinOutputs(x, xs, ys, 1);
    }
  }

  // ---------------------------------------------------------------------
  // The tab bar's use: inputs are the tab indices 0, 1, ..., n - 1.
  // ---------------------------------------------------------------------

  /** `tabs.indices.compactMap { CGFloat($0) }`. */
  function IndexRange(n: nat): (r: seq<real>)
    ensures |r| == n
    ensures forall i :: 0 <= i < n ==> r[i] == i as real
  {
    seq(n, i requires 0 <= i < n => i as real)
  }

  lemma IndexRangeIncreasing(n: nat)
    ensures StrictlyIncreasing(IndexRange(n))
  {
  }

  /**
   * Between tab `i - 1` and tab `i` every denominator is 1: the value moves
   * from `ys[i - 1]` towards `ys[i]` by the fraction of the page scrolled.
   */
  lemma IndexRangeSegment(progress: real, ys: seq<real>, i: nat)
    requires 1 <= i < |ys| && (i - 1) as real < progress <= i as real
    ensures CanInterpolate(progress, IndexRange(|ys|), ys)
    ensures Interpolate(progress, IndexRange(|ys|), ys) == ys[i - 1] + (ys[i] - ys[i - 1]) * (progress - (i - 1) as real)
  {
    var xs := IndexRange(|ys|);
    ScanReachesSegment(progress, xs, ys, 1, i);
  }
}
