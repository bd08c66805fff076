/**
 * Exact-real counterparts of the Python numerics the platform relies on:
 * `sum`, `min`, `max`, `statistics.mean`, `sorted`, `round` and `int()`.
 * Floats are modelled as exact reals; `round` is round-half-to-even on the
 * exact value.
 */
module Numeric {

  /** Python's `sum` over a list of numbers. */
  function Sum(xs: seq<real>): real
  {
    if xs == [] then 0.0 else xs[0] + Sum(xs[1..])
  }

  /** Python's `sum` over a list of integers. */
  function SumInt(xs: seq<int>): int
  {
    if xs == [] then 0 else xs[0] + SumInt(xs[1..])
  }

  lemma {:induction false} SumAppend(xs: seq<real>, ys: seq<real>)
    ensures Sum(xs + ys) == Sum(xs) + Sum(ys)
  {
    if xs == [] {
      assert xs + ys == ys;
    } else {
      assert (xs + ys)[1..] == xs[1..] + ys;
      SumAppend(xs[1..], ys);
    }
  }

  lemma {:induction false} SumIntAppend(xs: seq<int>, ys: seq<int>)
    ensures SumInt(xs + ys) == SumInt(xs) + SumInt(ys)
  {
    if xs == [] {
      assert xs + ys == ys;
    } else {
      assert (xs + ys)[1..] == xs[1..] + ys;
      SumIntAppend(xs[1..], ys);
    }
  }

  /** Python's `min` on a non-empty list: an element no larger than any other. */
  function Min(xs: seq<real>): (m: real)
    requires |xs| > 0
    ensures m in xs
    ensures forall x :: x in xs ==> m <= x
  {
    if |xs| == 1 then xs[0]
    else
      var rest := Min(xs[1..]);
      assert forall x :: x in xs ==> x == xs[0] || x in xs[1..];
      if xs[0] <= rest then xs[0] else rest
  }

  /** Python's `max` on a non-empty list: an element no smaller than any other. */
  function Max(xs: seq<real>): (m: real)
    requires |xs| > 0
    ensures m in xs
    ensures forall x :: x in xs ==> x <= m
  {
    if |xs| == 1 then xs[0]
    else
      var rest := Max(xs[1..]);
      assert forall x :: x in xs ==> x == xs[0] || x in xs[1..];
      if xs[0] >= rest then xs[0] else rest
  }

  /** `statistics.mean` (and `sum(xs) / len(xs)`) on a non-empty list. */
  function Mean(xs: seq<real>): real
    requires |xs| > 0
  {
    Sum(xs) / |xs| as real
  }

  lemma {:induction false} SumBounds(xs: seq<real>, lo: real, hi: real)
    requires forall x :: x in xs ==> lo <= x <= hi
    ensures |xs| as real * lo <= Sum(xs) <= |xs| as real * hi
  {
    if xs != [] {
      assert xs[0] in xs;
      assert forall x :: x in xs[1..] ==> x in xs;
      SumBounds(xs[1..], lo, hi);
      SumStep(xs[0], Sum(xs[1..]), |xs[1..]| as real, Sum(xs), |xs| as real, lo, hi);
    }
  }

  /** One step of the induction above: adding an element in [lo, hi] keeps the bounds. */
  lemma SumStep(x: real, rest: real, restCount: real, total: real, count: real, lo: real, hi: real)
    requires lo <= x <= hi && restCount * lo <= rest <= restCount * hi
    requires total == x + rest && count == restCount + 1.0
    ensures count * lo <= total <= count * hi
  {
  }

  /** The mean of a non-empty sample lies between its minimum and its maximum. */
  lemma MeanBetween(xs: seq<real>)
    requires |xs| > 0
    ensures Min(xs) <= Mean(xs) <= Max(xs)
  {
    MeanBounds(xs, Min(xs), Max(xs));
  }

  /** The mean of a non-empty sample inside [lo, hi] is inside [lo, hi]. */
  lemma MeanBounds(xs: seq<real>, lo: real, hi: real)
    requires |xs| > 0
    requires forall x :: x in xs ==> lo <= x <= hi
    ensures lo <= Mean(xs) <= hi
  {
    SumBounds(xs, lo, hi);
    DivBounds(Sum(xs), |xs| as real, lo, hi);
  }

  lemma DivBounds(s: real, n: real, lo: real, hi: real)
    requires n > 0.0 && n * lo <= s <= n * hi
    ensures lo <= s / n <= hi
  {
    assert s / n - lo == (s - n * lo) / n;
    assert hi - s / n == (n * hi - s) / n;
  }

  lemma DivMonotone(a: real, b: real, p: real)
    requires a <= b && p > 0.0
    ensures a / p <= b / p
  {
    assert b / p - a / p == (b - a) / p;
  }

  lemma DivMul(a: real, p: real)
    requires p != 0.0
    ensures a / p * p == a
  {
  }

  lemma MulDiv(a: real, p: real)
    requires p != 0.0
    ensures a * p / p == a
  {
  }

  /** A list whose elements never decrease. */
  predicate IsSorted(s: seq<real>)
  {
    forall i, j :: 0 <= i < j < |s| ==> s[i] <= s[j]
  }

  function Insert(x: real, s: seq<real>): (r: seq<real>)
    requires IsSorted(s)
    ensures IsSorted(r)
    ensures multiset(r) == multiset(s) + multiset{x}
    ensures |r| == |s| + 1
    ensures r[0] == if s == [] || x <= s[0] then x else s[0]
  {
    if s == [] || x <= s[0] then
      [x] + s
    else
      var tail := Insert(x, s[1..]);
      assert s == [s[0]] + s[1..];
      assert s[0] <= tail[0];
      [s[0]] + tail
  }

  /** Python's `sorted`: the non-decreasing permutation of the list. */
  function Sort(xs: seq<real>): (r: seq<real>)
    ensures IsSorted(r)
    ensures multiset(r) == multiset(xs)
    ensures |r| == |xs|
  {
    if xs == [] then []
    else
      assert xs == [xs[0]] + xs[1..];
      Insert(xs[0], Sort(xs[1..]))
  }

  /** Every position of the sorted list holds an element of the input, between its min and max. */
  lemma SortedAt(xs: seq<real>, k: nat)
    requires k < |xs|
    ensures Sort(xs)[k] in xs
    ensures Min(xs) <= Sort(xs)[k] <= Max(xs)
  {
    var r := Sort(xs);
    assert r[k] in multiset(r);
  }

  /** Later positions of the sorted list hold values at least as large. */
  lemma SortedMonotone(xs: seq<real>, i: nat, j: nat)
    requires i <= j < |xs|
    ensures Sort(xs)[i] <= Sort(xs)[j]
  {
  }

  /** 10^digits, as a real. */
  function Scale(digits: nat): (p: real)
    ensures p >= 1.0
  {
    if digits == 0 then 1.0 else 10.0 * Scale(digits - 1)
  }

  /** Python's `round(x)`: the nearest integer, ties to the even neighbour. */
  function RoundHalfEven(x: real): (n: int)
    ensures x - 0.5 <= n as real <= x + 0.5
    ensures n as real == x - 0.5 || n as real == x + 0.5 ==> n % 2 == 0
  {
    var f := x.Floor;
    var frac := x - f as real;
    if frac > 0.5 then f + 1
    else if frac < 0.5 then f
    else if f % 2 == 0 then f
    else f + 1
  }

  /** Rounding to the nearest multiple of 1/scale, ties to even. */
  function RoundTo(x: real, scale: real): real
    requires scale > 0.0
  {
    RoundHalfEven(x * scale) as real / scale
  }

  /** Python's `round(x, digits)`: the nearest multiple of 10^-digits, ties to even. */
  function Round(x: real, digits: nat): real
  {
    RoundTo(x, Scale(digits))
  }

  lemma RoundHalfEvenMonotone(x: real, y: real)
    requires x <= y
    ensures RoundHalfEven(x) <= RoundHalfEven(y)
  {
    var fx, fy := x.Floor, y.Floor;
    if fx == fy {
      assert x - fx as real <= y - fy as real;
    }
  }

  lemma RoundHalfEvenOfInt(n: int)
    ensures RoundHalfEven(n as real) == n
  {
    assert (n as real).Floor == n;
  }

  lemma MulMonotone(x: real, y: real, p: real)
    requires x <= y && p > 0.0
    ensures x * p <= y * p
  {
    assert y * p - x * p == (y - x) * p;
  }

  lemma MulNonNegMonotone(x: real, y: real, p: real)
    requires x <= y && p >= 0.0
    ensures x * p <= y * p
  {
    assert y * p - x * p == (y - x) * p;
  }

  lemma RoundToMonotone(x: real, y: real, scale: real)
    requires x <= y && scale > 0.0
    ensures RoundTo(x, scale) <= RoundTo(y, scale)
  {
    MulMonotone(x, y, scale);
    RoundHalfEvenMonotone(x * scale, y * scale);
    DivMonotone(RoundHalfEven(x * scale) as real, RoundHalfEven(y * scale) as real, scale);
  }

  /** Rounding never reverses the order of two values. */
  lemma RoundMonotone(x: real, y: real, digits: nat)
    requires x <= y
    ensures Round(x, digits) <= Round(y, digits)
  {
    RoundToMonotone(x, y, Scale(digits));
  }

  /** A score in [0, 10] stays in [0, 10] once rounded to one decimal. */
  lemma RoundScoreInRange(x: real)
    requires 0.0 <= x <= 10.0
    ensures 0.0 <= Round(x, 1) <= 10.0
  {
    RoundMonotone(0.0, x, 1);
    RoundMonotone(x, 10.0, 1);
  }

  /** Python's `int(x)` on a float: truncation toward zero. */
  function Trunc(x: real): (n: int)
    ensures 0.0 <= x ==> 0 <= n && n as real <= x < n as real + 1.0
    ensures x < 0.0 ==> n <= 0 && x <= n as real < x + 1.0
  {
    if x >= 0.0 then x.Floor else -((-x).Floor)
  }
}
