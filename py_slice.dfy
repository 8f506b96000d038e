/** Python's `slice(start, stop, step)` applied to a sequence of length `n`:
    the indices it selects, as CPython's `slice.indices` computes them
    (negative bounds count from the end, out-of-range bounds are clamped,
    `None` takes the default for the sign of the step). A step of 0 is
    refused. */
module PySlice {
  import opened Common

  datatype Slice = Slice(start: Option<int>, stop: Option<int>, step: Option<int>)

  /** `slice(None, None)`: every index. */
  const All: Slice := Slice(None, None, None)

  /** One bound adjusted for a sequence of length `n`, clamped to
      `[lower, upper]`. */
  function Adjust(b: Option<int>, default: int, n: nat, lower: int, upper: int): (r: int)
    requires lower <= upper
    ensures b.None? ==> r == default
    ensures b.Some? ==> lower <= r <= upper
  {
    match b
    case None => default
    case Some(v) =>
      var w := if v < 0 then v + n else v;
      if w < lower then lower else if w > upper then upper else w
  }

  /** `start, start + step, ...`, `count` indices. */
  function Progression(start: int, step: int, count: nat): (r: seq<int>)
    ensures |r| == count
    ensures forall t :: 0 <= t < count ==> r[t] == start + t * step
  {
    if count == 0 then [] else Progression(start, step, count - 1) + [start + (count - 1) * step]
  }

  /** How many of `lo, lo + d, lo + 2d, ...` lie below `hi`: the length
      of `range(lo, hi, d)` for a positive `d`. */
  function Count(lo: int, hi: int, d: int): (c: nat)
    requires d > 0
    ensures lo >= hi ==> c == 0
    ensures lo < hi ==> c > 0 && 0 <= (c - 1) * d < hi - lo && hi - lo <= c * d
  {
    if lo < hi then
      var x := hi - lo - 1;
      DivFloor(x, d);
      x / d + 1
    else 0
  }

  /** The indices `range(*s.indices(n))`, or `None` for a zero step. */
  function Indices(s: Slice, n: nat): (r: Option<seq<int>>)
    ensures r.None? <==> s.step == Some(0)
  {
    var step := if s.step.None? then 1 else s.step.value;
    if step == 0 then None
    else if step > 0 then
      var start := Adjust(s.start, 0, n, 0, n);
      var stop := Adjust(s.stop, n, n, 0, n);
      Some(Progression(start, step, Count(start, stop, step)))
    else
      var start := Adjust(s.start, n - 1, n, -1, n - 1);
      var stop := Adjust(s.stop, -1, n, -1, n - 1);
      Some(Progression(start, step, Count(stop, start, -step)))
  }

  /** Every selected index is a valid index, and the indices advance by the
      step, so they are distinct. */
  lemma IndicesInRange(s: Slice, n: nat)
    requires Indices(s, n).Some?
    ensures var idx := Indices(s, n).value;
      (forall t :: 0 <= t < |idx| ==> 0 <= idx[t] < n) &&
      (forall t, u :: 0 <= t < u < |idx| ==> idx[t] != idx[u])
  {
    var step := if s.step.None? then 1 else s.step.value;
    if step > 0 {
      var start := Adjust(s.start, 0, n, 0, n);
      var stop := Adjust(s.stop, n, n, 0, n);
      assert Indices(s, n) == Some(Progression(start, step, Count(start, stop, step)));
      ForwardInRange(start, stop, step, n);
    } else {
      var start := Adjust(s.start, n - 1, n, -1, n - 1);
      var stop := Adjust(s.stop, -1, n, -1, n - 1);
      assert Indices(s, n) == Some(Progression(start, step, Count(stop, start, -step)));
      BackwardInRange(start, stop, step, n);
    }
  }

  /** `range(start, stop, step)` for a positive step within `[0, n]`. */
  lemma ForwardInRange(start: int, stop: int, step: int, n: nat)
    requires 0 <= start <= n && 0 <= stop <= n && step > 0
    ensures var p := Progression(start, step, Count(start, stop, step));
      (forall t :: 0 <= t < |p| ==> 0 <= p[t] < n) &&
      (forall t, u :: 0 <= t < u < |p| ==> p[t] != p[u])
  {
    var c := Count(start, stop, step);
    if c > 0 {
      ProgressionBounds(start, step, c, n);
    }
  }

  /** `range(start, stop, step)` for a negative step within `[-1, n - 1]`. */
  lemma BackwardInRange(start: int, stop: int, step: int, n: nat)
    requires -1 <= start <= n - 1 && -1 <= stop <= n - 1 && step < 0
    ensures var p := Progression(start, step, Count(stop, start, -step));
      (forall t :: 0 <= t < |p| ==> 0 <= p[t] < n) &&
      (forall t, u :: 0 <= t < u < |p| ==> p[t] != p[u])
  {
    var c := Count(stop, start, -step);
    if c > 0 {
      assert (c - 1) * step == -((c - 1) * -step);
      ProgressionBounds(start, step, c, n);
    }
  }

  /** The indices of a slice with a non-zero step, as valid indices. */
  function ValidIndices(s: Slice, n: nat): (idx: seq<int>)
    requires Indices(s, n).Some?
    ensures Indices(s, n) == Some(idx)
    ensures forall t :: 0 <= t < |idx| ==> 0 <= idx[t] < n
  {
    IndicesInRange(s, n);
    Indices(s, n).value
  }

  lemma DivFloor(x: nat, d: int)
    requires d > 0
    ensures 0 <= (x / d) * d <= x < (x / d + 1) * d
  {
  }

  /** A progression whose first and last elements are valid indices only
      holds distinct valid indices. */
  lemma ProgressionBounds(start: int, step: int, c: nat, n: nat)
    requires step != 0 && c > 0
    requires 0 <= start < n && 0 <= start + (c - 1) * step < n
    ensures var p := Progression(start, step, c);
      (forall t :: 0 <= t < c ==> 0 <= p[t] < n) &&
      (forall t, u :: 0 <= t < u < c ==> p[t] != p[u])
  {
    var p := Progression(start, step, c);
    forall t | 0 <= t < c ensures 0 <= p[t] < n {
      BetweenEnds(start, step, c, n, t);
    }
    forall t, u | 0 <= t < u < c ensures p[t] != p[u] {
      StepsDiffer(start, step, t, u);
    }
  }

  /** An element of the progression lies between its first and last. */
  lemma BetweenEnds(start: int, step: int, c: nat, n: nat, t: nat)
    requires t < c && 0 <= start < n && 0 <= start + (c - 1) * step < n
    ensures 0 <= start + t * step < n
  {
    if step >= 0 {
      MulMonotone(t, c - 1, step);
    } else {
      MulMonotone(t, c - 1, -step);
      assert t * step == -(t * -step) && (c - 1) * step == -((c - 1) * -step);
    }
  }

  /** Two different elements of a progression with a non-zero step differ. */
  lemma StepsDiffer(start: int, step: int, t: nat, u: nat)
    requires step != 0 && t < u
    ensures start + t * step != start + u * step
  {
    assert u * step - t * step == (u - t) * step;
    if step > 0 {
      MulPositive(u - t, step);
    } else {
      MulPositive(u - t, -step);
      assert (u - t) * step == -((u - t) * -step);
    }
  }

  lemma MulMonotone(a: nat, b: nat, k: nat)
    requires a <= b
    ensures 0 <= a * k <= b * k
  {
  }

  lemma MulPositive(a: int, b: int)
    requires a > 0 && b > 0
    ensures a * b > 0
  {
  }

  /** The elements of `xs` at the selected indices, in slice order. */
  function Select<T>(xs: seq<T>, idx: seq<int>): (r: seq<T>)
    requires forall t :: 0 <= t < |idx| ==> 0 <= idx[t] < |xs|
    ensures |r| == |idx|
    ensures forall t :: 0 <= t < |idx| ==> r[t] == xs[idx[t]]
  {
    seq(|idx|, t requires 0 <= t < |idx| => xs[idx[t]])
  }

  /** `slice(None, None)` selects every index in order. */
  lemma AllSelectsEverything(n: nat)
    ensures Indices(All, n) == Some(seq(n, i => i))
  {
    var idx := Indices(All, n).value;
    assert Count(0, n, 1) == n;
    assert idx == seq(n, i => i);
  }

  /** Of four pulses, `slice(None, None)` keeps [0, 1, 2, 3],
      `slice(None, None, 2)` keeps [0, 2] and `slice(None, None, -1)`
      keeps [3, 2, 1, 0]. */
  lemma FourPulsesScenario()
    ensures Indices(All, 4) == Some([0, 1, 2, 3])
    ensures Indices(Slice(None, None, Some(2)), 4) == Some([0, 2])
    ensures Indices(Slice(None, None, Some(-1)), 4) == Some([3, 2, 1, 0])
  {
    AllSelectsEverything(4);
    assert seq(4, i => i) == [0, 1, 2, 3];
    EveryOtherOfFour();
    ReversedFour();
  }

  lemma EveryOtherOfFour()
    ensures Indices(Slice(None, None, Some(2)), 4) == Some([0, 2])
  {
    assert Count(0, 4, 2) == 2;
    assert Progression(0, 2, 2) == [0, 2];
  }

  lemma ReversedFour()
    ensures Indices(Slice(None, None, Some(-1)), 4) == Some([3, 2, 1, 0])
  {
    assert Count(-1, 3, 1) == 4;
    assert Progression(3, -1, 4) == [3, 2, 1, 0];
  }
}
