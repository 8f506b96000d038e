/** Floating-point pixel values as reals with an explicit NaN, and the few
    array-level helpers (sums, shapes) that the processors share. */
module Pixels {

  /** An IEEE value seen as a real number or NaN (infinities are not modelled). */
  datatype Pixel = NaN | Val(v: real)

  /** An extended real, used for thresholds and ranges whose default ends are
      -inf and inf. */
  datatype Ext = NegInf | Finite(r: real) | PosInf

  const Zero: Pixel := Val(0.0)

  /** IEEE arithmetic: NaN in, NaN out. */
  function Add(a: Pixel, b: Pixel): (r: Pixel)
    ensures r.NaN? <==> a.NaN? || b.NaN?
  {
    if a.NaN? || b.NaN? then NaN else Val(a.v + b.v)
  }

  function Sub(a: Pixel, b: Pixel): (r: Pixel)
    ensures r.NaN? <==> a.NaN? || b.NaN?
  {
    if a.NaN? || b.NaN? then NaN else Val(a.v - b.v)
  }

  function Mul(a: Pixel, b: Pixel): (r: Pixel)
    ensures r.NaN? <==> a.NaN? || b.NaN?
  {
    if a.NaN? || b.NaN? then NaN else Val(a.v * b.v)
  }

  /** Division by a positive element count. */
  function DivCount(a: Pixel, n: nat): (r: Pixel)
    requires n > 0
    ensures r.NaN? <==> a.NaN?
  {
    if a.NaN? then NaN else Val(a.v / (n as real))
  }

  /** `p < b`; false when `p` is NaN, as every IEEE comparison with NaN. */
  predicate Less(p: Pixel, b: Ext) {
    p.Val? && match b
              case NegInf => false
              case Finite(r) => p.v < r
              case PosInf => true
  }

  /** `p > b`; false when `p` is NaN. */
  predicate Greater(p: Pixel, b: Ext) {
    p.Val? && match b
              case NegInf => true
              case Finite(r) => p.v > r
              case PosInf => false
  }

  /** `v < lb or v > ub`: false for NaN. */
  predicate OutOfRange(p: Pixel, lb: Ext, ub: Ext) {
    Less(p, lb) || Greater(p, ub)
  }

  /** A 2-D array as a sequence of rows. */
  type Image = seq<seq<Pixel>>

  /** Every row has the same length (all numpy arrays are rectangular). */
  ghost predicate IsRect(img: Image) {
    forall i, j :: 0 <= i < |img| && 0 <= j < |img| ==> |img[i]| == |img[j]|
  }

  /** Same shape: same number of rows, and rows of equal length pairwise. */
  predicate SameShape(a: Image, b: Image) {
    |a| == |b| && forall i :: 0 <= i < |a| ==> |a[i]| == |b[i]|
  }

  /** The number of columns of a rectangular image. */
  function Width(img: Image): nat {
    if img == [] then 0 else |img[0]|
  }

  /** An image with the shape of a rectangular image is rectangular. */
  lemma SameShapeRect(a: Image, b: Image)
    requires SameShape(a, b) && IsRect(b)
    ensures IsRect(a)
  {
    forall i, j | 0 <= i < |a| && 0 <= j < |a| ensures |a[i]| == |a[j]| {
      assert |a[i]| == |b[i]| && |a[j]| == |b[j]|;
    }
  }

  /** `np.sum` over a flat sequence, accumulated left to right. */
  function Sum(s: seq<Pixel>): Pixel {
    if s == [] then Zero else Add(Sum(s[..|s| - 1]), s[|s| - 1])
  }

  /** The real sum of the non-NaN entries. */
  function RealSum(s: seq<Pixel>): real {
    if s == [] then 0.0
    else (if s[|s| - 1].NaN? then 0.0 else s[|s| - 1].v) + RealSum(s[..|s| - 1])
  }

  /** `np.sum` is NaN exactly when some entry is NaN, and is otherwise the
      real sum of the entries. */
  lemma {:induction false} SumNaNIff(s: seq<Pixel>)
    ensures Sum(s).NaN? <==> exists i :: 0 <= i < |s| && s[i].NaN?
    ensures Sum(s).Val? ==> Sum(s).v == RealSum(s)
  {
    if s != [] {
      var init := s[..|s| - 1];
      SumNaNIff(init);
      if Sum(s).NaN? {
        if !s[|s| - 1].NaN? {
          var i :| 0 <= i < |init| && init[i].NaN?;
          assert s[i].NaN?;
        }
      } else {
        forall i | 0 <= i < |s| ensures !s[i].NaN? {
          if i < |s| - 1 { assert s[i] == init[i]; }
        }
      }
    }
  }

  /** The real sum distributes over concatenation. */
  lemma {:induction false} RealSumAppend(a: seq<Pixel>, b: seq<Pixel>)
    ensures RealSum(a + b) == RealSum(a) + RealSum(b)
  {
    if b == [] {
      assert a + b == a;
    } else {
      var b' := b[..|b| - 1];
      assert (a + b)[..|a + b| - 1] == a + b';
      RealSumAppend(a, b');
    }
  }

  /** `np.abs`. */
  function Abs(a: Pixel): (r: Pixel)
    ensures r.NaN? <==> a.NaN?
    ensures r.Val? ==> r.v >= 0.0 && (r.v == a.v || r.v == -a.v)
  {
    if a.NaN? then NaN else if a.v < 0.0 then Val(-a.v) else a
  }

  /** `np.sum` of a concatenation is the sum of the two sums. */
  lemma {:induction false} SumAppend(a: seq<Pixel>, b: seq<Pixel>)
    ensures Sum(a + b) == Add(Sum(a), Sum(b))
  {
    if b == [] {
      assert a + b == a;
    } else {
      var b' := b[..|b| - 1];
      assert (a + b)[..|a + b| - 1] == a + b';
      SumAppend(a, b');
    }
  }

  /** The row-major concatenation of the rows of an image. */
  function Flatten(img: Image): (r: seq<Pixel>)
    ensures |r| == TotalSize(img)
  {
    if img == [] then [] else Flatten(img[..|img| - 1]) + img[|img| - 1]
  }

  function TotalSize(img: Image): nat {
    if img == [] then 0 else TotalSize(img[..|img| - 1]) + |img[|img| - 1]|
  }
  /** One moving-average step: the average `acc` moves towards `sample` by
      `1/count`, that is `acc + (sample - acc) / count`. */
  function Blend(acc: Pixel, sample: Pixel, count: nat): (r: Pixel)
    requires count > 0
    ensures r.NaN? <==> acc.NaN? || sample.NaN?
  {
    Add(acc, DivCount(Sub(sample, acc), count))
  }

  /** A step with count 1 replaces a finite average by the sample. */
  lemma BlendFirst(acc: Pixel, sample: Pixel)
    requires acc.Val?
    ensures Blend(acc, sample, 1) == sample
  {
  }

  /** Blending with count `n + 1` into the mean of `n` values gives the mean
      of the `n + 1` values. */
  lemma BlendMean(total: real, n: nat, x: real)
    requires n == 0 ==> total == 0.0
    ensures Blend(Val(if n == 0 then 0.0 else total / n as real), Val(x), n + 1) == Val((total + x) / (n + 1) as real)
  {
    var m := if n == 0 then 0.0 else total / n as real;
    var k := (n + 1) as real;
    assert m * n as real == total;
    assert m + (x - m) / k == (m * k + (x - m)) / k;
    assert m * k + (x - m) == total + x;
  }
}
