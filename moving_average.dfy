/** The windowed moving-average container, through the interface the
    processors use: assignment of a new sample (`None` empties it),
    deletion, and a change of window. The average of an array is kept pixel
    by pixel. The container is modelled as a value: a processor owns one per
    averaged quantity and replaces it on every assignment. */
module MovingAverages {
  import opened Common
  import opened Pixels

  /** A window size is at least 1. */
  type Window = w: nat | w >= 1 witness 1

  /** `count` samples have been blended into `value` (`None` when empty). */
  datatype MovingAverage = MovingAverage(window: Window, count: nat, value: Option<Image>)

  predicate Valid(ma: MovingAverage) {
    ma.value.None? <==> ma.count == 0
  }

  /** A container that has received nothing. */
  function Empty(window: Window): (r: MovingAverage)
    ensures r.window == window && r.count == 0 && r.value.None? && Valid(r)
  {
    MovingAverage(window, 0, None)
  }

  /** Pixel-wise `acc + (sample - acc) / n`. */
  function BlendImage(acc: Image, sample: Image, n: nat): (r: Image)
    requires n > 0 && SameShape(acc, sample)
    ensures SameShape(r, acc)
    ensures forall i, j :: 0 <= i < |r| && 0 <= j < |r[i]| ==> r[i][j] == Blend(acc[i][j], sample[i][j], n)
  {
    seq(|acc|, i requires 0 <= i < |acc| =>
      seq(|acc[i]|, j requires 0 <= j < |acc[i]| => Blend(acc[i][j], sample[i][j], n)))
  }

  /** Assignment of a sample. `None` empties the container. The first sample
      is stored as it is. While fewer than `window` samples have been
      blended, the next one is blended with weight `1/(count + 1)`, which
      keeps the arithmetic mean; after that the weight stays `1/window` and
      the count stays at `window`. A sample whose shape differs from the
      stored average is refused. */
  function Assign(ma: MovingAverage, sample: Option<Image>): (r: Outcome<MovingAverage>)
    ensures r.Ok? ==> r.value.window == ma.window && Valid(r.value)
    ensures sample.None? ==> r == Ok(Empty(ma.window))
    ensures r.Fail? <==> sample.Some? && ma.value.Some? && !SameShape(ma.value.value, sample.value)
    ensures r.Fail? ==> r.error == ShapeMismatchError
    ensures sample.Some? && ma.value.None? ==> r == Ok(MovingAverage(ma.window, 1, sample))
    ensures r.Ok? && sample.Some? ==> r.value.value.Some? && SameShape(r.value.value.value, sample.value)
    ensures r.Ok? && sample.Some? && ma.value.Some? ==>
      r.value.count == (if ma.count < ma.window then ma.count + 1 else ma.window as nat)
  {
    match sample
    case None => Ok(Empty(ma.window))
    case Some(s) =>
      match ma.value
      case None => Ok(MovingAverage(ma.window, 1, sample))
      case Some(acc) =>
        if !SameShape(acc, s) then Fail(ShapeMismatchError)
        else
          var n: nat := if ma.count < ma.window then ma.count + 1 else ma.window;
          Ok(MovingAverage(ma.window, n, Some(BlendImage(acc, s, n))))
  }

  /** `del`: back to the empty container, with the same window. */
  function Delete(ma: MovingAverage): (r: MovingAverage)
    ensures r == Empty(ma.window)
  {
    MovingAverage(ma.window, 0, None)
  }

  /** A window change applies to future blending only; a window below 1 is
      refused. */
  function SetWindow(ma: MovingAverage, w: int): (r: Outcome<MovingAverage>)
    ensures r.Fail? <==> w < 1
    ensures r.Fail? ==> r.error == ValueError
    ensures r.Ok? ==> r.value.window == w && r.value.count == ma.count && r.value.value == ma.value
  {
    if w < 1 then Fail(ValueError) else Ok(ma.(window := w))
  }

  /** Assignment of every sample of `samples`, in order (stopping at the
      first refusal). */
  function AssignAll(ma: MovingAverage, samples: seq<Image>): Outcome<MovingAverage> {
    if samples == [] then Ok(ma)
    else match AssignAll(ma, samples[..|samples| - 1])
      case Fail(e) => Fail(e)
      case Ok(m) => Assign(m, Some(samples[|samples| - 1]))
  }

  /** The values of pixel (i, j) across a list of images. */
  function Column(samples: seq<Image>, i: nat, j: nat): (r: seq<Pixel>)
    requires forall t :: 0 <= t < |samples| ==> i < |samples[t]| && j < |samples[t][i]|
    ensures |r| == |samples|
    ensures forall t :: 0 <= t < |samples| ==> r[t] == samples[t][i][j]
  {
    seq(|samples|, t requires 0 <= t < |samples| => samples[t][i][j])
  }

  /** Every sample has the shape of the first one and holds no NaN. */
  predicate Uniform(samples: seq<Image>) {
    |samples| > 0 &&
    (forall t :: 0 <= t < |samples| ==> SameShape(samples[t], samples[0])) &&
    (forall t, i, j :: 0 <= t < |samples| && 0 <= i < |samples[t]| && 0 <= j < |samples[t][i]| ==> samples[t][i][j].Val?)
  }

  /** The pixel-wise arithmetic mean of a uniform list of images. */
  function Mean(samples: seq<Image>): (r: Image)
    requires Uniform(samples)
    ensures SameShape(r, samples[0])
  {
    seq(|samples[0]|, i requires 0 <= i < |samples[0]| =>
      seq(|samples[0][i]|, j requires 0 <= j < |samples[0][i]| =>
        Val(RealSum(Column(samples, i, j)) / |samples| as real)))
  }

  lemma UniformPrefix(samples: seq<Image>)
    requires Uniform(samples) && |samples| > 1
    ensures Uniform(samples[..|samples| - 1])
  {
    var init := samples[..|samples| - 1];
    assert forall t :: 0 <= t < |init| ==> init[t] == samples[t];
  }

  /** While no more than `window` samples have been assigned, the container
      holds their exact pixel-wise arithmetic mean (a cumulative mean). */
  lemma {:induction false} CumulativeMean(window: Window, samples: seq<Image>)
    requires Uniform(samples) && |samples| <= window
    ensures AssignAll(Empty(window), samples) == Ok(MovingAverage(window, |samples|, Some(Mean(samples))))
  {
    var n := |samples|;
    var last: Image := samples[n - 1];
    var init: seq<Image> := samples[..n - 1];
    if n == 1 {
      assert init == [];
      var m := Mean(samples);
      assert |m| == |last|;
      forall i | 0 <= i < |m| ensures m[i] == last[i] {
        assert |m[i]| == |last[i]|;
        forall j | 0 <= j < |m[i]| ensures m[i][j] == last[i][j] {
          var col := Column(samples, i, j);
          assert col[..0] == [];
          assert last[i][j].Val?;
          assert RealSum(col) == last[i][j].v;
        }
      }
      assert m == last;
    } else {
      UniformPrefix(samples);
      CumulativeMean(window, init);
      var prev := Mean(init);
      assert SameShape(prev, last);
      var next := BlendImage(prev, last, n);
      var m := Mean(samples);
      assert |m| == |next|;
      forall i | 0 <= i < |m| ensures m[i] == next[i] {
        assert |m[i]| == |next[i]|;
        forall j | 0 <= j < |m[i]| ensures m[i][j] == next[i][j] {
          var col := Column(samples, i, j);
          var colInit := Column(init, i, j);
          assert col[..n - 1] == colInit;
          assert last[i][j].Val?;
          BlendMean(RealSum(colInit), n - 1, last[i][j].v);
        }
      }
      assert m == next;
    }
  }

  /** Window 2 and the samples 10, 20, 30 give the averages 10, 15 and 22.5:
      the third step blends with weight 1/2 because the count stays at 2. */
  lemma WindowTwoScenario()
    ensures var m0 := Empty(2);
      var r1 := Assign(m0, Some([[Val(10.0)]]));
      r1.Ok? && r1.value.value == Some([[Val(10.0)]]) &&
      var r2 := Assign(r1.value, Some([[Val(20.0)]]));
      r2.Ok? && r2.value.value == Some([[Val(15.0)]]) &&
      var r3 := Assign(r2.value, Some([[Val(30.0)]]));
      r3.Ok? && r3.value.value == Some([[Val(22.5)]]) && r3.value.count == 2
  {
    var i10: Image := [[Val(10.0)]];
    var i15: Image := [[Val(15.0)]];
    var i20: Image := [[Val(20.0)]];
    var i30: Image := [[Val(30.0)]];
    var b2 := BlendImage(i10, i20, 2);
    assert b2 == i15 by {
      assert b2[0] == [Val(15.0)];
    }
    var b3 := BlendImage(i15, i30, 2);
    assert b3 == [[Val(22.5)]] by {
      assert b3[0] == [Val(22.5)];
    }
  }
}
