/** The in-place image kernels of the C++ extension: NaN/threshold/image-mask
    masking of an image or of an array of images, incremental moving
    averages, NaN-aware means and gain/offset correction. Images are
    `array2<Pixel>` indexed (y, x); arrays of images are `array3<Pixel>`
    indexed (pulse, y, x); masks are `array2<bool>`. Only the sequential
    loops are modelled. */
module ImageProc {
  import opened Pixels

  // ---------------------------------------------------------------------
  // The per-pixel masking rule
  // ---------------------------------------------------------------------

  /** A pixel is flagged when the image mask covers it, when it is NaN, or
      when it lies outside `[lb, ub]`. An overload without an image mask is
      the rule with `m == false`; one without thresholds is the rule with
      `lb == NegInf` and `ub == PosInf`. */
  predicate Flagged(p: Pixel, m: bool, lb: Ext, ub: Ext) {
    m || p.NaN? || OutOfRange(p, lb, ub)
  }

  /** Every masking kernel replaces a flagged pixel by `fill` (0 for the
      `maskImageDataZero` family, NaN for the `maskImageDataNan` family) and
      keeps every other pixel. */
  function Masked(p: Pixel, m: bool, lb: Ext, ub: Ext, fill: Pixel): Pixel {
    if Flagged(p, m, lb, ub) then fill else p
  }

  /** The zero family leaves no NaN behind. */
  lemma ZeroMaskingRemovesNaN(p: Pixel, m: bool, lb: Ext, ub: Ext)
    ensures !Masked(p, m, lb, ub, Zero).NaN?
  {
  }

  /** In the zero family a pixel becomes 0 when it is masked, NaN or out of
      range, and otherwise keeps its value. */
  lemma ZeroMaskingCases(p: Pixel, m: bool, lb: Ext, ub: Ext)
    ensures Flagged(p, m, lb, ub) ==> Masked(p, m, lb, ub, Zero) == Val(0.0)
    ensures !Flagged(p, m, lb, ub) ==> Masked(p, m, lb, ub, Zero) == p && p.Val?
  {
  }

  /** In the NaN family a pixel survives (is not NaN) exactly when it was a
      number inside the range and not masked. */
  lemma NanMaskingSurvivors(p: Pixel, m: bool, lb: Ext, ub: Ext)
    ensures !Masked(p, m, lb, ub, NaN).NaN? <==> !m && p.Val? && !OutOfRange(p, lb, ub)
    ensures !Masked(p, m, lb, ub, NaN).NaN? ==> Masked(p, m, lb, ub, NaN) == p
  {
  }

  /** Masking twice with the same mask and thresholds is masking once. */
  lemma MaskingIdempotent(p: Pixel, m: bool, lb: Ext, ub: Ext, fill: Pixel)
    ensures Masked(Masked(p, m, lb, ub, fill), m, lb, ub, fill) == Masked(p, m, lb, ub, fill)
  {
  }

  /** With no image mask and no thresholds the NaN family is the identity,
      which is why `maskImageDataNan(src)` has an empty body. */
  lemma NanMaskingWithoutMaskIsIdentity(p: Pixel)
    ensures Masked(p, false, NegInf, PosInf, NaN) == p
  {
  }

  /** With no image mask and no thresholds the zero family only replaces NaN. */
  lemma ZeroMaskingWithoutMaskReplacesNaN(p: Pixel)
    ensures Masked(p, false, NegInf, PosInf, Zero) == (if p.NaN? then Zero else p)
  {
  }

  /** After an out-mask NaN-family kernel, the output mask is set exactly at
      the pixels that were already flagged in it or that are now NaN. */
  lemma NanOutMaskMarksNaN(p: Pixel, o: bool, m: bool, lb: Ext, ub: Ext)
    ensures (o || Flagged(p, m, lb, ub)) == (o || Masked(p, m, lb, ub, NaN).NaN?)
  {
  }

  /** Cell (a, b) precedes cell (j, k) in row-major order. */
  predicate Before2(a: int, b: int, j: int, k: int) {
    a < j || (a == j && b < k)
  }

  /** Cell (a, b, c) precedes cell (i, j, k) in row-major order. */
  predicate Before3(a: int, b: int, c: int, i: int, j: int, k: int) {
    a < i || (a == i && Before2(b, c, j, k))
  }

  // ---------------------------------------------------------------------
  // Masking kernels on one image
  // ---------------------------------------------------------------------

  /** `maskImageDataZero(src)`: NaN pixels become 0. */
  method MaskImageDataZero(src: array2<Pixel>)
    modifies src
    ensures forall a, b :: 0 <= a < src.Length0 && 0 <= b < src.Length1 ==>
      src[a, b] == Masked(old(src[a, b]), false, NegInf, PosInf, Zero)
  {
    var j := 0;
    while j < src.Length0
      invariant 0 <= j <= src.Length0
      invariant forall a, b :: 0 <= a < src.Length0 && 0 <= b < src.Length1 ==>
        src[a, b] == if Before2(a, b, j, 0) then Masked(old(src[a, b]), false, NegInf, PosInf, Zero) else old(src[a, b])
    {
      var k := 0;
      while k < src.Length1
        invariant 0 <= k <= src.Length1
        invariant forall a, b :: 0 <= a < src.Length0 && 0 <= b < src.Length1 ==>
          src[a, b] == if Before2(a, b, j, k) then Masked(old(src[a, b]), false, NegInf, PosInf, Zero) else old(src[a, b])
      {
        if src[j, k].NaN? {
          src[j, k] := Zero;
        }
        k := k + 1;
      }
      j := j + 1;
    }
  }

  /** `maskImageDataZero(src, mask, lb, ub, out)`: a masked pixel becomes 0;
      otherwise a NaN or out-of-range pixel becomes 0; `out` is set at every
      replaced pixel. */
  method MaskImageDataZeroMaskThresholdOut(src: array2<Pixel>, mask: array2<bool>, lb: Ext, ub: Ext, out: array2<bool>)
    requires mask.Length0 == src.Length0 && mask.Length1 == src.Length1
    requires out.Length0 == src.Length0 && out.Length1 == src.Length1
    modifies src, out
    ensures forall a, b :: 0 <= a < src.Length0 && 0 <= b < src.Length1 ==>
      src[a, b] == Masked(old(src[a, b]), old(mask[a, b]), lb, ub, Zero)
    ensures forall a, b :: 0 <= a < src.Length0 && 0 <= b < src.Length1 ==>
      out[a, b] == (old(out[a, b]) || Flagged(old(src[a, b]), old(mask[a, b]), lb, ub))
  {
    var j := 0;
    while j < src.Length0
      invariant 0 <= j <= src.Length0
      invariant forall a, b :: 0 <= a < src.Length0 && 0 <= b < src.Length1 ==>
        src[a, b] == if Before2(a, b, j, 0) then Masked(old(src[a, b]), old(mask[a, b]), lb, ub, Zero) else old(src[a, b])
      invariant forall a, b :: 0 <= a < src.Length0 && 0 <= b < src.Length1 ==>
        out[a, b] == if Before2(a, b, j, 0) then old(out[a, b]) || Flagged(old(src[a, b]), old(mask[a, b]), lb, ub) else old(out[a, b])
      invariant forall a, b :: 0 <= a < src.Length0 && 0 <= b < src.Length1 && !Before2(a, b, j, 0) ==>
        mask[a, b] == old(mask[a, b])
    {
      var k := 0;
      while k < src.Length1
        invariant 0 <= k <= src.Length1
        invariant forall a, b :: 0 <= a < src.Length0 && 0 <= b < src.Length1 ==>
          src[a, b] == if Before2(a, b, j, k) then Masked(old(src[a, b]), old(mask[a, b]), lb, ub, Zero) else old(src[a, b])
        invariant forall a, b :: 0 <= a < src.Length0 && 0 <= b < src.Length1 ==>
          out[a, b] == if Before2(a, b, j, k) then old(out[a, b]) || Flagged(old(src[a, b]), old(mask[a, b]), lb, ub) else old(out[a, b])
        invariant forall a, b :: 0 <= a < src.Length0 && 0 <= b < src.Length1 && !Before2(a, b, j, k) ==>
          mask[a, b] == old(mask[a, b])
      {
        if mask[j, k] {
          src[j, k] := Zero;
          out[j, k] := true;
        } else {
          var v := src[j, k];
          if v.NaN? || Less(v, lb) || Greater(v, ub) {
            src[j, k] := Zero;
            out[j, k] := true;
          }
        }
        k := k + 1;
      }
      j := j + 1;
    }
  }

  /** `maskImageDataNan(src)`: an empty body, kept for an API identical to
      `maskImageDataZero(src)`; it is the NaN-family rule without mask or
      thresholds, which keeps every pixel. */
  method MaskImageDataNan(src: array2<Pixel>)
    ensures forall a, b :: 0 <= a < src.Length0 && 0 <= b < src.Length1 ==>
      src[a, b] == Masked(src[a, b], false, NegInf, PosInf, NaN)
  {
  }

  /** `imageDataNanMask(src, out)`: sets `out` at every NaN pixel of `src` and
      leaves both everything else of `out` and all of `src` unchanged. */
  method ImageDataNanMask(src: array2<Pixel>, out: array2<bool>)
    requires out.Length0 == src.Length0 && out.Length1 == src.Length1
    modifies out
    ensures forall a, b :: 0 <= a < src.Length0 && 0 <= b < src.Length1 ==>
      out[a, b] == (old(out[a, b]) || Flagged(old(src[a, b]), false, NegInf, PosInf))
  {
    var j := 0;
    while j < src.Length0
      invariant 0 <= j <= src.Length0
      invariant forall a, b :: 0 <= a < src.Length0 && 0 <= b < src.Length1 ==> src[a, b] == old(src[a, b])
      invariant forall a, b :: 0 <= a < src.Length0 && 0 <= b < src.Length1 ==>
        out[a, b] == if Before2(a, b, j, 0) then old(out[a, b]) || Flagged(old(src[a, b]), false, NegInf, PosInf) else old(out[a, b])
    {
      var k := 0;
      while k < src.Length1
        invariant 0 <= k <= src.Length1
        invariant forall a, b :: 0 <= a < src.Length0 && 0 <= b < src.Length1 ==> src[a, b] == old(src[a, b])
        invariant forall a, b :: 0 <= a < src.Length0 && 0 <= b < src.Length1 ==>
          out[a, b] == if Before2(a, b, j, k) then old(out[a, b]) || Flagged(old(src[a, b]), false, NegInf, PosInf) else old(out[a, b])
      {
        if src[j, k].NaN? {
          out[j, k] := true;
        }
        k := k + 1;
      }
      j := j + 1;
    }
  }

  /** `maskImageDataZero(src, lb, ub)`: a NaN pixel or a pixel outside `[lb, ub]`
      becomes 0. */
  method MaskImageDataZeroThreshold(src: array2<Pixel>, lb: Ext, ub: Ext)
    modifies src
    ensures forall a, b :: 0 <= a < src.Length0 && 0 <= b < src.Length1 ==>
      src[a, b] == Masked(old(src[a, b]), false, lb, ub, Zero)
  {
    var j := 0;
    while j < src.Length0
      invariant 0 <= j <= src.Length0
      invariant forall a, b :: 0 <= a < src.Length0 && 0 <= b < src.Length1 ==>
        src[a, b] == if Before2(a, b, j, 0) then Masked(old(src[a, b]), false, lb, ub, Zero) else old(src[a, b])
    {
      var k := 0;
      while k < src.Length1
        invariant 0 <= k <= src.Length1
        invariant forall a, b :: 0 <= a < src.Length0 && 0 <= b < src.Length1 ==>
          src[a, b] == if Before2(a, b, j, k) then Masked(old(src[a, b]), false, lb, ub, Zero) else old(src[a, b])
      {
        var v := src[j, k];
        if v.NaN? || Less(v, lb) || Greater(v, ub) {
          src[j, k] := Zero;
        }
        k := k + 1;
      }
      j := j + 1;
    }
  }

  /** `maskImageDataZero(src, lb, ub, out)`: as `MaskImageDataZeroThreshold`, and
      `out` is set at every replaced pixel. */
  method MaskImageDataZeroThresholdOut(src: array2<Pixel>, lb: Ext, ub: Ext, out: array2<bool>)
    requires out.Length0 == src.Length0 && out.Length1 == src.Length1
    modifies src, out
    ensures forall a, b :: 0 <= a < src.Length0 && 0 <= b < src.Length1 ==>
      src[a, b] == Masked(old(src[a, b]), false, lb, ub, Zero)
    ensures forall a, b :: 0 <= a < src.Length0 && 0 <= b < src.Length1 ==>
      out[a, b] == (old(out[a, b]) || Flagged(old(src[a, b]), false, lb, ub))
  {
    var j := 0;
    while j < src.Length0
      invariant 0 <= j <= src.Length0
      invariant forall a, b :: 0 <= a < src.Length0 && 0 <= b < src.Length1 ==>
        src[a, b] == if Before2(a, b, j, 0) then Masked(old(src[a, b]), false, lb, ub, Zero) else old(src[a, b])
      invariant forall a, b :: 0 <= a < src.Length0 && 0 <= b < src.Length1 ==>
        out[a, b] == if Before2(a, b, j, 0) then old(out[a, b]) || Flagged(old(src[a, b]), false, lb, ub) else old(out[a, b])
    {
      var k := 0;
      while k < src.Length1
        invariant 0 <= k <= src.Length1
        invariant forall a, b :: 0 <= a < src.Length0 && 0 <= b < src.Length1 ==>
          src[a, b] == if Before2(a, b, j, k) then Masked(old(src[a, b]), false, lb, ub, Zero) else old(src[a, b])
        invariant forall a, b :: 0 <= a < src.Length0 && 0 <= b < src.Length1 ==>
          out[a, b] == if Before2(a, b, j, k) then old(out[a, b]) || Flagged(old(src[a, b]), false, lb, ub) else old(out[a, b])
      {
        var v := src[j, k];
        if v.NaN? || Less(v, lb) || Greater(v, ub) {
          src[j, k] := Zero;
          out[j, k] := true;
        }
        k := k + 1;
      }
      j := j + 1;
    }
  }

  /** `maskImageDataNan(src, lb, ub)`: a NaN pixel is skipped; a number outside
      `[lb, ub]` becomes NaN. */
  method MaskImageDataNanThreshold(src: array2<Pixel>, lb: Ext, ub: Ext)
    modifies src
    ensures forall a, b :: 0 <= a < src.Length0 && 0 <= b < src.Length1 ==>
      src[a, b] == Masked(old(src[a, b]), false, lb, ub, NaN)
  {
    var j := 0;
    while j < src.Length0
      invariant 0 <= j <= src.Length0
      invariant forall a, b :: 0 <= a < src.Length0 && 0 <= b < src.Length1 ==>
        src[a, b] == if Before2(a, b, j, 0) then Masked(old(src[a, b]), false, lb, ub, NaN) else old(src[a, b])
    {
      var k := 0;
      while k < src.Length1
        invariant 0 <= k <= src.Length1
        invariant forall a, b :: 0 <= a < src.Length0 && 0 <= b < src.Length1 ==>
          src[a, b] == if Before2(a, b, j, k) then Masked(old(src[a, b]), false, lb, ub, NaN) else old(src[a, b])
      {
        var v := src[j, k];
        if !v.NaN? {
          if Less(v, lb) || Greater(v, ub) {
            src[j, k] := NaN;
          }
        }
        k := k + 1;
      }
      j := j + 1;
    }
  }

  /** `maskImageDataNan(src, lb, ub, out)`: as `MaskImageDataNanThreshold`, and
      `out` is set at every pixel that was NaN or became NaN. */
  method MaskImageDataNanThresholdOut(src: array2<Pixel>, lb: Ext, ub: Ext, out: array2<bool>)
    requires out.Length0 == src.Length0 && out.Length1 == src.Length1
    modifies src, out
    ensures forall a, b :: 0 <= a < src.Length0 && 0 <= b < src.Length1 ==>
      src[a, b] == Masked(old(src[a, b]), false, lb, ub, NaN)
    ensures forall a, b :: 0 <= a < src.Length0 && 0 <= b < src.Length1 ==>
      out[a, b] == (old(out[a, b]) || Flagged(old(src[a, b]), false, lb, ub))
  {
    var j := 0;
    while j < src.Length0
      invariant 0 <= j <= src.Length0
      invariant forall a, b :: 0 <= a < src.Length0 && 0 <= b < src.Length1 ==>
        src[a, b] == if Before2(a, b, j, 0) then Masked(old(src[a, b]), false, lb, ub, NaN) else old(src[a, b])
      invariant forall a, b :: 0 <= a < src.Length0 && 0 <= b < src.Length1 ==>
        out[a, b] == if Before2(a, b, j, 0) then old(out[a, b]) || Flagged(old(src[a, b]), false, lb, ub) else old(out[a, b])
    {
      var k := 0;
      while k < src.Length1
        invariant 0 <= k <= src.Length1
        invariant forall a, b :: 0 <= a < src.Length0 && 0 <= b < src.Length1 ==>
          src[a, b] == if Before2(a, b, j, k) then Masked(old(src[a, b]), false, lb, ub, NaN) else old(src[a, b])
        invariant forall a, b :: 0 <= a < src.Length0 && 0 <= b < src.Length1 ==>
          out[a, b] == if Before2(a, b, j, k) then old(out[a, b]) || Flagged(old(src[a, b]), false, lb, ub) else old(out[a, b])
      {
        var v := src[j, k];
        if v.NaN? {
          out[j, k] := true;
        } else if Less(v, lb) || Greater(v, ub) {
          src[j, k] := NaN;
          out[j, k] := true;
        }
        k := k + 1;
      }
      j := j + 1;
    }
  }

  /** `maskImageDataZero(src, mask)`: a masked or NaN pixel becomes 0. */
  method MaskImageDataZeroMask(src: array2<Pixel>, mask: array2<bool>)
    requires mask.Length0 == src.Length0 && mask.Length1 == src.Length1
    modifies src
    ensures forall a, b :: 0 <= a < src.Length0 && 0 <= b < src.Length1 ==>
      src[a, b] == Masked(old(src[a, b]), mask[a, b], NegInf, PosInf, Zero)
  {
    var j := 0;
    while j < src.Length0
      invariant 0 <= j <= src.Length0
      invariant forall a, b :: 0 <= a < src.Length0 && 0 <= b < src.Length1 ==>
        src[a, b] == if Before2(a, b, j, 0) then Masked(old(src[a, b]), mask[a, b], NegInf, PosInf, Zero) else old(src[a, b])
    {
      var k := 0;
      while k < src.Length1
        invariant 0 <= k <= src.Length1
        invariant forall a, b :: 0 <= a < src.Length0 && 0 <= b < src.Length1 ==>
          src[a, b] == if Before2(a, b, j, k) then Masked(old(src[a, b]), mask[a, b], NegInf, PosInf, Zero) else old(src[a, b])
      {
        if mask[j, k] || src[j, k].NaN? {
          src[j, k] := Zero;
        }
        k := k + 1;
      }
      j := j + 1;
    }
  }

  /** `maskImageDataZero(src, mask, out)`: as `MaskImageDataZeroMask`, and `out`
      is set at every replaced pixel (`out` may be `mask` itself). */
  method MaskImageDataZeroMaskOut(src: array2<Pixel>, mask: array2<bool>, out: array2<bool>)
    requires mask.Length0 == src.Length0 && mask.Length1 == src.Length1
    requires out.Length0 == src.Length0 && out.Length1 == src.Length1
    modifies src, out
    ensures forall a, b :: 0 <= a < src.Length0 && 0 <= b < src.Length1 ==>
      src[a, b] == Masked(old(src[a, b]), old(mask[a, b]), NegInf, PosInf, Zero)
    ensures forall a, b :: 0 <= a < src.Length0 && 0 <= b < src.Length1 ==>
      out[a, b] == (old(out[a, b]) || Flagged(old(src[a, b]), old(mask[a, b]), NegInf, PosInf))
  {
    var j := 0;
    while j < src.Length0
      invariant 0 <= j <= src.Length0
      invariant forall a, b :: 0 <= a < src.Length0 && 0 <= b < src.Length1 ==>
        src[a, b] == if Before2(a, b, j, 0) then Masked(old(src[a, b]), old(mask[a, b]), NegInf, PosInf, Zero) else old(src[a, b])
      invariant forall a, b :: 0 <= a < src.Length0 && 0 <= b < src.Length1 ==>
        out[a, b] == if Before2(a, b, j, 0) then old(out[a, b]) || Flagged(old(src[a, b]), old(mask[a, b]), NegInf, PosInf) else old(out[a, b])
      invariant forall a, b :: 0 <= a < src.Length0 && 0 <= b < src.Length1 && !Before2(a, b, j, 0) ==>
        mask[a, b] == old(mask[a, b])
    {
      var k := 0;
      while k < src.Length1
        invariant 0 <= k <= src.Length1
        invariant forall a, b :: 0 <= a < src.Length0 && 0 <= b < src.Length1 ==>
          src[a, b] == if Before2(a, b, j, k) then Masked(old(src[a, b]), old(mask[a, b]), NegInf, PosInf, Zero) else old(src[a, b])
        invariant forall a, b :: 0 <= a < src.Length0 && 0 <= b < src.Length1 ==>
          out[a, b] == if Before2(a, b, j, k) then old(out[a, b]) || Flagged(old(src[a, b]), old(mask[a, b]), NegInf, PosInf) else old(out[a, b])
        invariant forall a, b :: 0 <= a < src.Length0 && 0 <= b < src.Length1 && !Before2(a, b, j, k) ==>
          mask[a, b] == old(mask[a, b])
      {
        if mask[j, k] || src[j, k].NaN? {
          src[j, k] := Zero;
          out[j, k] := true;
        }
        k := k + 1;
      }
      j := j + 1;
    }
  }

  /** `maskImageDataNan(src, mask)`: a masked pixel becomes NaN. */
  method MaskImageDataNanMask(src: array2<Pixel>, mask: array2<bool>)
    requires mask.Length0 == src.Length0 && mask.Length1 == src.Length1
    modifies src
    ensures forall a, b :: 0 <= a < src.Length0 && 0 <= b < src.Length1 ==>
      src[a, b] == Masked(old(src[a, b]), mask[a, b], NegInf, PosInf, NaN)
  {
    var j := 0;
    while j < src.Length0
      invariant 0 <= j <= src.Length0
      invariant forall a, b :: 0 <= a < src.Length0 && 0 <= b < src.Length1 ==>
        src[a, b] == if Before2(a, b, j, 0) then Masked(old(src[a, b]), mask[a, b], NegInf, PosInf, NaN) else old(src[a, b])
    {
      var k := 0;
      while k < src.Length1
        invariant 0 <= k <= src.Length1
        invariant forall a, b :: 0 <= a < src.Length0 && 0 <= b < src.Length1 ==>
          src[a, b] == if Before2(a, b, j, k) then Masked(old(src[a, b]), mask[a, b], NegInf, PosInf, NaN) else old(src[a, b])
      {
        if mask[j, k] {
          src[j, k] := NaN;
        }
        k := k + 1;
      }
      j := j + 1;
    }
  }

  /** `maskImageDataNan(src, mask, out)`: a NaN pixel only sets `out`; a masked
      number becomes NaN and sets `out` (the source stores NaN into the boolean,
      which converts to true). */
  method MaskImageDataNanMaskOut(src: array2<Pixel>, mask: array2<bool>, out: array2<bool>)
    requires mask.Length0 == src.Length0 && mask.Length1 == src.Length1
    requires out.Length0 == src.Length0 && out.Length1 == src.Length1
    modifies src, out
    ensures forall a, b :: 0 <= a < src.Length0 && 0 <= b < src.Length1 ==>
      src[a, b] == Masked(old(src[a, b]), old(mask[a, b]), NegInf, PosInf, NaN)
    ensures forall a, b :: 0 <= a < src.Length0 && 0 <= b < src.Length1 ==>
      out[a, b] == (old(out[a, b]) || Flagged(old(src[a, b]), old(mask[a, b]), NegInf, PosInf))
  {
    var j := 0;
    while j < src.Length0
      invariant 0 <= j <= src.Length0
      invariant forall a, b :: 0 <= a < src.Length0 && 0 <= b < src.Length1 ==>
        src[a, b] == if Before2(a, b, j, 0) then Masked(old(src[a, b]), old(mask[a, b]), NegInf, PosInf, NaN) else old(src[a, b])
      invariant forall a, b :: 0 <= a < src.Length0 && 0 <= b < src.Length1 ==>
        out[a, b] == if Before2(a, b, j, 0) then old(out[a, b]) || Flagged(old(src[a, b]), old(mask[a, b]), NegInf, PosInf) else old(out[a, b])
      invariant forall a, b :: 0 <= a < src.Length0 && 0 <= b < src.Length1 && !Before2(a, b, j, 0) ==>
        mask[a, b] == old(mask[a, b])
    {
      var k := 0;
      while k < src.Length1
        invariant 0 <= k <= src.Length1
        invariant forall a, b :: 0 <= a < src.Length0 && 0 <= b < src.Length1 ==>
          src[a, b] == if Before2(a, b, j, k) then Masked(old(src[a, b]), old(mask[a, b]), NegInf, PosInf, NaN) else old(src[a, b])
        invariant forall a, b :: 0 <= a < src.Length0 && 0 <= b < src.Length1 ==>
          out[a, b] == if Before2(a, b, j, k) then old(out[a, b]) || Flagged(old(src[a, b]), old(mask[a, b]), NegInf, PosInf) else old(out[a, b])
        invariant forall a, b :: 0 <= a < src.Length0 && 0 <= b < src.Length1 && !Before2(a, b, j, k) ==>
          mask[a, b] == old(mask[a, b])
      {
        if src[j, k].NaN? {
          out[j, k] := true;
        } else if mask[j, k] {
          src[j, k] := NaN;
          out[j, k] := true;
        }
        k := k + 1;
      }
      j := j + 1;
    }
  }

  /** `maskImageDataZero(src, mask, lb, ub)`: a masked pixel becomes 0 whatever
      its value; otherwise a NaN or out-of-range pixel becomes 0. */
  method MaskImageDataZeroMaskThreshold(src: array2<Pixel>, mask: array2<bool>, lb: Ext, ub: Ext)
    requires mask.Length0 == src.Length0 && mask.Length1 == src.Length1
    modifies src
    ensures forall a, b :: 0 <= a < src.Length0 && 0 <= b < src.Length1 ==>
      src[a, b] == Masked(old(src[a, b]), mask[a, b], lb, ub, Zero)
  {
    var j := 0;
    while j < src.Length0
      invariant 0 <= j <= src.Length0
      invariant forall a, b :: 0 <= a < src.Length0 && 0 <= b < src.Length1 ==>
        src[a, b] == if Before2(a, b, j, 0) then Masked(old(src[a, b]), mask[a, b], lb, ub, Zero) else old(src[a, b])
    {
      var k := 0;
      while k < src.Length1
        invariant 0 <= k <= src.Length1
        invariant forall a, b :: 0 <= a < src.Length0 && 0 <= b < src.Length1 ==>
          src[a, b] == if Before2(a, b, j, k) then Masked(old(src[a, b]), mask[a, b], lb, ub, Zero) else old(src[a, b])
      {
        if mask[j, k] {
          src[j, k] := Zero;
        } else {
          var v := src[j, k];
          if v.NaN? || Less(v, lb) || Greater(v, ub) {
            src[j, k] := Zero;
          }
        }
        k := k + 1;
      }
      j := j + 1;
    }
  }

  /** `maskImageDataNan(src, mask, lb, ub)`: a masked pixel becomes NaN whatever
      its value; otherwise a number outside `[lb, ub]` becomes NaN. */
  method MaskImageDataNanMaskThreshold(src: array2<Pixel>, mask: array2<bool>, lb: Ext, ub: Ext)
    requires mask.Length0 == src.Length0 && mask.Length1 == src.Length1
    modifies src
    ensures forall a, b :: 0 <= a < src.Length0 && 0 <= b < src.Length1 ==>
      src[a, b] == Masked(old(src[a, b]), mask[a, b], lb, ub, NaN)
  {
    var j := 0;
    while j < src.Length0
      invariant 0 <= j <= src.Length0
      invariant forall a, b :: 0 <= a < src.Length0 && 0 <= b < src.Length1 ==>
        src[a, b] == if Before2(a, b, j, 0) then Masked(old(src[a, b]), mask[a, b], lb, ub, NaN) else old(src[a, b])
    {
      var k := 0;
      while k < src.Length1
        invariant 0 <= k <= src.Length1
        invariant forall a, b :: 0 <= a < src.Length0 && 0 <= b < src.Length1 ==>
          src[a, b] == if Before2(a, b, j, k) then Masked(old(src[a, b]), mask[a, b], lb, ub, NaN) else old(src[a, b])
      {
        if mask[j, k] {
          src[j, k] := NaN;
        } else {
          var v := src[j, k];
          if !v.NaN? {
            if Less(v, lb) || Greater(v, ub) {
              src[j, k] := NaN;
            }
          }
        }
        k := k + 1;
      }
      j := j + 1;
    }
  }

  /** `maskImageDataNan(src, mask, lb, ub, out)`: as
      `MaskImageDataNanMaskThreshold`, and `out` is set at every masked, NaN or
      out-of-range pixel. */
  method MaskImageDataNanMaskThresholdOut(src: array2<Pixel>, mask: array2<bool>, lb: Ext, ub: Ext, out: array2<bool>)
    requires mask.Length0 == src.Length0 && mask.Length1 == src.Length1
    requires out.Length0 == src.Length0 && out.Length1 == src.Length1
    modifies src, out
    ensures forall a, b :: 0 <= a < src.Length0 && 0 <= b < src.Length1 ==>
      src[a, b] == Masked(old(src[a, b]), old(mask[a, b]), lb, ub, NaN)
    ensures forall a, b :: 0 <= a < src.Length0 && 0 <= b < src.Length1 ==>
      out[a, b] == (old(out[a, b]) || Flagged(old(src[a, b]), old(mask[a, b]), lb, ub))
  {
    var j := 0;
    while j < src.Length0
      invariant 0 <= j <= src.Length0
      invariant forall a, b :: 0 <= a < src.Length0 && 0 <= b < src.Length1 ==>
        src[a, b] == if Before2(a, b, j, 0) then Masked(old(src[a, b]), old(mask[a, b]), lb, ub, NaN) else old(src[a, b])
      invariant forall a, b :: 0 <= a < src.Length0 && 0 <= b < src.Length1 ==>
        out[a, b] == if Before2(a, b, j, 0) then old(out[a, b]) || Flagged(old(src[a, b]), old(mask[a, b]), lb, ub) else old(out[a, b])
      invariant forall a, b :: 0 <= a < src.Length0 && 0 <= b < src.Length1 && !Before2(a, b, j, 0) ==>
        mask[a, b] == old(mask[a, b])
    {
      var k := 0;
      while k < src.Length1
        invariant 0 <= k <= src.Length1
        invariant forall a, b :: 0 <= a < src.Length0 && 0 <= b < src.Length1 ==>
          src[a, b] == if Before2(a, b, j, k) then Masked(old(src[a, b]), old(mask[a, b]), lb, ub, NaN) else old(src[a, b])
        invariant forall a, b :: 0 <= a < src.Length0 && 0 <= b < src.Length1 ==>
          out[a, b] == if Before2(a, b, j, k) then old(out[a, b]) || Flagged(old(src[a, b]), old(mask[a, b]), lb, ub) else old(out[a, b])
        invariant forall a, b :: 0 <= a < src.Length0 && 0 <= b < src.Length1 && !Before2(a, b, j, k) ==>
          mask[a, b] == old(mask[a, b])
      {
        var v := src[j, k];
        if mask[j, k] {
          src[j, k] := NaN;
          out[j, k] := true;
        } else if v.NaN? {
          out[j, k] := true;
        } else if Less(v, lb) || Greater(v, ub) {
          src[j, k] := NaN;
          out[j, k] := true;
        }
        k := k + 1;
      }
      j := j + 1;
    }
  }

  // ---------------------------------------------------------------------
  // Masking kernels on an array of images (the image mask and the
  // thresholds apply to every image of the array)
  // ---------------------------------------------------------------------

  /** `maskImageDataNan(src)` on an array of images: an empty body, which is
      the NaN-family rule without mask or thresholds. */
  method MaskImageArrayNan(src: array3<Pixel>)
    ensures forall a, b, c :: 0 <= a < src.Length0 && 0 <= b < src.Length1 && 0 <= c < src.Length2 ==>
      src[a, b, c] == Masked(src[a, b, c], false, NegInf, PosInf, NaN)
  {
  }


  /** `maskImageDataZero(src)` on an array of images: every NaN pixel becomes 0. */
  method MaskImageArrayZero(src: array3<Pixel>)
    modifies src
    ensures forall a, b, c :: 0 <= a < src.Length0 && 0 <= b < src.Length1 && 0 <= c < src.Length2 ==>
      src[a, b, c] == Masked(old(src[a, b, c]), false, NegInf, PosInf, Zero)
  {
    var i := 0;
    while i < src.Length0
      invariant 0 <= i <= src.Length0
      invariant forall a, b, c :: 0 <= a < src.Length0 && 0 <= b < src.Length1 && 0 <= c < src.Length2 ==>
        src[a, b, c] == if Before3(a, b, c, i, 0, 0) then Masked(old(src[a, b, c]), false, NegInf, PosInf, Zero) else old(src[a, b, c])
    {
      var j := 0;
      while j < src.Length1
        invariant 0 <= j <= src.Length1
        invariant forall a, b, c :: 0 <= a < src.Length0 && 0 <= b < src.Length1 && 0 <= c < src.Length2 ==>
          src[a, b, c] == if Before3(a, b, c, i, j, 0) then Masked(old(src[a, b, c]), false, NegInf, PosInf, Zero) else old(src[a, b, c])
      {
        var k := 0;
        while k < src.Length2
          invariant 0 <= k <= src.Length2
          invariant forall a, b, c :: 0 <= a < src.Length0 && 0 <= b < src.Length1 && 0 <= c < src.Length2 ==>
            src[a, b, c] == if Before3(a, b, c, i, j, k) then Masked(old(src[a, b, c]), false, NegInf, PosInf, Zero) else old(src[a, b, c])
        {
          if src[i, j, k].NaN? {
            src[i, j, k] := Zero;
          }
          k := k + 1;
        }
        j := j + 1;
      }
      i := i + 1;
    }
  }

  /** `maskImageDataZero(src, lb, ub)` on an array of images: a NaN or out-of-
      range pixel becomes 0. */
  method MaskImageArrayZeroThreshold(src: array3<Pixel>, lb: Ext, ub: Ext)
    modifies src
    ensures forall a, b, c :: 0 <= a < src.Length0 && 0 <= b < src.Length1 && 0 <= c < src.Length2 ==>
      src[a, b, c] == Masked(old(src[a, b, c]), false, lb, ub, Zero)
  {
    var i := 0;
    while i < src.Length0
      invariant 0 <= i <= src.Length0
      invariant forall a, b, c :: 0 <= a < src.Length0 && 0 <= b < src.Length1 && 0 <= c < src.Length2 ==>
        src[a, b, c] == if Before3(a, b, c, i, 0, 0) then Masked(old(src[a, b, c]), false, lb, ub, Zero) else old(src[a, b, c])
    {
      var j := 0;
      while j < src.Length1
        invariant 0 <= j <= src.Length1
        invariant forall a, b, c :: 0 <= a < src.Length0 && 0 <= b < src.Length1 && 0 <= c < src.Length2 ==>
          src[a, b, c] == if Before3(a, b, c, i, j, 0) then Masked(old(src[a, b, c]), false, lb, ub, Zero) else old(src[a, b, c])
      {
        var k := 0;
        while k < src.Length2
          invariant 0 <= k <= src.Length2
          invariant forall a, b, c :: 0 <= a < src.Length0 && 0 <= b < src.Length1 && 0 <= c < src.Length2 ==>
            src[a, b, c] == if Before3(a, b, c, i, j, k) then Masked(old(src[a, b, c]), false, lb, ub, Zero) else old(src[a, b, c])
        {
          var v := src[i, j, k];
          if v.NaN? || Less(v, lb) || Greater(v, ub) {
            src[i, j, k] := Zero;
          }
          k := k + 1;
        }
        j := j + 1;
      }
      i := i + 1;
    }
  }

  /** `maskImageDataNan(src, lb, ub)` on an array of images: a number outside
      `[lb, ub]` becomes NaN (a comparison with NaN is false, so NaN stays NaN).
      */
  method MaskImageArrayNanThreshold(src: array3<Pixel>, lb: Ext, ub: Ext)
    modifies src
    ensures forall a, b, c :: 0 <= a < src.Length0 && 0 <= b < src.Length1 && 0 <= c < src.Length2 ==>
      src[a, b, c] == Masked(old(src[a, b, c]), false, lb, ub, NaN)
  {
    var i := 0;
    while i < src.Length0
      invariant 0 <= i <= src.Length0
      invariant forall a, b, c :: 0 <= a < src.Length0 && 0 <= b < src.Length1 && 0 <= c < src.Length2 ==>
        src[a, b, c] == if Before3(a, b, c, i, 0, 0) then Masked(old(src[a, b, c]), false, lb, ub, NaN) else old(src[a, b, c])
    {
      var j := 0;
      while j < src.Length1
        invariant 0 <= j <= src.Length1
        invariant forall a, b, c :: 0 <= a < src.Length0 && 0 <= b < src.Length1 && 0 <= c < src.Length2 ==>
          src[a, b, c] == if Before3(a, b, c, i, j, 0) then Masked(old(src[a, b, c]), false, lb, ub, NaN) else old(src[a, b, c])
      {
        var k := 0;
        while k < src.Length2
          invariant 0 <= k <= src.Length2
          invariant forall a, b, c :: 0 <= a < src.Length0 && 0 <= b < src.Length1 && 0 <= c < src.Length2 ==>
            src[a, b, c] == if Before3(a, b, c, i, j, k) then Masked(old(src[a, b, c]), false, lb, ub, NaN) else old(src[a, b, c])
        {
          var v := src[i, j, k];
          if Less(v, lb) || Greater(v, ub) {
            src[i, j, k] := NaN;
          }
          k := k + 1;
        }
        j := j + 1;
      }
      i := i + 1;
    }
  }

  /** `maskImageDataZero(src, mask)` on an array of images: the 2-D mask is
      applied to every image; a masked or NaN pixel becomes 0. */
  method MaskImageArrayZeroMask(src: array3<Pixel>, mask: array2<bool>)
    requires mask.Length0 == src.Length1 && mask.Length1 == src.Length2
    modifies src
    ensures forall a, b, c :: 0 <= a < src.Length0 && 0 <= b < src.Length1 && 0 <= c < src.Length2 ==>
      src[a, b, c] == Masked(old(src[a, b, c]), mask[b, c], NegInf, PosInf, Zero)
  {
    var i := 0;
    while i < src.Length0
      invariant 0 <= i <= src.Length0
      invariant forall a, b, c :: 0 <= a < src.Length0 && 0 <= b < src.Length1 && 0 <= c < src.Length2 ==>
        src[a, b, c] == if Before3(a, b, c, i, 0, 0) then Masked(old(src[a, b, c]), mask[b, c], NegInf, PosInf, Zero) else old(src[a, b, c])
    {
      var j := 0;
      while j < src.Length1
        invariant 0 <= j <= src.Length1
        invariant forall a, b, c :: 0 <= a < src.Length0 && 0 <= b < src.Length1 && 0 <= c < src.Length2 ==>
          src[a, b, c] == if Before3(a, b, c, i, j, 0) then Masked(old(src[a, b, c]), mask[b, c], NegInf, PosInf, Zero) else old(src[a, b, c])
      {
        var k := 0;
        while k < src.Length2
          invariant 0 <= k <= src.Length2
          invariant forall a, b, c :: 0 <= a < src.Length0 && 0 <= b < src.Length1 && 0 <= c < src.Length2 ==>
            src[a, b, c] == if Before3(a, b, c, i, j, k) then Masked(old(src[a, b, c]), mask[b, c], NegInf, PosInf, Zero) else old(src[a, b, c])
        {
          if mask[j, k] || src[i, j, k].NaN? {
            src[i, j, k] := Zero;
          }
          k := k + 1;
        }
        j := j + 1;
      }
      i := i + 1;
    }
  }

  /** `maskImageDataNan(src, mask)` on an array of images: the 2-D mask is applied
      to every image; a masked pixel becomes NaN. */
  method MaskImageArrayNanMask(src: array3<Pixel>, mask: array2<bool>)
    requires mask.Length0 == src.Length1 && mask.Length1 == src.Length2
    modifies src
    ensures forall a, b, c :: 0 <= a < src.Length0 && 0 <= b < src.Length1 && 0 <= c < src.Length2 ==>
      src[a, b, c] == Masked(old(src[a, b, c]), mask[b, c], NegInf, PosInf, NaN)
  {
    var i := 0;
    while i < src.Length0
      invariant 0 <= i <= src.Length0
      invariant forall a, b, c :: 0 <= a < src.Length0 && 0 <= b < src.Length1 && 0 <= c < src.Length2 ==>
        src[a, b, c] == if Before3(a, b, c, i, 0, 0) then Masked(old(src[a, b, c]), mask[b, c], NegInf, PosInf, NaN) else old(src[a, b, c])
    {
      var j := 0;
      while j < src.Length1
        invariant 0 <= j <= src.Length1
        invariant forall a, b, c :: 0 <= a < src.Length0 && 0 <= b < src.Length1 && 0 <= c < src.Length2 ==>
          src[a, b, c] == if Before3(a, b, c, i, j, 0) then Masked(old(src[a, b, c]), mask[b, c], NegInf, PosInf, NaN) else old(src[a, b, c])
      {
        var k := 0;
        while k < src.Length2
          invariant 0 <= k <= src.Length2
          invariant forall a, b, c :: 0 <= a < src.Length0 && 0 <= b < src.Length1 && 0 <= c < src.Length2 ==>
            src[a, b, c] == if Before3(a, b, c, i, j, k) then Masked(old(src[a, b, c]), mask[b, c], NegInf, PosInf, NaN) else old(src[a, b, c])
        {
          if mask[j, k] {
            src[i, j, k] := NaN;
          }
          k := k + 1;
        }
        j := j + 1;
      }
      i := i + 1;
    }
  }

  /** `maskImageDataZero(src, mask, lb, ub)` on an array of images: a masked pixel
      becomes 0 whatever its value; otherwise a NaN or out-of-range pixel becomes
      0. */
  method MaskImageArrayZeroMaskThreshold(src: array3<Pixel>, mask: array2<bool>, lb: Ext, ub: Ext)
    requires mask.Length0 == src.Length1 && mask.Length1 == src.Length2
    modifies src
    ensures forall a, b, c :: 0 <= a < src.Length0 && 0 <= b < src.Length1 && 0 <= c < src.Length2 ==>
      src[a, b, c] == Masked(old(src[a, b, c]), mask[b, c], lb, ub, Zero)
  {
    var i := 0;
    while i < src.Length0
      invariant 0 <= i <= src.Length0
      invariant forall a, b, c :: 0 <= a < src.Length0 && 0 <= b < src.Length1 && 0 <= c < src.Length2 ==>
        src[a, b, c] == if Before3(a, b, c, i, 0, 0) then Masked(old(src[a, b, c]), mask[b, c], lb, ub, Zero) else old(src[a, b, c])
    {
      var j := 0;
      while j < src.Length1
        invariant 0 <= j <= src.Length1
        invariant forall a, b, c :: 0 <= a < src.Length0 && 0 <= b < src.Length1 && 0 <= c < src.Length2 ==>
          src[a, b, c] == if Before3(a, b, c, i, j, 0) then Masked(old(src[a, b, c]), mask[b, c], lb, ub, Zero) else old(src[a, b, c])
      {
        var k := 0;
        while k < src.Length2
          invariant 0 <= k <= src.Length2
          invariant forall a, b, c :: 0 <= a < src.Length0 && 0 <= b < src.Length1 && 0 <= c < src.Length2 ==>
            src[a, b, c] == if Before3(a, b, c, i, j, k) then Masked(old(src[a, b, c]), mask[b, c], lb, ub, Zero) else old(src[a, b, c])
        {
          if mask[j, k] {
            src[i, j, k] := Zero;
          } else {
            var v := src[i, j, k];
            if v.NaN? || Less(v, lb) || Greater(v, ub) {
              src[i, j, k] := Zero;
            }
          }
          k := k + 1;
        }
        j := j + 1;
      }
      i := i + 1;
    }
  }

  /** `maskImageDataNan(src, mask, lb, ub)` on an array of images: a masked pixel
      becomes NaN whatever its value; otherwise a number outside `[lb, ub]`
      becomes NaN. */
  method MaskImageArrayNanMaskThreshold(src: array3<Pixel>, mask: array2<bool>, lb: Ext, ub: Ext)
    requires mask.Length0 == src.Length1 && mask.Length1 == src.Length2
    modifies src
    ensures forall a, b, c :: 0 <= a < src.Length0 && 0 <= b < src.Length1 && 0 <= c < src.Length2 ==>
      src[a, b, c] == Masked(old(src[a, b, c]), mask[b, c], lb, ub, NaN)
  {
    var i := 0;
    while i < src.Length0
      invariant 0 <= i <= src.Length0
      invariant forall a, b, c :: 0 <= a < src.Length0 && 0 <= b < src.Length1 && 0 <= c < src.Length2 ==>
        src[a, b, c] == if Before3(a, b, c, i, 0, 0) then Masked(old(src[a, b, c]), mask[b, c], lb, ub, NaN) else old(src[a, b, c])
    {
      var j := 0;
      while j < src.Length1
        invariant 0 <= j <= src.Length1
        invariant forall a, b, c :: 0 <= a < src.Length0 && 0 <= b < src.Length1 && 0 <= c < src.Length2 ==>
          src[a, b, c] == if Before3(a, b, c, i, j, 0) then Masked(old(src[a, b, c]), mask[b, c], lb, ub, NaN) else old(src[a, b, c])
      {
        var k := 0;
        while k < src.Length2
          invariant 0 <= k <= src.Length2
          invariant forall a, b, c :: 0 <= a < src.Length0 && 0 <= b < src.Length1 && 0 <= c < src.Length2 ==>
            src[a, b, c] == if Before3(a, b, c, i, j, k) then Masked(old(src[a, b, c]), mask[b, c], lb, ub, NaN) else old(src[a, b, c])
        {
          if mask[j, k] {
            src[i, j, k] := NaN;
          } else {
            var v := src[i, j, k];
            if !v.NaN? {
              if Less(v, lb) || Greater(v, ub) {
                src[i, j, k] := NaN;
              }
            }
          }
          k := k + 1;
        }
        j := j + 1;
      }
      i := i + 1;
    }
  }

  // ---------------------------------------------------------------------
  // Moving averages
  // ---------------------------------------------------------------------

  /** `movingAvgImageData(src, data, count)` on one image: every pixel of the
      average `src` moves towards the new sample by `1/count`. A zero count is
      refused (the source throws) and nothing changes. `data` may be `src` itself.
      */
  method MovingAvgImageData(src: array2<Pixel>, data: array2<Pixel>, count: nat) returns (ok: bool)
    requires data.Length0 == src.Length0 && data.Length1 == src.Length1
    modifies src
    ensures ok <==> count > 0
    ensures !ok ==> unchanged(src)
    ensures ok ==> forall a, b :: 0 <= a < src.Length0 && 0 <= b < src.Length1 ==>
      src[a, b] == Blend(old(src[a, b]), old(data[a, b]), count)
  {
    if count == 0 {
      return false;
    }
    ok := true;
    var j := 0;
    while j < src.Length0
      invariant 0 <= j <= src.Length0
      invariant forall a, b :: 0 <= a < src.Length0 && 0 <= b < src.Length1 ==>
        src[a, b] == if Before2(a, b, j, 0) then Blend(old(src[a, b]), old(data[a, b]), count) else old(src[a, b])
      invariant forall a, b :: 0 <= a < src.Length0 && 0 <= b < src.Length1 && !Before2(a, b, j, 0) ==>
        data[a, b] == old(data[a, b])
    {
      var k := 0;
      while k < src.Length1
        invariant 0 <= k <= src.Length1
        invariant forall a, b :: 0 <= a < src.Length0 && 0 <= b < src.Length1 ==>
          src[a, b] == if Before2(a, b, j, k) then Blend(old(src[a, b]), old(data[a, b]), count) else old(src[a, b])
        invariant forall a, b :: 0 <= a < src.Length0 && 0 <= b < src.Length1 && !Before2(a, b, j, k) ==>
          data[a, b] == old(data[a, b])
      {
        src[j, k] := Add(src[j, k], DivCount(Sub(data[j, k], src[j, k]), count));
        k := k + 1;
      }
      j := j + 1;
    }
  }

  /** `movingAvgImageData(src, data, count)` on an array of images, as
      `MovingAvgImageData` pixel by pixel. */
  method MovingAvgImageArray(src: array3<Pixel>, data: array3<Pixel>, count: nat) returns (ok: bool)
    requires data.Length0 == src.Length0 && data.Length1 == src.Length1 && data.Length2 == src.Length2
    modifies src
    ensures ok <==> count > 0
    ensures !ok ==> unchanged(src)
    ensures ok ==> forall a, b, c :: 0 <= a < src.Length0 && 0 <= b < src.Length1 && 0 <= c < src.Length2 ==>
      src[a, b, c] == Blend(old(src[a, b, c]), old(data[a, b, c]), count)
  {
    if count == 0 {
      return false;
    }
    ok := true;
    var i := 0;
    while i < src.Length0
      invariant 0 <= i <= src.Length0
      invariant forall a, b, c :: 0 <= a < src.Length0 && 0 <= b < src.Length1 && 0 <= c < src.Length2 ==>
        src[a, b, c] == if Before3(a, b, c, i, 0, 0) then Blend(old(src[a, b, c]), old(data[a, b, c]), count) else old(src[a, b, c])
      invariant forall a, b, c :: 0 <= a < src.Length0 && 0 <= b < src.Length1 && 0 <= c < src.Length2 && !Before3(a, b, c, i, 0, 0) ==>
        data[a, b, c] == old(data[a, b, c])
    {
      var j := 0;
      while j < src.Length1
        invariant 0 <= j <= src.Length1
        invariant forall a, b, c :: 0 <= a < src.Length0 && 0 <= b < src.Length1 && 0 <= c < src.Length2 ==>
          src[a, b, c] == if Before3(a, b, c, i, j, 0) then Blend(old(src[a, b, c]), old(data[a, b, c]), count) else old(src[a, b, c])
        invariant forall a, b, c :: 0 <= a < src.Length0 && 0 <= b < src.Length1 && 0 <= c < src.Length2 && !Before3(a, b, c, i, j, 0) ==>
          data[a, b, c] == old(data[a, b, c])
      {
        var k := 0;
        while k < src.Length2
          invariant 0 <= k <= src.Length2
          invariant forall a, b, c :: 0 <= a < src.Length0 && 0 <= b < src.Length1 && 0 <= c < src.Length2 ==>
            src[a, b, c] == if Before3(a, b, c, i, j, k) then Blend(old(src[a, b, c]), old(data[a, b, c]), count) else old(src[a, b, c])
          invariant forall a, b, c :: 0 <= a < src.Length0 && 0 <= b < src.Length1 && 0 <= c < src.Length2 && !Before3(a, b, c, i, j, k) ==>
            data[a, b, c] == old(data[a, b, c])
        {
          src[i, j, k] := Add(src[i, j, k], DivCount(Sub(data[i, j, k], src[i, j, k]), count));
          k := k + 1;
        }
        j := j + 1;
      }
      i := i + 1;
    }
  }

  // ---------------------------------------------------------------------
  // NaN-aware means
  // ---------------------------------------------------------------------

  /** The number of non-NaN entries. */
  function CountVal(s: seq<Pixel>): (n: nat)
    ensures n <= |s|
  {
    if s == [] then 0 else CountVal(s[..|s| - 1]) + (if s[|s| - 1].NaN? then 0 else 1)
  }

  /** `nanmean`: the mean of the non-NaN entries, NaN when there is none. */
  function NanMean(s: seq<Pixel>): Pixel {
    if CountVal(s) == 0 then NaN else Val(RealSum(s) / CountVal(s) as real)
  }

  /** No entry counts exactly when every entry is NaN, and every entry
      counts exactly when none is. */
  lemma {:induction false} CountValExtremes(s: seq<Pixel>)
    ensures CountVal(s) == 0 <==> forall i :: 0 <= i < |s| ==> s[i].NaN?
    ensures CountVal(s) == |s| <==> forall i :: 0 <= i < |s| ==> s[i].Val?
  {
    if s != [] {
      var init := s[..|s| - 1];
      CountValExtremes(init);
      assert forall i :: 0 <= i < |init| ==> init[i] == s[i];
      if CountVal(s) != |s| && s[|s| - 1].Val? {
        var i :| 0 <= i < |init| && init[i].NaN?;
        assert s[i].NaN?;
      }
      if CountVal(s) != 0 && s[|s| - 1].NaN? {
        var i :| 0 <= i < |init| && init[i].Val?;
        assert s[i].Val?;
      }
    }
  }

  /** The real sum of the non-NaN entries lies between `lo` and `hi` times
      their number when every non-NaN entry does. */
  lemma {:induction false} RealSumBounds(s: seq<Pixel>, lo: real, hi: real)
    requires forall i :: 0 <= i < |s| && s[i].Val? ==> lo <= s[i].v <= hi
    ensures lo * CountVal(s) as real <= RealSum(s) <= hi * CountVal(s) as real
  {
    if s != [] {
      var init := s[..|s| - 1];
      assert forall i :: 0 <= i < |init| ==> init[i] == s[i];
      RealSumBounds(init, lo, hi);
      RealSumBoundsStep(s, lo, hi);
    }
  }

  /** The inductive step of `RealSumBounds`: the last entry. */
  lemma RealSumBoundsStep(s: seq<Pixel>, lo: real, hi: real)
    requires s != [] && (s[|s| - 1].Val? ==> lo <= s[|s| - 1].v <= hi)
    requires var init := s[..|s| - 1];
      lo * CountVal(init) as real <= RealSum(init) <= hi * CountVal(init) as real
    ensures lo * CountVal(s) as real <= RealSum(s) <= hi * CountVal(s) as real
  {
    var init := s[..|s| - 1];
    var c := CountVal(init) as real;
    if s[|s| - 1].Val? {
      assert CountVal(s) as real == c + 1.0;
      assert RealSum(s) == s[|s| - 1].v + RealSum(init);
      AddBetween(lo, hi, c, RealSum(init), s[|s| - 1].v);
    } else {
      assert CountVal(s) == CountVal(init) && RealSum(s) == RealSum(init);
    }
  }

  /** One more value within `[lo, hi]` keeps a sum of `c` values between
      `lo * c` and `hi * c`. */
  lemma AddBetween(lo: real, hi: real, c: real, r: real, v: real)
    requires lo * c <= r <= hi * c && lo <= v <= hi
    ensures lo * (c + 1.0) <= v + r <= hi * (c + 1.0)
  {
    assert lo * (c + 1.0) == lo * c + lo;
    assert hi * (c + 1.0) == hi * c + hi;
  }

  /** `nanmean` of values that all lie in `[lo, hi]` lies in `[lo, hi]`, and
      it is NaN exactly when every value is NaN. */
  lemma NanMeanBounds(s: seq<Pixel>, lo: real, hi: real)
    requires forall i :: 0 <= i < |s| && s[i].Val? ==> lo <= s[i].v <= hi
    ensures NanMean(s).NaN? <==> forall i :: 0 <= i < |s| ==> s[i].NaN?
    ensures NanMean(s).Val? ==> lo <= NanMean(s).v <= hi
  {
    CountValExtremes(s);
    RealSumBounds(s, lo, hi);
    if CountVal(s) > 0 {
      QuotientBetween(RealSum(s), CountVal(s) as real, lo, hi);
    }
  }

  lemma QuotientBetween(t: real, n: real, lo: real, hi: real)
    requires n > 0.0 && lo * n <= t <= hi * n
    ensures lo <= t / n <= hi
  {
    assert t / n - lo == (t - lo * n) / n;
    assert hi - t / n == (hi * n - t) / n;
  }

  /** Without NaN, `nanmean` is the plain mean. */
  lemma NanMeanWithoutNaN(s: seq<Pixel>)
    requires |s| > 0 && forall i :: 0 <= i < |s| ==> s[i].Val?
    ensures NanMean(s) == Val(RealSum(s) / |s| as real)
  {
    CountValExtremes(s);
  }

  /** The branches of the two-image `nanmeanImageArray` are `nanmean` of the
      pair. */
  lemma NanMeanOfPair(x: Pixel, y: Pixel)
    ensures NanMean([x, y]) ==
      if x.NaN? && y.NaN? then NaN
      else if x.NaN? then y
      else if y.NaN? then x
      else Val(0.5 * (x.v + y.v))
  {
    assert [x, y][..1] == [x];
    assert [x][..0] == [];
    assert CountVal([x]) == if x.NaN? then 0 else 1;
    assert RealSum([x]) == if x.NaN? then 0.0 else x.v;
    assert CountVal([x, y]) == CountVal([x]) + (if y.NaN? then 0 else 1);
    assert RealSum([x, y]) == (if y.NaN? then 0.0 else y.v) + RealSum([x]);
  }

  /** The pixel (j, k) of every image of `src`, in order. */
  function PixelColumn(src: array3<Pixel>, j: nat, k: nat): (r: seq<Pixel>)
    requires j < src.Length1 && k < src.Length2
    reads src
    ensures |r| == src.Length0
    ensures forall i :: 0 <= i < src.Length0 ==> r[i] == src[i, j, k]
  {
    seq(src.Length0, i requires 0 <= i < src.Length0 reads src => src[i, j, k])
  }

  /** The pixel (j, k) of the images of `src` listed in `keep`, in the order
      of `keep`. */
  function SelectedColumn(src: array3<Pixel>, keep: seq<nat>, j: nat, k: nat): (r: seq<Pixel>)
    requires j < src.Length1 && k < src.Length2
    requires forall t :: 0 <= t < |keep| ==> keep[t] < src.Length0
    reads src
    ensures |r| == |keep|
    ensures forall t :: 0 <= t < |keep| ==> r[t] == src[keep[t], j, k]
  {
    seq(|keep|, t requires 0 <= t < |keep| reads src => src[keep[t], j, k])
  }

  /** The per-pixel loop of `nanmeanImageArrayImp`: counts and sums the
      non-NaN values of pixel (j, k) over the kept images (all images when
      `keep` is empty) and divides, or gives NaN when nothing was counted. */
  method PixelNanMean(src: array3<Pixel>, keep: seq<nat>, j: nat, k: nat) returns (m: Pixel)
    requires j < src.Length1 && k < src.Length2
    requires forall t :: 0 <= t < |keep| ==> keep[t] < src.Length0
    ensures m == NanMean(if keep == [] then PixelColumn(src, j, k) else SelectedColumn(src, keep, j, k))
  {
    ghost var col := if keep == [] then PixelColumn(src, j, k) else SelectedColumn(src, keep, j, k);
    var n := if keep == [] then src.Length0 else |keep|;
    var count: nat := 0;
    var sum := 0.0;
    var t := 0;
    while t < n
      invariant 0 <= t <= n == |col|
      invariant count == CountVal(col[..t]) && sum == RealSum(col[..t])
    {
      var i := if keep == [] then t else keep[t];
      var v := src[i, j, k];
      assert col[..t + 1][..t] == col[..t] && col[..t + 1][t] == v;
      if !v.NaN? {
        count := count + 1;
        sum := sum + v.v;
      }
      t := t + 1;
    }
    assert col[..n] == col;
    if count == 0 {
      m := NaN;
    } else {
      m := Val(sum / count as real);
    }
  }

  /** `nanmeanImageArrayImp(src, keep)`: the image of per-pixel `nanmean`s
      over the kept images (all images when `keep` is empty). */
  method NanmeanImageArrayImp(src: array3<Pixel>, keep: seq<nat>) returns (mean: array2<Pixel>)
    requires forall t :: 0 <= t < |keep| ==> keep[t] < src.Length0
    ensures fresh(mean)
    ensures mean.Length0 == src.Length1 && mean.Length1 == src.Length2
    ensures forall a, b :: 0 <= a < mean.Length0 && 0 <= b < mean.Length1 ==>
      mean[a, b] == NanMean(if keep == [] then PixelColumn(src, a, b) else SelectedColumn(src, keep, a, b))
  {
    mean := new Pixel[src.Length1, src.Length2];
    var j := 0;
    while j < src.Length1
      invariant 0 <= j <= src.Length1
      invariant forall a, b :: 0 <= a < mean.Length0 && 0 <= b < mean.Length1 && Before2(a, b, j, 0) ==>
        mean[a, b] == NanMean(if keep == [] then PixelColumn(src, a, b) else SelectedColumn(src, keep, a, b))
    {
      var k := 0;
      while k < src.Length2
        invariant 0 <= k <= src.Length2
        invariant forall a, b :: 0 <= a < mean.Length0 && 0 <= b < mean.Length1 && Before2(a, b, j, k) ==>
          mean[a, b] == NanMean(if keep == [] then PixelColumn(src, a, b) else SelectedColumn(src, keep, a, b))
      {
        var m := PixelNanMean(src, keep, j, k);
        mean[j, k] := m;
        k := k + 1;
      }
      j := j + 1;
    }
  }

  /** `nanmeanImageArray(src)`: the per-pixel `nanmean` over all images. */
  method NanmeanImageArray(src: array3<Pixel>) returns (mean: array2<Pixel>)
    ensures fresh(mean)
    ensures mean.Length0 == src.Length1 && mean.Length1 == src.Length2
    ensures forall a, b :: 0 <= a < mean.Length0 && 0 <= b < mean.Length1 ==>
      mean[a, b] == NanMean(PixelColumn(src, a, b))
  {
    mean := NanmeanImageArrayImp(src, []);
  }

  /** `nanmeanImageArray(src, keep)`: the per-pixel `nanmean` over the images
      listed in `keep`. An empty `keep` selects no image, so every pixel of
      the result is NaN. A non-empty `keep` goes through the per-pixel loop
      of `nanmeanImageArrayImp`, whose result is that same `nanmean`. */
  method NanmeanImageArrayKeep(src: array3<Pixel>, keep: seq<nat>) returns (mean: array2<Pixel>)
    requires forall t :: 0 <= t < |keep| ==> keep[t] < src.Length0
    ensures fresh(mean)
    ensures mean.Length0 == src.Length1 && mean.Length1 == src.Length2
    ensures forall a, b :: 0 <= a < mean.Length0 && 0 <= b < mean.Length1 ==>
      mean[a, b] == NanMean(SelectedColumn(src, keep, a, b))
    ensures keep == [] ==> forall a, b :: 0 <= a < mean.Length0 && 0 <= b < mean.Length1 ==> mean[a, b].NaN?
  {
    if keep == [] {
      mean := new Pixel[src.Length1, src.Length2]((a, b) => NaN);
      forall a, b | 0 <= a < mean.Length0 && 0 <= b < mean.Length1
        ensures mean[a, b] == NanMean(SelectedColumn(src, keep, a, b))
      {
        assert SelectedColumn(src, keep, a, b) == [];
      }
      return;
    }
    mean := NanmeanImageArrayImp(src, keep);
  }

  /** `nanmeanImageArray(src1, src2)`: the per-pixel `nanmean` of two images
      of the same shape. */
  method NanmeanTwoImages(src1: array2<Pixel>, src2: array2<Pixel>) returns (mean: array2<Pixel>)
    requires src2.Length0 == src1.Length0 && src2.Length1 == src1.Length1
    ensures fresh(mean)
    ensures mean.Length0 == src1.Length0 && mean.Length1 == src1.Length1
    ensures forall a, b :: 0 <= a < mean.Length0 && 0 <= b < mean.Length1 ==>
      mean[a, b] == NanMean([src1[a, b], src2[a, b]])
  {
    mean := new Pixel[src1.Length0, src1.Length1];
    var j := 0;
    while j < src1.Length0
      invariant 0 <= j <= src1.Length0
      invariant forall a, b :: 0 <= a < mean.Length0 && 0 <= b < mean.Length1 && Before2(a, b, j, 0) ==>
        mean[a, b] == NanMean([src1[a, b], src2[a, b]])
    {
      var k := 0;
      while k < src1.Length1
        invariant 0 <= k <= src1.Length1
        invariant forall a, b :: 0 <= a < mean.Length0 && 0 <= b < mean.Length1 && Before2(a, b, j, k) ==>
          mean[a, b] == NanMean([src1[a, b], src2[a, b]])
      {
        var x := src1[j, k];
        var y := src2[j, k];
        NanMeanOfPair(x, y);
        if x.NaN? && y.NaN? {
          mean[j, k] := NaN;
        } else if x.NaN? {
          mean[j, k] := y;
        } else if y.NaN? {
          mean[j, k] := x;
        } else {
          mean[j, k] := Val(0.5 * (x.v + y.v));
        }
        k := k + 1;
      }
      j := j + 1;
    }
  }

  // ---------------------------------------------------------------------
  // Gain and offset correction
  // ---------------------------------------------------------------------

  /** The two correction policies: `OffsetPolicy` subtracts the constant,
      `GainPolicy` multiplies by it. */
  datatype Policy = Offset | Gain

  function Correct(policy: Policy, v: Pixel, a: Pixel): (r: Pixel)
    ensures r.NaN? <==> v.NaN? || a.NaN?
  {
    match policy
    case Offset => Sub(v, a)
    case Gain => Mul(v, a)
  }

  /** An offset correction removes exactly the offset that was added to a
      value. */
  lemma OffsetUndoesShift(v: Pixel, a: Pixel)
    requires a.Val?
    ensures Correct(Offset, Add(v, a), a) == v
  {
  }

  /** The combined correction `gain * (src - offset)` is the offset policy
      followed by the gain policy. */
  lemma GainOffsetIsOffsetThenGain(v: Pixel, gain: Pixel, offset: Pixel)
    ensures Mul(gain, Sub(v, offset)) == Correct(Gain, Correct(Offset, v, offset), gain)
  {
  }


  /** `correctImageData<Policy>(src, constants)` on one image: every pixel is
      corrected by the constant at the same position. `constants` may be `src`
      itself. */
  method CorrectImageData(src: array2<Pixel>, constants: array2<Pixel>, policy: Policy)
    requires constants.Length0 == src.Length0 && constants.Length1 == src.Length1
    modifies src
    ensures forall a, b :: 0 <= a < src.Length0 && 0 <= b < src.Length1 ==>
      src[a, b] == Correct(policy, old(src[a, b]), old(constants[a, b]))
  {
    var j := 0;
    while j < src.Length0
      invariant 0 <= j <= src.Length0
      invariant forall a, b :: 0 <= a < src.Length0 && 0 <= b < src.Length1 ==>
        src[a, b] == if Before2(a, b, j, 0) then Correct(policy, old(src[a, b]), old(constants[a, b])) else old(src[a, b])
      invariant forall a, b :: 0 <= a < src.Length0 && 0 <= b < src.Length1 && !Before2(a, b, j, 0) ==>
        constants[a, b] == old(constants[a, b])
    {
      var k := 0;
      while k < src.Length1
        invariant 0 <= k <= src.Length1
        invariant forall a, b :: 0 <= a < src.Length0 && 0 <= b < src.Length1 ==>
          src[a, b] == if Before2(a, b, j, k) then Correct(policy, old(src[a, b]), old(constants[a, b])) else old(src[a, b])
        invariant forall a, b :: 0 <= a < src.Length0 && 0 <= b < src.Length1 && !Before2(a, b, j, k) ==>
          constants[a, b] == old(constants[a, b])
      {
        src[j, k] := Correct(policy, src[j, k], constants[j, k]);
        k := k + 1;
      }
      j := j + 1;
    }
  }

  /** `correctImageData<Policy>(src, constants)` on an array of images. */
  method CorrectImageArray(src: array3<Pixel>, constants: array3<Pixel>, policy: Policy)
    requires constants.Length0 == src.Length0 && constants.Length1 == src.Length1 && constants.Length2 == src.Length2
    modifies src
    ensures forall a, b, c :: 0 <= a < src.Length0 && 0 <= b < src.Length1 && 0 <= c < src.Length2 ==>
      src[a, b, c] == Correct(policy, old(src[a, b, c]), old(constants[a, b, c]))
  {
    var i := 0;
    while i < src.Length0
      invariant 0 <= i <= src.Length0
      invariant forall a, b, c :: 0 <= a < src.Length0 && 0 <= b < src.Length1 && 0 <= c < src.Length2 ==>
        src[a, b, c] == if Before3(a, b, c, i, 0, 0) then Correct(policy, old(src[a, b, c]), old(constants[a, b, c])) else old(src[a, b, c])
      invariant forall a, b, c :: 0 <= a < src.Length0 && 0 <= b < src.Length1 && 0 <= c < src.Length2 && !Before3(a, b, c, i, 0, 0) ==>
        constants[a, b, c] == old(constants[a, b, c])
    {
      var j := 0;
      while j < src.Length1
        invariant 0 <= j <= src.Length1
        invariant forall a, b, c :: 0 <= a < src.Length0 && 0 <= b < src.Length1 && 0 <= c < src.Length2 ==>
          src[a, b, c] == if Before3(a, b, c, i, j, 0) then Correct(policy, old(src[a, b, c]), old(constants[a, b, c])) else old(src[a, b, c])
        invariant forall a, b, c :: 0 <= a < src.Length0 && 0 <= b < src.Length1 && 0 <= c < src.Length2 && !Before3(a, b, c, i, j, 0) ==>
          constants[a, b, c] == old(constants[a, b, c])
      {
        var k := 0;
        while k < src.Length2
          invariant 0 <= k <= src.Length2
          invariant forall a, b, c :: 0 <= a < src.Length0 && 0 <= b < src.Length1 && 0 <= c < src.Length2 ==>
            src[a, b, c] == if Before3(a, b, c, i, j, k) then Correct(policy, old(src[a, b, c]), old(constants[a, b, c])) else old(src[a, b, c])
          invariant forall a, b, c :: 0 <= a < src.Length0 && 0 <= b < src.Length1 && 0 <= c < src.Length2 && !Before3(a, b, c, i, j, k) ==>
            constants[a, b, c] == old(constants[a, b, c])
        {
          src[i, j, k] := Correct(policy, src[i, j, k], constants[i, j, k]);
          k := k + 1;
        }
        j := j + 1;
      }
      i := i + 1;
    }
  }

  /** `correctImageData(src, gain, offset)` on one image: every pixel becomes
      `gain * (src - offset)`. */
  method CorrectGainOffsetImage(src: array2<Pixel>, gain: array2<Pixel>, offset: array2<Pixel>)
    requires gain.Length0 == src.Length0 && gain.Length1 == src.Length1
    requires offset.Length0 == src.Length0 && offset.Length1 == src.Length1
    modifies src
    ensures forall a, b :: 0 <= a < src.Length0 && 0 <= b < src.Length1 ==>
      src[a, b] == Mul(old(gain[a, b]), Sub(old(src[a, b]), old(offset[a, b])))
  {
    var j := 0;
    while j < src.Length0
      invariant 0 <= j <= src.Length0
      invariant forall a, b :: 0 <= a < src.Length0 && 0 <= b < src.Length1 ==>
        src[a, b] == if Before2(a, b, j, 0) then Mul(old(gain[a, b]), Sub(old(src[a, b]), old(offset[a, b]))) else old(src[a, b])
      invariant forall a, b :: 0 <= a < src.Length0 && 0 <= b < src.Length1 && !Before2(a, b, j, 0) ==>
        gain[a, b] == old(gain[a, b])
      invariant forall a, b :: 0 <= a < src.Length0 && 0 <= b < src.Length1 && !Before2(a, b, j, 0) ==>
        offset[a, b] == old(offset[a, b])
    {
      var k := 0;
      while k < src.Length1
        invariant 0 <= k <= src.Length1
        invariant forall a, b :: 0 <= a < src.Length0 && 0 <= b < src.Length1 ==>
          src[a, b] == if Before2(a, b, j, k) then Mul(old(gain[a, b]), Sub(old(src[a, b]), old(offset[a, b]))) else old(src[a, b])
        invariant forall a, b :: 0 <= a < src.Length0 && 0 <= b < src.Length1 && !Before2(a, b, j, k) ==>
          gain[a, b] == old(gain[a, b])
        invariant forall a, b :: 0 <= a < src.Length0 && 0 <= b < src.Length1 && !Before2(a, b, j, k) ==>
          offset[a, b] == old(offset[a, b])
      {
        src[j, k] := Mul(gain[j, k], Sub(src[j, k], offset[j, k]));
        k := k + 1;
      }
      j := j + 1;
    }
  }

  /** `correctImageData(src, gain, offset)` on an array of images. */
  method CorrectGainOffsetArray(src: array3<Pixel>, gain: array3<Pixel>, offset: array3<Pixel>)
    requires gain.Length0 == src.Length0 && gain.Length1 == src.Length1 && gain.Length2 == src.Length2
    requires offset.Length0 == src.Length0 && offset.Length1 == src.Length1 && offset.Length2 == src.Length2
    modifies src
    ensures forall a, b, c :: 0 <= a < src.Length0 && 0 <= b < src.Length1 && 0 <= c < src.Length2 ==>
      src[a, b, c] == Mul(old(gain[a, b, c]), Sub(old(src[a, b, c]), old(offset[a, b, c])))
  {
    var i := 0;
    while i < src.Length0
      invariant 0 <= i <= src.Length0
      invariant forall a, b, c :: 0 <= a < src.Length0 && 0 <= b < src.Length1 && 0 <= c < src.Length2 ==>
        src[a, b, c] == if Before3(a, b, c, i, 0, 0) then Mul(old(gain[a, b, c]), Sub(old(src[a, b, c]), old(offset[a, b, c]))) else old(src[a, b, c])
      invariant forall a, b, c :: 0 <= a < src.Length0 && 0 <= b < src.Length1 && 0 <= c < src.Length2 && !Before3(a, b, c, i, 0, 0) ==>
        gain[a, b, c] == old(gain[a, b, c])
      invariant forall a, b, c :: 0 <= a < src.Length0 && 0 <= b < src.Length1 && 0 <= c < src.Length2 && !Before3(a, b, c, i, 0, 0) ==>
        offset[a, b, c] == old(offset[a, b, c])
    {
      var j := 0;
      while j < src.Length1
        invariant 0 <= j <= src.Length1
        invariant forall a, b, c :: 0 <= a < src.Length0 && 0 <= b < src.Length1 && 0 <= c < src.Length2 ==>
          src[a, b, c] == if Before3(a, b, c, i, j, 0) then Mul(old(gain[a, b, c]), Sub(old(src[a, b, c]), old(offset[a, b, c]))) else old(src[a, b, c])
        invariant forall a, b, c :: 0 <= a < src.Length0 && 0 <= b < src.Length1 && 0 <= c < src.Length2 && !Before3(a, b, c, i, j, 0) ==>
          gain[a, b, c] == old(gain[a, b, c])
        invariant forall a, b, c :: 0 <= a < src.Length0 && 0 <= b < src.Length1 && 0 <= c < src.Length2 && !Before3(a, b, c, i, j, 0) ==>
          offset[a, b, c] == old(offset[a, b, c])
      {
        var k := 0;
        while k < src.Length2
          invariant 0 <= k <= src.Length2
          invariant forall a, b, c :: 0 <= a < src.Length0 && 0 <= b < src.Length1 && 0 <= c < src.Length2 ==>
            src[a, b, c] == if Before3(a, b, c, i, j, k) then Mul(old(gain[a, b, c]), Sub(old(src[a, b, c]), old(offset[a, b, c]))) else old(src[a, b, c])
          invariant forall a, b, c :: 0 <= a < src.Length0 && 0 <= b < src.Length1 && 0 <= c < src.Length2 && !Before3(a, b, c, i, j, k) ==>
            gain[a, b, c] == old(gain[a, b, c])
          invariant forall a, b, c :: 0 <= a < src.Length0 && 0 <= b < src.Length1 && 0 <= c < src.Length2 && !Before3(a, b, c, i, j, k) ==>
            offset[a, b, c] == old(offset[a, b, c])
        {
          src[i, j, k] := Mul(gain[i, j, k], Sub(src[i, j, k], offset[i, j, k]));
          k := k + 1;
        }
        j := j + 1;
      }
      i := i + 1;
    }
  }
}
