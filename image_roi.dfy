/** The ROI figure-of-merit combinator: reduction of up to four rectangular
    regions through the FOM-type table, selection of one region or the
    difference / sum of two, projections of a region onto one axis, and the
    pulse-resolved and train-resolved processors that write the results into
    the processed record. The regions themselves (the intersection of the
    configured geometry with the image) are inputs, already masked: the
    train processor cuts them from the masked mean image, and the pulse
    processor's in-place masking of each region is not modelled. The
    normalisers and the curve slicing are given as functions. */
module ImageRoi {
  import opened Common
  import opened Pixels
  import opened MovingAverages

  /** The members of the ROI combination enumeration; `OtherCombo` stands for
      every other member (for example UNDEFINED). */
  datatype RoiCombo =
    | Roi1 | Roi2 | Roi1SubRoi2 | Roi1AddRoi2
    | Roi3 | Roi4 | Roi3SubRoi4 | Roi3AddRoi4
    | OtherCombo(code: int)

  /** The members of the FOM-type enumeration; `OtherFom` stands for every
      member without a handler. */
  datatype RoiFom = FomSum | FomMean | FomMedian | FomMax | FomMin | OtherFom(code: int)

  /** `np.mean`, `np.median`, `np.max` and `np.min` over the values of a
      region; `np.sum` is `Sum`. */
  datatype Reductions = Reductions(
    mean: seq<Pixel> -> Pixel,
    median: seq<Pixel> -> Pixel,
    max: seq<Pixel> -> Pixel,
    min: seq<Pixel> -> Pixel)

  /** The FOM handler table: every listed FOM type has a reduction, and
      `FomSum` is the sum of the values. */
  function Reduce(t: RoiFom, red: Reductions, values: seq<Pixel>): (r: Option<Pixel>)
    ensures r.None? <==> t.OtherFom?
    ensures t == FomSum ==> r == Some(Sum(values))
  {
    match t
    case FomSum => Some(Sum(values))
    case FomMean => Some(red.mean(values))
    case FomMedian => Some(red.median(values))
    case FomMax => Some(red.max(values))
    case FomMin => Some(red.min(values))
    case OtherFom(_) => None
  }

  /** The reduction of a whole 2-D region by a FOM type with a handler. */
  function FomOf(img: Image, t: RoiFom, red: Reductions): Pixel
    requires !t.OtherFom?
  {
    Reduce(t, red, Flatten(img)).value
  }

  /** How a combo reads a pair of regions. */
  datatype Selection = First | Second | Difference | Total | UnknownCombo

  predicate Combined(sel: Selection) {
    sel.Difference? || sel.Total? || sel.UnknownCombo?
  }

  /** A combo read against ROI1 and ROI2 (FOMs and projections). */
  function FomSelection(c: RoiCombo): (r: Selection)
    ensures r.First? <==> c == Roi1
    ensures r.Second? <==> c == Roi2
    ensures r.Difference? <==> c == Roi1SubRoi2
    ensures r.Total? <==> c == Roi1AddRoi2
  {
    match c
    case Roi1 => First
    case Roi2 => Second
    case Roi1SubRoi2 => Difference
    case Roi1AddRoi2 => Total
    case _ => UnknownCombo
  }

  /** A combo read against ROI3 and ROI4 (normalisers). */
  function NormSelection(c: RoiCombo): (r: Selection)
    ensures r.First? <==> c == Roi3
    ensures r.Second? <==> c == Roi4
    ensures r.Difference? <==> c == Roi3SubRoi4
    ensures r.Total? <==> c == Roi3AddRoi4
  {
    match c
    case Roi3 => First
    case Roi4 => Second
    case Roi3SubRoi4 => Difference
    case Roi3AddRoi4 => Total
    case _ => UnknownCombo
  }

  /** What a processing step does to one field of the processed record:
      assign it (possibly `None`), or leave it as it was. */
  datatype Assignment<T> = Assigned(v: Option<T>) | Untouched

  /** The same for a pair of on / off fields. */
  datatype PairAssignment<T> = AssignedPair(on: Option<T>, off: Option<T>) | UntouchedPair

  /** The field after the step. */
  function Written<T>(a: Assignment<T>, previous: Option<T>): (r: Option<T>)
    ensures a.Untouched? ==> r == previous
    ensures a.Assigned? ==> r == a.v
  {
    match a
    case Assigned(v) => v
    case Untouched => previous
  }

  function SubEach(a: seq<Pixel>, b: seq<Pixel>): (r: seq<Pixel>)
    requires |a| == |b|
    ensures |r| == |a| && forall i :: 0 <= i < |a| ==> r[i] == Sub(a[i], b[i])
  {
    seq(|a|, i requires 0 <= i < |a| => Sub(a[i], b[i]))
  }

  function AddEach(a: seq<Pixel>, b: seq<Pixel>): (r: seq<Pixel>)
    requires |a| == |b|
    ensures |r| == |a| && forall i :: 0 <= i < |a| ==> r[i] == Add(a[i], b[i])
  {
    seq(|a|, i requires 0 <= i < |a| => Add(a[i], b[i]))
  }

  function AbsEach(a: seq<Pixel>): (r: seq<Pixel>)
    ensures |r| == |a| && forall i :: 0 <= i < |a| ==> r[i] == Abs(a[i])
  {
    seq(|a|, i requires 0 <= i < |a| => Abs(a[i]))
  }

  /** `np.arange(n)`. */
  function Arange(n: nat): (r: seq<int>)
    ensures |r| == n && forall i :: 0 <= i < n ==> r[i] == i
  {
    seq(n, i => i)
  }

  // ---------------------------------------------------------------------
  // Pulse-resolved regions

  /** A region cut from the assembled data: one 2-D image (train-resolved
      data) or a stack of per-pulse 2-D images. */
  datatype PulseRegion = Single(image: Image) | Stack(pulses: seq<Image>)

  function PulseCount(r: PulseRegion): nat {
    match r
    case Single(_) => 1
    case Stack(ps) => |ps|
  }

  /** The pulse-resolved FOM of a region: `None` for a missing region
      (before the FOM type is looked up), an error for a FOM type without a
      handler, one value per pulse for a stack (the reduction over the last
      two axes) and a one-element array for a single image. */
  function ComputeFomPulse(roi: Option<PulseRegion>, t: RoiFom, red: Reductions): (r: Outcome<Option<seq<Pixel>>>)
    ensures roi.None? ==> r == Ok(None)
    ensures roi.Some? && t.OtherFom? ==> r == Fail(UnknownParameterError)
    ensures roi.Some? && !t.OtherFom? ==> r.Ok? && r.value.Some? && |r.value.value| == PulseCount(roi.value)
    ensures roi.Some? && !t.OtherFom? && roi.value.Stack? ==>
      forall p :: 0 <= p < |roi.value.pulses| ==> r.value.value[p] == FomOf(roi.value.pulses[p], t, red)
    ensures roi.Some? && !t.OtherFom? && roi.value.Single? ==> r.value.value == [FomOf(roi.value.image, t, red)]
  {
    if roi.None? then Ok(None)
    else if t.OtherFom? then Fail(UnknownParameterError)
    else match roi.value
      case Single(img) => Ok(Some([FomOf(img, t, red)]))
      case Stack(ps) => Ok(Some(seq(|ps|, p requires 0 <= p < |ps| => FomOf(ps[p], t, red))))
  }

  /** The pulse-resolved combinator. A single-region mode assigns that
      region's FOM (possibly `None`) and never evaluates the other region. A
      combined mode evaluates both; with a missing operand the field is left
      untouched, otherwise the difference or the sum is assigned pulse by
      pulse, and an unknown combo raises. */
  function CombinePulse(sel: Selection, a: Option<PulseRegion>, b: Option<PulseRegion>, t: RoiFom, red: Reductions)
    : (r: Outcome<Assignment<seq<Pixel>>>)
    requires a.Some? && b.Some? ==> PulseCount(a.value) == PulseCount(b.value)
    ensures r.Fail? ==> r.error == UnknownParameterError
    ensures sel.First? ==> (r.Ok? <==> a.None? || !t.OtherFom?)
    ensures sel.First? && r.Ok? ==> r.value == Assigned(ComputeFomPulse(a, t, red).value)
    ensures sel.Second? ==> (r.Ok? <==> b.None? || !t.OtherFom?)
    ensures sel.Second? && r.Ok? ==> r.value == Assigned(ComputeFomPulse(b, t, red).value)
    ensures Combined(sel) && t.OtherFom? ==> (r.Fail? <==> a.Some? || b.Some?)
    ensures Combined(sel) && (a.None? || b.None?) && r.Ok? ==> r.value == Untouched
    ensures sel.UnknownCombo? && !t.OtherFom? ==> (r.Fail? <==> a.Some? && b.Some?)
    ensures sel.Difference? && a.Some? && b.Some? && !t.OtherFom? ==>
      var fa := ComputeFomPulse(a, t, red).value.value;
      var fb := ComputeFomPulse(b, t, red).value.value;
      r.Ok? && r.value.Assigned? && r.value.v.Some? && |r.value.v.value| == PulseCount(a.value) &&
      forall p :: 0 <= p < |r.value.v.value| ==> r.value.v.value[p] == Sub(fa[p], fb[p])
    ensures sel.Total? && a.Some? && b.Some? && !t.OtherFom? ==>
      var fa := ComputeFomPulse(a, t, red).value.value;
      var fb := ComputeFomPulse(b, t, red).value.value;
      r.Ok? && r.value.Assigned? && r.value.v.Some? && |r.value.v.value| == PulseCount(a.value) &&
      forall p :: 0 <= p < |r.value.v.value| ==> r.value.v.value[p] == Add(fa[p], fb[p])
  {
    if sel.First? then
      (match ComputeFomPulse(a, t, red)
       case Fail(e) => Fail(e)
       case Ok(v) => Ok(Assigned(v)))
    else if sel.Second? then
      (match ComputeFomPulse(b, t, red)
       case Fail(e) => Fail(e)
       case Ok(v) => Ok(Assigned(v)))
    else
      var ca := ComputeFomPulse(a, t, red);
      var cb := ComputeFomPulse(b, t, red);
      if ca.Fail? then Fail(ca.error)
      else if cb.Fail? then Fail(cb.error)
      else if ca.value.None? || cb.value.None? then Ok(Untouched)
      else if sel.Difference? then Ok(Assigned(Some(SubEach(ca.value.value, cb.value.value))))
      else if sel.Total? then Ok(Assigned(Some(AddEach(ca.value.value, cb.value.value))))
      else Fail(UnknownParameterError)
  }

  /** The four regions of one train, cut from data with `pulses` pulses. */
  datatype PulseRegions = PulseRegions(pulses: nat, roi1: Option<PulseRegion>, roi2: Option<PulseRegion>,
                                       roi3: Option<PulseRegion>, roi4: Option<PulseRegion>)

  predicate Cut(rs: PulseRegions) {
    (rs.roi1.Some? ==> PulseCount(rs.roi1.value) == rs.pulses) &&
    (rs.roi2.Some? ==> PulseCount(rs.roi2.value) == rs.pulses) &&
    (rs.roi3.Some? ==> PulseCount(rs.roi3.value) == rs.pulses) &&
    (rs.roi4.Some? ==> PulseCount(rs.roi4.value) == rs.pulses)
  }

  /** The pulse-resolved fields of the processed record. */
  datatype PulseRoiOut = PulseRoiOut(norm: Option<seq<Pixel>>, fom: Option<seq<Pixel>>)

  /** The combo and FOM-type settings of the ROI configuration. */
  datatype RoiConfig = RoiConfig(
    fomCombo: RoiCombo, fomType: RoiFom,
    normCombo: RoiCombo, normType: RoiFom,
    projCombo: RoiCombo, projDirect: string)

  class ImageRoiPulse {
    var fomCombo: RoiCombo
    var fomType: RoiFom
    var normCombo: RoiCombo
    var normType: RoiFom

    constructor()
      ensures fomCombo == Roi1 && fomType == FomSum
      ensures normCombo == Roi3 && normType == FomSum
    {
      fomCombo := Roi1;
      fomType := FomSum;
      normCombo := Roi3;
      normType := FomSum;
    }

    method Update(cfg: RoiConfig)
      modifies this
      ensures fomCombo == cfg.fomCombo && fomType == cfg.fomType
      ensures normCombo == cfg.normCombo && normType == cfg.normType
    {
      fomCombo := cfg.fomCombo;
      fomType := cfg.fomType;
      normCombo := cfg.normCombo;
      normType := cfg.normType;
    }

    /** The pulse-resolved normaliser from ROI3 and ROI4. */
    method ProcessNorm(rs: PulseRegions, red: Reductions, out: PulseRoiOut) returns (r: Outcome<PulseRoiOut>)
      requires Cut(rs)
      ensures var c := CombinePulse(NormSelection(normCombo), rs.roi3, rs.roi4, normType, red);
        (r.Fail? <==> c.Fail?) && (r.Fail? ==> r.error == UnknownParameterError) &&
        (r.Ok? ==> r.value == out.(norm := Written(c.value, out.norm)))
    {
      var c := CombinePulse(NormSelection(normCombo), rs.roi3, rs.roi4, normType, red);
      if c.Fail? {
        return Fail(c.error);
      }
      r := Ok(out.(norm := Written(c.value, out.norm)));
    }

    /** The pulse-resolved FOM from ROI1 and ROI2. */
    method ProcessFom(rs: PulseRegions, red: Reductions, out: PulseRoiOut) returns (r: Outcome<PulseRoiOut>)
      requires Cut(rs)
      ensures var c := CombinePulse(FomSelection(fomCombo), rs.roi1, rs.roi2, fomType, red);
        (r.Fail? <==> c.Fail?) && (r.Fail? ==> r.error == UnknownParameterError) &&
        (r.Ok? ==> r.value == out.(fom := Written(c.value, out.fom)))
    {
      var c := CombinePulse(FomSelection(fomCombo), rs.roi1, rs.roi2, fomType, red);
      if c.Fail? {
        return Fail(c.error);
      }
      r := Ok(out.(fom := Written(c.value, out.fom)));
    }

    /** The normaliser first, then the FOM; an error in the first step
        stops the train before the second. */
    method Process(rs: PulseRegions, red: Reductions, out: PulseRoiOut) returns (r: PulseRoiOut, err: Option<Error>)
      requires Cut(rs)
      ensures var n := CombinePulse(NormSelection(normCombo), rs.roi3, rs.roi4, normType, red);
        var f := CombinePulse(FomSelection(fomCombo), rs.roi1, rs.roi2, fomType, red);
        if n.Fail? then r == out && err == Some(UnknownParameterError)
        else if f.Fail? then r == out.(norm := Written(n.value, out.norm)) && err == Some(UnknownParameterError)
        else r == PulseRoiOut(Written(n.value, out.norm), Written(f.value, out.fom)) && err.None?
    {
      var n := ProcessNorm(rs, red, out);
      if n.Fail? {
        return out, Some(n.error);
      }
      var f := ProcessFom(rs, red, n.value);
      if f.Fail? {
        return n.value, Some(f.error);
      }
      r, err := f.value, None;
    }
  }

  /** In a single-region mode the pulse-resolved processor does not evaluate
      the other region, while the train-resolved one does: with ROI1 missing,
      ROI2 present and a FOM type without a handler, the pulse processor
      assigns `None` and the train processor raises. */
  lemma PulseSkipsUnusedRegion(img: Image, code: int, red: Reductions)
    ensures CombinePulse(First, None, Some(Single(img)), OtherFom(code), red) == Ok(Assigned(None))
    ensures CombineTrain(First, None, Some(img), OtherFom(code), red) == Fail(UnknownParameterError)
  {
  }

  /** ROI1 = [[1, 2], [3, 4]] and ROI2 = [[5]] with the sum FOM: ROI1 - ROI2
      assigns 10 - 5 = 5, and with ROI2 missing the field is left untouched. */
  lemma CombinedSumScenario(red: Reductions)
    ensures CombineTrain(Difference, Some([[Val(1.0), Val(2.0)], [Val(3.0), Val(4.0)]]), Some([[Val(5.0)]]), FomSum, red)
            == Ok(Assigned(Some(Val(5.0))))
    ensures CombineTrain(Total, Some([[Val(1.0), Val(2.0)], [Val(3.0), Val(4.0)]]), None, FomSum, red) == Ok(Untouched)
  {
    var a: Image := [[Val(1.0), Val(2.0)], [Val(3.0), Val(4.0)]];
    var b: Image := [[Val(5.0)]];
    assert a[..1] == [[Val(1.0), Val(2.0)]];
    assert Flatten(a[..1]) == [Val(1.0), Val(2.0)] by {
      assert a[..1][..0] == [];
    }
    assert Flatten(a) == [Val(1.0), Val(2.0), Val(3.0), Val(4.0)];
    assert b[..0] == [];
    assert Flatten(b) == [Val(5.0)];
    var fa := Flatten(a);
    assert fa[..3] == [Val(1.0), Val(2.0), Val(3.0)];
    assert fa[..2] == [Val(1.0), Val(2.0)];
    assert fa[..1] == [Val(1.0)];
    assert Sum(fa[..1]) == Val(1.0) by { assert fa[..1][..0] == []; }
    assert Sum(fa[..2]) == Val(3.0) by { assert fa[..2][..1] == fa[..1]; }
    assert Sum(fa[..3]) == Val(6.0) by { assert fa[..3][..2] == fa[..2]; }
    assert Sum(fa) == Val(10.0);
    var fb := Flatten(b);
    assert fb[..0] == [];
    assert Sum(fb) == Val(5.0);
  }

  // ---------------------------------------------------------------------
  // Train-resolved reductions and projections

  /** The train-resolved FOM of a region: `None` for a missing region, an
      error for a FOM type without a handler, the reduction of the whole
      region otherwise. */
  function ComputeFomTrain(roi: Option<Image>, t: RoiFom, red: Reductions): (r: Outcome<Option<Pixel>>)
    ensures roi.None? ==> r == Ok(None)
    ensures roi.Some? && t.OtherFom? ==> r == Fail(UnknownParameterError)
    ensures roi.Some? && !t.OtherFom? ==> r == Ok(Some(FomOf(roi.value, t, red)))
  {
    if roi.None? then Ok(None)
    else if t.OtherFom? then Fail(UnknownParameterError)
    else Ok(Some(FomOf(roi.value, t, red)))
  }

  /** The train-resolved combinator: both regions are reduced first (so an
      unknown FOM type raises whenever either region is present); a
      single-region mode assigns that FOM, possibly `None`; a combined mode
      leaves the field untouched when an operand is missing and otherwise
      assigns the difference or the sum, or raises for an unknown combo. */
  function CombineTrain(sel: Selection, a: Option<Image>, b: Option<Image>, t: RoiFom, red: Reductions)
    : (r: Outcome<Assignment<Pixel>>)
    ensures r.Fail? ==> r.error == UnknownParameterError
    ensures t.OtherFom? ==> (r.Fail? <==> a.Some? || b.Some?)
    ensures sel.First? && r.Ok? ==> r.value == Assigned(ComputeFomTrain(a, t, red).value)
    ensures sel.Second? && r.Ok? ==> r.value == Assigned(ComputeFomTrain(b, t, red).value)
    ensures Combined(sel) && (a.None? || b.None?) && r.Ok? ==> r.value == Untouched
    ensures sel.UnknownCombo? && !t.OtherFom? ==> (r.Fail? <==> a.Some? && b.Some?)
    ensures sel.Difference? && a.Some? && b.Some? && !t.OtherFom? ==>
      r == Ok(Assigned(Some(Sub(FomOf(a.value, t, red), FomOf(b.value, t, red)))))
    ensures sel.Total? && a.Some? && b.Some? && !t.OtherFom? ==>
      r == Ok(Assigned(Some(Add(FomOf(a.value, t, red), FomOf(b.value, t, red)))))
  {
    var ca := ComputeFomTrain(a, t, red);
    var cb := ComputeFomTrain(b, t, red);
    if ca.Fail? then Fail(ca.error)
    else if cb.Fail? then Fail(cb.error)
    else if sel.First? then Ok(Assigned(ca.value))
    else if sel.Second? then Ok(Assigned(cb.value))
    else
        if ca.value.None? || cb.value.None? then Ok(Untouched)
        else if sel.Difference? then Ok(Assigned(Some(Sub(ca.value.value, cb.value.value))))
        else if sel.Total? then Ok(Assigned(Some(Add(ca.value.value, cb.value.value))))
        else Fail(UnknownParameterError)
  }

  /** The pump-probe combinator over the on and off regions: the same
      selection applied to both; in a combined mode only the on operands
      decide whether the fields are left untouched. */
  function CombineTrainPp(sel: Selection, aOn: Option<Image>, aOff: Option<Image>, bOn: Option<Image>, bOff: Option<Image>,
                          t: RoiFom, red: Reductions): (r: Outcome<PairAssignment<Pixel>>)
    requires aOn.None? == aOff.None? && bOn.None? == bOff.None?
    ensures r.Fail? ==> r.error == UnknownParameterError
    ensures t.OtherFom? ==> (r.Fail? <==> aOn.Some? || bOn.Some?)
    ensures sel.First? && r.Ok? ==>
      r.value == AssignedPair(ComputeFomTrain(aOn, t, red).value, ComputeFomTrain(aOff, t, red).value)
    ensures sel.Second? && r.Ok? ==>
      r.value == AssignedPair(ComputeFomTrain(bOn, t, red).value, ComputeFomTrain(bOff, t, red).value)
    ensures Combined(sel) && (aOn.None? || bOn.None?) && r.Ok? ==> r.value == UntouchedPair
    ensures sel.UnknownCombo? && !t.OtherFom? ==> (r.Fail? <==> aOn.Some? && bOn.Some?)
    ensures sel.Difference? && aOn.Some? && bOn.Some? && !t.OtherFom? ==>
      r == Ok(AssignedPair(Some(Sub(FomOf(aOn.value, t, red), FomOf(bOn.value, t, red))),
                           Some(Sub(FomOf(aOff.value, t, red), FomOf(bOff.value, t, red)))))
    ensures sel.Total? && aOn.Some? && bOn.Some? && !t.OtherFom? ==>
      r == Ok(AssignedPair(Some(Add(FomOf(aOn.value, t, red), FomOf(bOn.value, t, red))),
                           Some(Add(FomOf(aOff.value, t, red), FomOf(bOff.value, t, red)))))
    ensures r.Ok? && r.value.AssignedPair? ==> (r.value.on.None? <==> r.value.off.None?)
  {
    var aon := ComputeFomTrain(aOn, t, red);
    var aoff := ComputeFomTrain(aOff, t, red);
    var bon := ComputeFomTrain(bOn, t, red);
    var boff := ComputeFomTrain(bOff, t, red);
    if aon.Fail? || aoff.Fail? || bon.Fail? || boff.Fail? then Fail(UnknownParameterError)
    else if sel.First? then Ok(AssignedPair(aon.value, aoff.value))
    else if sel.Second? then Ok(AssignedPair(bon.value, boff.value))
    else
        if aon.value.None? || bon.value.None? then Ok(UntouchedPair)
        else if sel.Difference? then
          Ok(AssignedPair(Some(Sub(aon.value.value, bon.value.value)), Some(Sub(aoff.value.value, boff.value.value))))
        else if sel.Total? then
          Ok(AssignedPair(Some(Add(aon.value.value, bon.value.value)), Some(Add(aoff.value.value, boff.value.value))))
        else Fail(UnknownParameterError)
  }

  function ColumnOf(img: Image, c: nat): (r: seq<Pixel>)
    requires IsRect(img) && c < Width(img)
    ensures |r| == |img| && forall i :: 0 <= i < |img| ==> r[i] == img[i][c]
  {
    seq(|img|, i requires 0 <= i < |img| => img[i][c])
  }

  /** `np.sum(roi, axis=-2)`: one sum per column, over the rows. */
  function ColumnSums(img: Image): (r: seq<Pixel>)
    requires IsRect(img)
    ensures |r| == Width(img)
  {
    seq(Width(img), c requires 0 <= c < Width(img) => Sum(ColumnOf(img, c)))
  }

  /** `np.sum(roi, axis=-1)`: one sum per row. */
  function RowSums(img: Image): (r: seq<Pixel>)
    ensures |r| == |img|
  {
    seq(|img|, i requires 0 <= i < |img| => Sum(img[i]))
  }

  /** The projection of a region: `None` for a missing region (before the
      direction is looked at), the column sums for "x", the row sums for
      "y", and an error for any other direction. */
  function ComputeProj(roi: Option<Image>, direct: string): (r: Outcome<Option<seq<Pixel>>>)
    requires roi.Some? ==> IsRect(roi.value)
    ensures roi.None? ==> r == Ok(None)
    ensures roi.Some? && direct != "x" && direct != "y" ==> r == Fail(UnknownParameterError)
    ensures roi.Some? && direct == "x" ==>
      r.Ok? && r.value.Some? && |r.value.value| == Width(roi.value) &&
      forall c :: 0 <= c < Width(roi.value) ==> r.value.value[c] == Sum(ColumnOf(roi.value, c))
    ensures roi.Some? && direct == "y" ==>
      r.Ok? && r.value.Some? && |r.value.value| == |roi.value| &&
      forall i :: 0 <= i < |roi.value| ==> r.value.value[i] == Sum(roi.value[i])
  {
    if roi.None? then Ok(None)
    else if direct == "x" then Ok(Some(ColumnSums(roi.value)))
    else if direct == "y" then Ok(Some(RowSums(roi.value)))
    else Fail(UnknownParameterError)
  }

  /** Regions of the same shape have projections of the same length. */
  lemma ProjLengths(a: Image, b: Image, direct: string)
    requires IsRect(a) && IsRect(b) && SameShape(a, b)
    ensures var pa := ComputeProj(Some(a), direct);
      var pb := ComputeProj(Some(b), direct);
      pa.Ok? == pb.Ok? && (pa.Ok? ==> |pa.value.value| == |pb.value.value|)
  {
  }

  /** The row sums of a region add up to the sum of the whole region: the
      "y" projection carries the region's `FomSum`. */
  lemma {:induction false} RowSumsTotal(img: Image)
    ensures Sum(RowSums(img)) == Sum(Flatten(img))
  {
    if img != [] {
      var n := |img|;
      var init := img[..n - 1];
      RowSumsTotal(init);
      assert RowSums(img)[..n - 1] == RowSums(init);
      SumAppend(Flatten(init), img[n - 1]);
    }
  }

  /** The projection combinator. A single-region mode assigns that region's
      profile; a combined mode leaves the projection untouched when an
      operand is missing or when ROI1 and ROI2 differ in shape (an error is
      logged), and otherwise assigns the difference or the sum, or raises
      for an unknown combo. */
  function CombineProj(sel: Selection, a: Option<Image>, b: Option<Image>, direct: string)
    : (r: Outcome<Assignment<seq<Pixel>>>)
    requires a.Some? ==> IsRect(a.value)
    requires b.Some? ==> IsRect(b.value)
    ensures r.Fail? ==> r.error == UnknownParameterError
    ensures direct != "x" && direct != "y" ==> (r.Fail? <==> a.Some? || b.Some?)
    ensures sel.First? && r.Ok? ==> r.value == Assigned(ComputeProj(a, direct).value)
    ensures sel.Second? && r.Ok? ==> r.value == Assigned(ComputeProj(b, direct).value)
    ensures Combined(sel) && (a.None? || b.None?) && r.Ok? ==> r.value == Untouched
    ensures Combined(sel) && a.Some? && b.Some? && !SameShape(a.value, b.value) && r.Ok? ==> r.value == Untouched
    ensures sel.UnknownCombo? && (direct == "x" || direct == "y") ==>
      (r.Fail? <==> a.Some? && b.Some? && SameShape(a.value, b.value))
    ensures sel.Difference? && a.Some? && b.Some? && SameShape(a.value, b.value) && (direct == "x" || direct == "y") ==>
      var pa := ComputeProj(a, direct).value.value;
      var pb := ComputeProj(b, direct).value.value;
      |pa| == |pb| && r == Ok(Assigned(Some(SubEach(pa, pb))))
    ensures sel.Total? && a.Some? && b.Some? && SameShape(a.value, b.value) && (direct == "x" || direct == "y") ==>
      var pa := ComputeProj(a, direct).value.value;
      var pb := ComputeProj(b, direct).value.value;
      |pa| == |pb| && r == Ok(Assigned(Some(AddEach(pa, pb))))
  {
    var pa := ComputeProj(a, direct);
    var pb := ComputeProj(b, direct);
    if pa.Fail? then Fail(pa.error)
    else if pb.Fail? then Fail(pb.error)
    else if sel.First? then Ok(Assigned(pa.value))
    else if sel.Second? then Ok(Assigned(pb.value))
    else
        if pa.value.None? || pb.value.None? then Ok(Untouched)
        else if !SameShape(a.value, b.value) then Ok(Untouched)
        else
          ProjLengths(a.value, b.value, direct);
          if sel.Difference? then Ok(Assigned(Some(SubEach(pa.value.value, pb.value.value))))
          else if sel.Total? then Ok(Assigned(Some(AddEach(pa.value.value, pb.value.value))))
          else Fail(UnknownParameterError)
  }

  /** The pump-probe projection combinator. The on and off regions have the
      shapes of the main regions `a` and `b`; the shape check of a combined
      mode is made on the main regions, and only the on profiles decide
      whether the fields are left untouched. */
  function CombineProjPp(sel: Selection, aOn: Option<Image>, aOff: Option<Image>, bOn: Option<Image>, bOff: Option<Image>,
                         a: Option<Image>, b: Option<Image>, direct: string): (r: Outcome<PairAssignment<seq<Pixel>>>)
    requires OnOffLike(aOn, aOff, a) && OnOffLike(bOn, bOff, b)
    ensures r.Fail? ==> r.error == UnknownParameterError
    ensures direct != "x" && direct != "y" ==> (r.Fail? <==> a.Some? || b.Some?)
    ensures sel.First? && r.Ok? ==> r.value == AssignedPair(ComputeProj(aOn, direct).value, ComputeProj(aOff, direct).value)
    ensures sel.Second? && r.Ok? ==> r.value == AssignedPair(ComputeProj(bOn, direct).value, ComputeProj(bOff, direct).value)
    ensures Combined(sel) && (a.None? || b.None?) && r.Ok? ==> r.value == UntouchedPair
    ensures Combined(sel) && a.Some? && b.Some? && !SameShape(a.value, b.value) && r.Ok? ==> r.value == UntouchedPair
    ensures sel.UnknownCombo? && (direct == "x" || direct == "y") ==>
      (r.Fail? <==> a.Some? && b.Some? && SameShape(a.value, b.value))
    ensures sel.Difference? && a.Some? && b.Some? && SameShape(a.value, b.value) && (direct == "x" || direct == "y") ==>
      var on1 := ComputeProj(aOn, direct).value.value;
      var on2 := ComputeProj(bOn, direct).value.value;
      var off1 := ComputeProj(aOff, direct).value.value;
      var off2 := ComputeProj(bOff, direct).value.value;
      |on1| == |on2| && |off1| == |off2| && r == Ok(AssignedPair(Some(SubEach(on1, on2)), Some(SubEach(off1, off2))))
    ensures sel.Total? && a.Some? && b.Some? && SameShape(a.value, b.value) && (direct == "x" || direct == "y") ==>
      var on1 := ComputeProj(aOn, direct).value.value;
      var on2 := ComputeProj(bOn, direct).value.value;
      var off1 := ComputeProj(aOff, direct).value.value;
      var off2 := ComputeProj(bOff, direct).value.value;
      |on1| == |on2| && |off1| == |off2| && r == Ok(AssignedPair(Some(AddEach(on1, on2)), Some(AddEach(off1, off2))))
    ensures r.Ok? && r.value.AssignedPair? ==>
      (r.value.on.None? <==> r.value.off.None?) &&
      (r.value.on.Some? ==> |r.value.on.value| == |r.value.off.value|)
  {
    var p1on := ComputeProj(aOn, direct);
    var p1off := ComputeProj(aOff, direct);
    var p2on := ComputeProj(bOn, direct);
    var p2off := ComputeProj(bOff, direct);
    OnOffLengths(aOn, aOff, a, direct);
    OnOffLengths(bOn, bOff, b, direct);
    if p1on.Fail? || p1off.Fail? || p2on.Fail? || p2off.Fail? then Fail(UnknownParameterError)
    else if sel.First? then Ok(AssignedPair(p1on.value, p1off.value))
    else if sel.Second? then Ok(AssignedPair(p2on.value, p2off.value))
    else
        if p1on.value.None? || p2on.value.None? then Ok(UntouchedPair)
        else if !SameShape(a.value, b.value) then Ok(UntouchedPair)
        else
          ProjLengths(a.value, b.value, direct);
          if sel.Difference? then
            Ok(AssignedPair(Some(SubEach(p1on.value.value, p2on.value.value)), Some(SubEach(p1off.value.value, p2off.value.value))))
          else if sel.Total? then
            Ok(AssignedPair(Some(AddEach(p1on.value.value, p2on.value.value)), Some(AddEach(p1off.value.value, p2off.value.value))))
          else Fail(UnknownParameterError)
  }

  /** Rectangular regions, and on / off regions that are present exactly when
      the main region is and have its shape (one geometry cut from images
      of one shape). */
  ghost predicate OnOffLike(on: Option<Image>, off: Option<Image>, main: Option<Image>) {
    (on.Some? <==> main.Some?) && (off.Some? <==> main.Some?) &&
    (main.Some? ==> IsRect(main.value) && IsRect(on.value) && IsRect(off.value) &&
                    SameShape(on.value, main.value) && SameShape(off.value, main.value))
  }

  /** The on and off profiles of a region have the length of the main
      profile. */
  lemma OnOffLengths(on: Option<Image>, off: Option<Image>, main: Option<Image>, direct: string)
    requires OnOffLike(on, off, main)
    ensures main.Some? ==>
      var pm := ComputeProj(main, direct);
      var pon := ComputeProj(on, direct);
      var poff := ComputeProj(off, direct);
      pon.Ok? == pm.Ok? && poff.Ok? == pm.Ok? &&
      (pm.Ok? ==> |pon.value.value| == |pm.value.value| && |poff.value.value| == |pm.value.value|)
  {
    if main.Some? {
      ProjLengths(on.value, main.value, direct);
      ProjLengths(off.value, main.value, direct);
    }
  }

  // ---------------------------------------------------------------------
  // Train-resolved moving averages

  /** Assignment of one sample to each average in turn, stopping at the
      first refusal (the averages from there on are left as they were). */
  function AssignEach(mas: seq<MovingAverage>, samples: seq<Option<Image>>): (r: (seq<MovingAverage>, Option<Error>))
    requires |mas| == |samples|
    ensures |r.0| == |mas|
    ensures r.1.None? ==> forall k :: 0 <= k < |mas| ==> Assign(mas[k], samples[k]) == Ok(r.0[k])
    ensures r.1.Some? ==> r.1 == Some(ShapeMismatchError)
    ensures forall k :: 0 <= k < |mas| ==> r.0[k] == mas[k] || Assign(mas[k], samples[k]) == Ok(r.0[k])
    decreases |mas|
  {
    if mas == [] then ([], None)
    else match Assign(mas[0], samples[0])
      case Fail(e) => (mas, Some(e))
      case Ok(m) =>
        var rest := AssignEach(mas[1..], samples[1..]);
        ([m] + rest.0, rest.1)
  }

  /** The same for the pump-probe averages, on and off of each region in
      turn. */
  function AssignOnOff(on: seq<MovingAverage>, off: seq<MovingAverage>, sOn: seq<Option<Image>>, sOff: seq<Option<Image>>)
    : (r: (seq<MovingAverage>, seq<MovingAverage>, Option<Error>))
    requires |on| == |off| == |sOn| == |sOff|
    ensures |r.0| == |on| && |r.1| == |off|
    ensures r.2.None? ==> forall k :: 0 <= k < |on| ==> Assign(on[k], sOn[k]) == Ok(r.0[k]) && Assign(off[k], sOff[k]) == Ok(r.1[k])
    ensures r.2.Some? ==> r.2 == Some(ShapeMismatchError)
    ensures forall k :: 0 <= k < |on| ==> r.0[k] == on[k] || Assign(on[k], sOn[k]) == Ok(r.0[k])
    ensures forall k :: 0 <= k < |off| ==> r.1[k] == off[k] || Assign(off[k], sOff[k]) == Ok(r.1[k])
    decreases |on|
  {
    if on == [] then ([], [], None)
    else match Assign(on[0], sOn[0])
      case Fail(e) => (on, off, Some(e))
      case Ok(m) =>
        match Assign(off[0], sOff[0])
        case Fail(e) => ([m] + on[1..], off, Some(e))
        case Ok(m') =>
          var rest := AssignOnOff(on[1..], off[1..], sOn[1..], sOff[1..]);
          ([m] + rest.0, [m'] + rest.1, rest.2)
  }

  /** An assigned average holds a value exactly when the sample is present,
      and then has the sample's shape. */
  lemma AssignMirrors(ma: MovingAverage, sample: Option<Image>, m: MovingAverage)
    requires Assign(ma, sample) == Ok(m)
    requires sample.Some? ==> IsRect(sample.value)
    ensures m.value.None? <==> sample.None?
    ensures m.value.Some? ==> SameShape(m.value.value, sample.value) && IsRect(m.value.value)
  {
    if sample.Some? {
      SameShapeRect(m.value.value, sample.value);
    }
  }

  /** `del` on every average. */
  function ClearAll(mas: seq<MovingAverage>): (r: seq<MovingAverage>)
    ensures |r| == |mas| && forall k :: 0 <= k < |mas| ==> r[k] == Delete(mas[k])
  {
    seq(|mas|, k requires 0 <= k < |mas| => Delete(mas[k]))
  }

  /** A window change on every average. */
  function Rewindow(mas: seq<MovingAverage>, w: Window): (r: seq<MovingAverage>)
    ensures |r| == |mas| && forall k :: 0 <= k < |mas| ==> r[k] == mas[k].(window := w)
  {
    seq(|mas|, k requires 0 <= k < |mas| => mas[k].(window := w))
  }

  /** Averages that already have window `w` are not changed by setting it. */
  lemma RewindowSame(mas: seq<MovingAverage>, w: Window)
    requires forall k :: 0 <= k < |mas| ==> mas[k].window == w
    ensures Rewindow(mas, w) == mas
  {
    var r := Rewindow(mas, w);
    assert forall k :: 0 <= k < |mas| ==> r[k] == mas[k];
  }

  /** The train-resolved fields of the processed record. */
  datatype ProjOut = ProjOut(x: seq<int>, y: seq<Pixel>, fom: Pixel)
  datatype TrainRoiOut = TrainRoiOut(norm: Option<Pixel>, fom: Option<Pixel>, proj: Option<ProjOut>)

  /** The pump-probe fields of the processed record. */
  datatype PpRoiOut = PpRoiOut(
    onRoiNorm: Option<Pixel>, offRoiNorm: Option<Pixel>, fom: Option<Pixel>,
    yOn: Option<seq<Pixel>>, yOff: Option<seq<Pixel>>, x: Option<seq<int>>, y: Option<seq<Pixel>>)

  /** The global settings the processor reads: the one-shot reset key and the
      moving-average window. */
  datatype GlobalConfig = GlobalConfig(resetMaRoi: bool, maWindow: int)

  /** The four regions of the masked mean image and, in pump-probe mode, of
      the on and off images, with the pump-probe settings of the train. */
  datatype TrainInput = TrainInput(
    rois: seq<Option<Image>>,
    on: Option<seq<Option<Image>>>,
    off: seq<Option<Image>>,
    ppAnalysis: AnalysisType,
    absDifference: bool)

  ghost predicate WellFormed(input: TrainInput) {
    |input.rois| == 4 &&
    (forall k :: 0 <= k < 4 ==> input.rois[k].Some? ==> IsRect(input.rois[k].value)) &&
    (input.on.Some? ==>
      |input.on.value| == 4 && |input.off| == 4 &&
      forall k :: 0 <= k < 4 ==> OnOffLike(input.on.value[k], input.off[k], input.rois[k]))
  }

  /** The normaliser, the pump-probe normaliser and the curve slicing of the
      train, with the processor's normaliser type and ranges bound in. */
  datatype Foreign = Foreign(
    red: Reductions,
    normalize: (seq<Pixel>, seq<int>) -> seq<Pixel>,
    normalizePp: (seq<Pixel>, seq<Pixel>, seq<int>) -> (seq<Pixel>, seq<Pixel>),
    sliceCurve: (seq<Pixel>, seq<int>) -> seq<Pixel>)

  function ValueOf(ma: MovingAverage): Option<Image> {
    ma.value
  }

  /** The projection fields written from a combined profile: nothing for an
      untouched or missing profile; otherwise `x = arange(len)`, `y` the
      normalised profile and the FOM the sum of `y`. */
  function ProjWrite(c: Assignment<seq<Pixel>>, f: Foreign, out: TrainRoiOut): (r: TrainRoiOut)
    ensures r.norm == out.norm && r.fom == out.fom
    ensures c.Untouched? || c.v.None? ==> r == out
    ensures c.Assigned? && c.v.Some? ==>
      r.proj.Some? && r.proj.value.x == Arange(|c.v.value|) &&
      r.proj.value.y == f.normalize(c.v.value, r.proj.value.x) && r.proj.value.fom == Sum(r.proj.value.y)
  {
    if c.Untouched? || c.v.None? then out
    else
      var x := Arange(|c.v.value|);
      var y := f.normalize(c.v.value, x);
      out.(proj := Some(ProjOut(x, y, Sum(y))))
  }

  /** The on / off normalisers written from a combined pair. */
  function PpNormWrite(c: PairAssignment<Pixel>, pp: PpRoiOut): (r: PpRoiOut)
    ensures c.UntouchedPair? ==> r == pp
    ensures c.AssignedPair? ==> r.onRoiNorm == c.on && r.offRoiNorm == c.off && r == pp.(onRoiNorm := r.onRoiNorm, offRoiNorm := r.offRoiNorm)
  {
    match c
    case UntouchedPair => pp
    case AssignedPair(on, off) => pp.(onRoiNorm := on, offRoiNorm := off)
  }

  /** The pump-probe FOM `fom_on - fom_off` written from a combined pair;
      nothing when the on FOM is missing. */
  function PpFomWrite(c: PairAssignment<Pixel>, pp: PpRoiOut): (r: PpRoiOut)
    ensures c.UntouchedPair? || c.on.None? || c.off.None? ==> r == pp
    ensures c.AssignedPair? && c.on.Some? && c.off.Some? ==> r == pp.(fom := Some(Sub(c.on.value, c.off.value)))
  {
    if c.UntouchedPair? || c.on.None? || c.off.None? then pp
    else pp.(fom := Some(Sub(c.on.value, c.off.value)))
  }

  /** The pump-probe projection fields written from a combined pair of
      profiles: normalised together, their difference, and the sum (of
      absolute values, when asked) of the sliced difference; normalised
      profiles of different lengths raise. Nothing is written when the on
      profile is missing. */
  function PpProjWrite(c: PairAssignment<seq<Pixel>>, f: Foreign, absDifference: bool, pp: PpRoiOut): (r: Outcome<PpRoiOut>)
    ensures c.UntouchedPair? || c.on.None? || c.off.None? ==> r == Ok(pp)
    ensures r.Fail? ==> r.error == ValueError
    ensures c.AssignedPair? && c.on.Some? && c.off.Some? ==>
      var x := Arange(|c.on.value|);
      var (yOn, yOff) := f.normalizePp(c.on.value, c.off.value, x);
      (r.Fail? <==> |yOn| != |yOff|) &&
      (r.Ok? ==> r.value.x == Some(x) && r.value.yOn == Some(yOn) && r.value.yOff == Some(yOff) &&
                 r.value.y == Some(SubEach(yOn, yOff)) && r.value.onRoiNorm == pp.onRoiNorm && r.value.offRoiNorm == pp.offRoiNorm &&
                 var sliced := f.sliceCurve(SubEach(yOn, yOff), x);
                 r.value.fom == Some(if absDifference then Sum(AbsEach(sliced)) else Sum(sliced)))
  {
    if c.UntouchedPair? || c.on.None? || c.off.None? then Ok(pp)
    else
      var x := Arange(|c.on.value|);
      var (yOn, yOff) := f.normalizePp(c.on.value, c.off.value, x);
      if |yOn| != |yOff| then Fail(ValueError)
      else
        var y := SubEach(yOn, yOff);
        var sliced := f.sliceCurve(y, x);
        var fom := if absDifference then Sum(AbsEach(sliced)) else Sum(sliced);
        Ok(pp.(yOn := Some(yOn), yOff := Some(yOff), x := Some(x), y := Some(y), fom := Some(fom)))
  }

  /** The main steps on the averages `mas` under settings `c`: normaliser,
      FOM, then projection, each written into the record in turn. The first
      step that raises stops with its error; the fields of the steps before
      it stay written and the later ones are not. */
  function MainSteps(c: RoiConfig, mas: seq<MovingAverage>, f: Foreign, out: TrainRoiOut): (TrainRoiOut, Option<Error>)
    requires |mas| == 4 && forall k :: 0 <= k < 4 ==> mas[k].value.Some? ==> IsRect(mas[k].value.value)
  {
    var n := CombineTrain(NormSelection(c.normCombo), mas[2].value, mas[3].value, c.normType, f.red);
    if n.Fail? then (out, Some(n.error)) else
    var o1 := out.(norm := Written(n.value, out.norm));
    var fo := CombineTrain(FomSelection(c.fomCombo), mas[0].value, mas[1].value, c.fomType, f.red);
    if fo.Fail? then (o1, Some(fo.error)) else
    var o2 := o1.(fom := Written(fo.value, o1.fom));
    var p := CombineProj(FomSelection(c.projCombo), mas[0].value, mas[1].value, c.projDirect);
    if p.Fail? then (o2, Some(p.error)) else (ProjWrite(p.value, f, o2), None)
  }

  /** The pump-probe steps on the on / off averages `on`, `off` (shaped like
      the main averages `mas`): nothing for an undefined pump-probe
      analysis; otherwise the normalisers, then the FOM (ROI FOM analysis)
      or the projection (ROI projection analysis), each written in turn and
      stopping at the first error. */
  function PpSteps(c: RoiConfig, mas: seq<MovingAverage>, on: seq<MovingAverage>, off: seq<MovingAverage>,
                   analysis: AnalysisType, absDifference: bool, f: Foreign, pp: PpRoiOut): (PpRoiOut, Option<Error>)
    requires |mas| == 4 && |on| == 4 && |off| == 4
    requires forall k :: 0 <= k < 4 ==> OnOffLike(on[k].value, off[k].value, mas[k].value)
  {
    if analysis == Undefined then (pp, None) else
    assert forall k :: 0 <= k < 4 ==> on[k].value.None? == off[k].value.None? by {
      forall k | 0 <= k < 4 ensures on[k].value.None? == off[k].value.None? {
        assert OnOffLike(on[k].value, off[k].value, mas[k].value);
      }
    }
    var n := CombineTrainPp(NormSelection(c.normCombo), on[2].value, off[2].value, on[3].value, off[3].value, c.normType, f.red);
    if n.Fail? then (pp, Some(n.error)) else
    var p1 := PpNormWrite(n.value, pp);
    if analysis == RoiFom then
      var cf := CombineTrainPp(FomSelection(c.fomCombo), on[0].value, off[0].value, on[1].value, off[1].value, c.fomType, f.red);
      if cf.Fail? then (p1, Some(cf.error)) else (PpFomWrite(cf.value, p1), None)
    else if analysis == RoiProj then
      var cp := CombineProjPp(FomSelection(c.projCombo), on[0].value, off[0].value, on[1].value, off[1].value,
                              mas[0].value, mas[1].value, c.projDirect);
      if cp.Fail? then (p1, Some(cp.error)) else
      var w := PpProjWrite(cp.value, f, absDifference, p1);
      if w.Fail? then (p1, Some(w.error)) else (w.value, None)
    else (p1, None)
  }

  /** The main steps raise only for an unknown FOM type, combo or
      direction; a raised error leaves the projection unwritten (it is the
      last step), a failing normaliser writes nothing at all, and without
      an error the projection is the one of the combined profile. */
  lemma MainStepsFacts(c: RoiConfig, mas: seq<MovingAverage>, f: Foreign, out: TrainRoiOut)
    requires |mas| == 4 && forall k :: 0 <= k < 4 ==> mas[k].value.Some? ==> IsRect(mas[k].value.value)
    ensures var r := MainSteps(c, mas, f, out);
      (r.1.Some? ==> r.1 == Some(UnknownParameterError) && r.0.proj == out.proj) &&
      (CombineTrain(NormSelection(c.normCombo), mas[2].value, mas[3].value, c.normType, f.red).Fail? ==>
        r == (out, Some(UnknownParameterError))) &&
      (r.1.None? ==>
        var n := CombineTrain(NormSelection(c.normCombo), mas[2].value, mas[3].value, c.normType, f.red);
        var fo := CombineTrain(FomSelection(c.fomCombo), mas[0].value, mas[1].value, c.fomType, f.red);
        var p := CombineProj(FomSelection(c.projCombo), mas[0].value, mas[1].value, c.projDirect);
        n.Ok? && fo.Ok? && p.Ok? &&
        r.0.norm == Written(n.value, out.norm) && r.0.fom == Written(fo.value, out.fom) &&
        r.0.proj == ProjWrite(p.value, f, out).proj)
  {
  }

  /** The pump-probe dispatch: an undefined analysis writes nothing; only
      the projection analysis writes the profiles or raises a length
      mismatch; the FOM is written only by the FOM and the projection
      analyses; every other error is an unknown parameter. */
  lemma PpStepsFacts(c: RoiConfig, mas: seq<MovingAverage>, on: seq<MovingAverage>, off: seq<MovingAverage>,
                     analysis: AnalysisType, absDifference: bool, f: Foreign, pp: PpRoiOut)
    requires |mas| == 4 && |on| == 4 && |off| == 4
    requires forall k :: 0 <= k < 4 ==> OnOffLike(on[k].value, off[k].value, mas[k].value)
    ensures var r := PpSteps(c, mas, on, off, analysis, absDifference, f, pp);
      (analysis == Undefined ==> r == (pp, None)) &&
      (r.1.Some? ==> r.1 == Some(UnknownParameterError) || r.1 == Some(ValueError)) &&
      (r.1 == Some(ValueError) ==> analysis == RoiProj) &&
      (analysis != RoiProj ==> r.0.x == pp.x && r.0.y == pp.y && r.0.yOn == pp.yOn && r.0.yOff == pp.yOff) &&
      (analysis != RoiFom && analysis != RoiProj ==> r.0.fom == pp.fom)
  {
  }

  /** After a refusal-free assignment the averages mirror the regions and
      hold rectangular values. */
  lemma AssignEachMirrors(mas: seq<MovingAverage>, rois: seq<Option<Image>>)
    requires |mas| == |rois|
    requires forall k :: 0 <= k < |rois| ==> rois[k].Some? ==> IsRect(rois[k].value)
    ensures var a := AssignEach(mas, rois);
      a.1.None? ==> Mirrors(a.0, rois) && forall k :: 0 <= k < |rois| ==> a.0[k].value.Some? ==> IsRect(a.0[k].value.value)
  {
    var a := AssignEach(mas, rois);
    if a.1.None? {
      forall k | 0 <= k < |rois|
        ensures a.0[k].value.None? <==> rois[k].None?
        ensures a.0[k].value.Some? ==> SameShape(a.0[k].value.value, rois[k].value) && IsRect(a.0[k].value.value)
      {
        AssignMirrors(mas[k], rois[k], a.0[k]);
      }
    }
  }

  /** The main part of a train on the main averages `mas`: the averages
      take the regions in turn; a refusal stops the train with the record
      untouched, otherwise the main steps run on the new averages. The
      result is the new averages, the record and the error. */
  function MainPart(c: RoiConfig, mas: seq<MovingAverage>, input: TrainInput, f: Foreign, out: TrainRoiOut)
    : (seq<MovingAverage>, TrainRoiOut, Option<Error>)
    requires |mas| == 4 && WellFormed(input)
  {
    var a := AssignEach(mas, input.rois);
    if a.1.Some? then (a.0, out, a.1) else
    AssignEachMirrors(mas, input.rois);
    var m := MainSteps(c, a.0, f, out);
    (a.0, m.0, m.1)
  }

  /** The pump-probe part of a train, after the main averages `mas` took
      the regions: the on / off averages take their regions in turn; a
      refusal stops with the pump-probe record untouched, otherwise the
      pump-probe steps run. The result is the new on and off averages, the
      pump-probe record and the error. */
  function PpPart(c: RoiConfig, mas: seq<MovingAverage>, on: seq<MovingAverage>, off: seq<MovingAverage>,
                  input: TrainInput, f: Foreign, pp: PpRoiOut): (seq<MovingAverage>, seq<MovingAverage>, PpRoiOut, Option<Error>)
    requires |on| == 4 && |off| == 4 && WellFormed(input) && input.on.Some? && Mirrors(mas, input.rois)
  {
    var b := AssignOnOff(on, off, input.on.value, input.off);
    if b.2.Some? then (b.0, b.1, pp, b.2) else
    assert forall k :: 0 <= k < 4 ==> OnOffLike(b.0[k].value, b.1[k].value, mas[k].value) by {
      forall k | 0 <= k < 4 ensures OnOffLike(b.0[k].value, b.1[k].value, mas[k].value) {
        AssignMirrors(on[k], input.on.value[k], b.0[k]);
        AssignMirrors(off[k], input.off[k], b.1[k]);
        if mas[k].value.Some? {
          SameShapeRect(mas[k].value.value, input.rois[k].value);
          ShapeThrough(b.0[k].value.value, input.on.value[k].value, input.rois[k].value, mas[k].value.value);
          ShapeThrough(b.1[k].value.value, input.off[k].value, input.rois[k].value, mas[k].value.value);
        }
      }
    }
    var r := PpSteps(c, mas, b.0, b.1, input.ppAnalysis, input.absDifference, f, pp);
    (b.0, b.1, r.0, r.1)
  }

  /** One train: the main part, then, when the train has on / off images
      and the main part raised nothing, the pump-probe part. The result is
      the new main, on and off averages, the two records and the error. */
  function TrainSteps(c: RoiConfig, mas: seq<MovingAverage>, on: seq<MovingAverage>, off: seq<MovingAverage>,
                      input: TrainInput, f: Foreign, out: TrainRoiOut, pp: PpRoiOut)
    : (seq<MovingAverage>, seq<MovingAverage>, seq<MovingAverage>, TrainRoiOut, PpRoiOut, Option<Error>)
    requires |mas| == 4 && |on| == 4 && |off| == 4 && WellFormed(input)
  {
    var m := MainPart(c, mas, input, f, out);
    if m.2.Some? || input.on.None? then (m.0, on, off, m.1, pp, m.2) else
    AssignEachMirrors(mas, input.rois);
    var p := PpPart(c, m.0, on, off, input, f, pp);
    (m.0, p.0, p.1, m.1, p.2, p.3)
  }

  /** The main part: a refused region leaves the record as it was and
      raises a shape mismatch; otherwise the record and the error are the
      main steps' on the new averages; the only errors are a shape
      mismatch and an unknown parameter. */
  lemma MainPartFacts(c: RoiConfig, mas: seq<MovingAverage>, input: TrainInput, f: Foreign, out: TrainRoiOut)
    requires |mas| == 4 && WellFormed(input)
    ensures var r := MainPart(c, mas, input, f, out);
      var a := AssignEach(mas, input.rois);
      r.0 == a.0 &&
      (a.1.Some? ==> r.1 == out && r.2 == Some(ShapeMismatchError)) &&
      (r.2.Some? ==> r.2.value == ShapeMismatchError || r.2.value == UnknownParameterError)
  {
    var a := AssignEach(mas, input.rois);
    if a.1.None? {
      AssignEachMirrors(mas, input.rois);
      MainStepsFacts(c, a.0, f, out);
    }
  }

  /** The pump-probe part: a refused on / off region leaves the pump-probe
      record as it was and raises a shape mismatch; an undefined analysis
      leaves the record as it was; the only errors are a shape mismatch,
      an unknown parameter and, for the projection analysis only, a length
      mismatch. */
  lemma PpPartFacts(c: RoiConfig, mas: seq<MovingAverage>, on: seq<MovingAverage>, off: seq<MovingAverage>,
                    input: TrainInput, f: Foreign, pp: PpRoiOut)
    requires |on| == 4 && |off| == 4 && WellFormed(input) && input.on.Some? && Mirrors(mas, input.rois)
    ensures var r := PpPart(c, mas, on, off, input, f, pp);
      var b := AssignOnOff(on, off, input.on.value, input.off);
      r.0 == b.0 && r.1 == b.1 &&
      (b.2.Some? ==> r.2 == pp && r.3 == Some(ShapeMismatchError)) &&
      (input.ppAnalysis == Undefined ==> r.2 == pp) &&
      (r.3.Some? ==> r.3.value == ShapeMismatchError || r.3.value == UnknownParameterError || r.3.value == ValueError) &&
      (r.3 == Some(ValueError) ==> input.ppAnalysis == RoiProj)
  {
    var b := AssignOnOff(on, off, input.on.value, input.off);
    if b.2.None? {
      assert forall k :: 0 <= k < 4 ==> OnOffLike(b.0[k].value, b.1[k].value, mas[k].value);
      PpStepsFacts(c, mas, b.0, b.1, input.ppAnalysis, input.absDifference, f, pp);
    }
  }

  class ImageRoiTrain {
    var fomCombo: RoiCombo
    var fomType: RoiFom
    var normCombo: RoiCombo
    var normType: RoiFom
    var projCombo: RoiCombo
    var projDirect: string
    var maWindow: int
    /** The averages of ROI1..ROI4, and of their on and off parts. */
    var ma: seq<MovingAverage>
    var maOn: seq<MovingAverage>
    var maOff: seq<MovingAverage>

    /** Twelve averages, all with the processor's window, holding
        rectangular values. */
    ghost predicate Valid()
      reads this
    {
      maWindow >= 1 && |ma| == 4 && |maOn| == 4 && |maOff| == 4 &&
      (forall k :: 0 <= k < 4 ==> ma[k].window == maWindow && maOn[k].window == maWindow && maOff[k].window == maWindow) &&
      (forall k :: 0 <= k < 4 ==> ma[k].value.Some? ==> IsRect(ma[k].value.value))
    }

    /** The pump-probe averages mirror the main ones: present together, of
        the same shapes. */
    ghost predicate Aligned()
      reads this
      requires Valid()
    {
      forall k :: 0 <= k < 4 ==> OnOffLike(maOn[k].value, maOff[k].value, ma[k].value)
    }

    constructor()
      ensures Valid()
      ensures fomCombo == Roi1 && fomType == FomSum && normCombo == Roi3 && normType == FomSum
      ensures projCombo == Roi1 && projDirect == "x" && maWindow == 1
      ensures ma == maOn == maOff == [Empty(1), Empty(1), Empty(1), Empty(1)]
    {
      fomCombo := Roi1;
      fomType := FomSum;
      normCombo := Roi3;
      normType := FomSum;
      projCombo := Roi1;
      projDirect := "x";
      maWindow := 1;
      ma := [Empty(1), Empty(1), Empty(1), Empty(1)];
      maOn := ma;
      maOff := ma;
    }

    /** The reset key empties all twelve averages (and is consumed); a new
        window is pushed to all of them only when it differs from the stored
        one, and a window below 1 is refused. */
    method UpdateMovingAverage(cfg: GlobalConfig) returns (remaining: GlobalConfig, err: Option<Error>)
      requires Valid()
      modifies this
      ensures Valid()
      ensures remaining == cfg.(resetMaRoi := false)
      ensures err.Some? <==> cfg.maWindow < 1
      ensures err.Some? ==> err.value == ValueError && maWindow == old(maWindow)
      ensures err.None? ==> maWindow == cfg.maWindow
      ensures var cleared := if cfg.resetMaRoi then ClearAll(old(ma)) else old(ma);
        ma == (if err.None? then Rewindow(cleared, maWindow) else cleared)
      ensures var cleared := if cfg.resetMaRoi then ClearAll(old(maOn)) else old(maOn);
        maOn == (if err.None? then Rewindow(cleared, maWindow) else cleared)
      ensures var cleared := if cfg.resetMaRoi then ClearAll(old(maOff)) else old(maOff);
        maOff == (if err.None? then Rewindow(cleared, maWindow) else cleared)
      ensures old(maWindow) == cfg.maWindow ==>
        ma == (if cfg.resetMaRoi then ClearAll(old(ma)) else old(ma)) &&
        maOn == (if cfg.resetMaRoi then ClearAll(old(maOn)) else old(maOn)) &&
        maOff == (if cfg.resetMaRoi then ClearAll(old(maOff)) else old(maOff))
      ensures fomCombo == old(fomCombo) && fomType == old(fomType) && normCombo == old(normCombo)
      ensures normType == old(normType) && projCombo == old(projCombo) && projDirect == old(projDirect)
    {
      if cfg.resetMaRoi {
        ma := ClearAll(ma);
        maOn := ClearAll(maOn);
        maOff := ClearAll(maOff);
      }
      remaining := cfg.(resetMaRoi := false);
      var v := cfg.maWindow;
      if maWindow != v {
        if v < 1 {
          return remaining, Some(ValueError);
        }
        ma := Rewindow(ma, v);
        maOn := Rewindow(maOn, v);
        maOff := Rewindow(maOff, v);
      } else {
        RewindowSame(ma, v);
        RewindowSame(maOn, v);
        RewindowSame(maOff, v);
      }
      maWindow := v;
      err := None;
    }

    /** The moving-average settings first; a refused window stops the update
        before the ROI settings are read. */
    method Update(g: GlobalConfig, cfg: RoiConfig) returns (remaining: GlobalConfig, err: Option<Error>)
      requires Valid()
      modifies this
      ensures Valid()
      ensures remaining == g.(resetMaRoi := false)
      ensures err.Some? <==> g.maWindow < 1
      ensures err.None? ==> maWindow == g.maWindow
      ensures err.None? ==> fomCombo == cfg.fomCombo && fomType == cfg.fomType && normCombo == cfg.normCombo &&
                            normType == cfg.normType && projCombo == cfg.projCombo && projDirect == cfg.projDirect
      ensures err.Some? ==> fomCombo == old(fomCombo) && fomType == old(fomType) && normCombo == old(normCombo) &&
                            normType == old(normType) && projCombo == old(projCombo) && projDirect == old(projDirect)
    {
      remaining, err := UpdateMovingAverage(g);
      if err.Some? {
        return;
      }
      fomCombo := cfg.fomCombo;
      fomType := cfg.fomType;
      normCombo := cfg.normCombo;
      normType := cfg.normType;
      projCombo := cfg.projCombo;
      projDirect := cfg.projDirect;
    }

    /** The normaliser from the ROI3 and ROI4 averages. */
    method ProcessNorm(red: Reductions, out: TrainRoiOut) returns (r: Outcome<TrainRoiOut>)
      requires Valid()
      ensures var c := CombineTrain(NormSelection(normCombo), ma[2].value, ma[3].value, normType, red);
        (r.Fail? <==> c.Fail?) && (r.Fail? ==> r.error == UnknownParameterError) &&
        (r.Ok? ==> r.value == out.(norm := Written(c.value, out.norm)))
    {
      var c := CombineTrain(NormSelection(normCombo), ma[2].value, ma[3].value, normType, red);
      if c.Fail? {
        return Fail(c.error);
      }
      r := Ok(out.(norm := Written(c.value, out.norm)));
    }

    /** The FOM from the ROI1 and ROI2 averages. */
    method ProcessFom(red: Reductions, out: TrainRoiOut) returns (r: Outcome<TrainRoiOut>)
      requires Valid()
      ensures var c := CombineTrain(FomSelection(fomCombo), ma[0].value, ma[1].value, fomType, red);
        (r.Fail? <==> c.Fail?) && (r.Fail? ==> r.error == UnknownParameterError) &&
        (r.Ok? ==> r.value == out.(fom := Written(c.value, out.fom)))
    {
      var c := CombineTrain(FomSelection(fomCombo), ma[0].value, ma[1].value, fomType, red);
      if c.Fail? {
        return Fail(c.error);
      }
      r := Ok(out.(fom := Written(c.value, out.fom)));
    }

    /** The projection from the ROI1 and ROI2 averages. When a profile is
        assigned, `x` is `arange` of its length, `y` the normalised profile
        and `fom` the sum of `y`; a missing profile writes nothing. */
    method ProcessProj(f: Foreign, out: TrainRoiOut) returns (r: Outcome<TrainRoiOut>)
      requires Valid()
      ensures var c := CombineProj(FomSelection(projCombo), ma[0].value, ma[1].value, projDirect);
        (r.Fail? <==> c.Fail?) && (r.Fail? ==> r.error == UnknownParameterError) &&
        (r.Ok? && (c.value.Untouched? || c.value.v.None?) ==> r.value == out) &&
        (r.Ok? && c.value.Assigned? && c.value.v.Some? ==>
          var x := Arange(|c.value.v.value|);
          var y := f.normalize(c.value.v.value, x);
          r.value == out.(proj := Some(ProjOut(x, y, Sum(y))))) &&
        (r.Ok? ==> r.value == ProjWrite(c.value, f, out))
    {
      var c := CombineProj(FomSelection(projCombo), ma[0].value, ma[1].value, projDirect);
      if c.Fail? {
        return Fail(c.error);
      }
      if c.value.Untouched? || c.value.v.None? {
        return Ok(out);
      }
      var proj := c.value.v.value;
      var x := Arange(|proj|);
      var y := f.normalize(proj, x);
      r := Ok(out.(proj := Some(ProjOut(x, y, Sum(y)))));
    }

    /** The pump-probe normalisers from the on / off averages of ROI3 and
        ROI4. */
    method ProcessNormPumpProbe(red: Reductions, pp: PpRoiOut) returns (r: Outcome<PpRoiOut>)
      requires Valid() && Aligned()
      ensures var c := CombineTrainPp(NormSelection(normCombo), maOn[2].value, maOff[2].value, maOn[3].value, maOff[3].value, normType, red);
        (r.Fail? <==> c.Fail?) && (r.Fail? ==> r.error == UnknownParameterError) &&
        (r.Ok? && c.value.UntouchedPair? ==> r.value == pp) &&
        (r.Ok? && c.value.AssignedPair? ==> r.value == pp.(onRoiNorm := c.value.on, offRoiNorm := c.value.off)) &&
        (r.Ok? ==> r.value == PpNormWrite(c.value, pp))
    {
      var c := CombineTrainPp(NormSelection(normCombo), maOn[2].value, maOff[2].value, maOn[3].value, maOff[3].value, normType, red);
      if c.Fail? {
        return Fail(c.error);
      }
      match c.value
      case UntouchedPair => r := Ok(pp);
      case AssignedPair(on, off) => r := Ok(pp.(onRoiNorm := on, offRoiNorm := off));
    }

    /** The pump-probe FOM `fom_on - fom_off` from the on / off averages of
        ROI1 and ROI2; nothing is written when `fom_on` is `None`. */
    method ProcessFomPumpProbe(red: Reductions, pp: PpRoiOut) returns (r: Outcome<PpRoiOut>)
      requires Valid() && Aligned()
      ensures var c := CombineTrainPp(FomSelection(fomCombo), maOn[0].value, maOff[0].value, maOn[1].value, maOff[1].value, fomType, red);
        (r.Fail? <==> c.Fail?) && (r.Fail? ==> r.error == UnknownParameterError) &&
        (r.Ok? && (c.value.UntouchedPair? || c.value.on.None?) ==> r.value == pp) &&
        (r.Ok? && c.value.AssignedPair? && c.value.on.Some? ==>
          c.value.off.Some? && r.value == pp.(fom := Some(Sub(c.value.on.value, c.value.off.value)))) &&
        (r.Ok? ==> r.value == PpFomWrite(c.value, pp))
    {
      var c := CombineTrainPp(FomSelection(fomCombo), maOn[0].value, maOff[0].value, maOn[1].value, maOff[1].value, fomType, red);
      if c.Fail? {
        return Fail(c.error);
      }
      if c.value.UntouchedPair? || c.value.on.None? {
        return Ok(pp);
      }
      r := Ok(pp.(fom := Some(Sub(c.value.on.value, c.value.off.value))));
    }

    /** The pump-probe projection: profiles of the on / off averages of ROI1
        and ROI2, normalised together, their difference, and its FOM: the sum
        (of the absolute values, when `absDifference` is set) of the sliced
        difference. Nothing is written when the on profile is missing; the
        normalised on and off profiles must have equal lengths. */
    method ProcessProjPumpProbe(f: Foreign, absDifference: bool, pp: PpRoiOut) returns (r: Outcome<PpRoiOut>)
      requires Valid() && Aligned()
      ensures var c := CombineProjPp(FomSelection(projCombo), maOn[0].value, maOff[0].value, maOn[1].value, maOff[1].value,
                                     ma[0].value, ma[1].value, projDirect);
        (c.Fail? ==> r == Fail(UnknownParameterError)) &&
        (c.Ok? && (c.value.UntouchedPair? || c.value.on.None?) ==> r == Ok(pp)) &&
        (c.Ok? && c.value.AssignedPair? && c.value.on.Some? ==>
          c.value.off.Some? &&
          var x := Arange(|c.value.on.value|);
          var (yOn, yOff) := f.normalizePp(c.value.on.value, c.value.off.value, x);
          (|yOn| != |yOff| ==> r == Fail(ValueError)) &&
          (|yOn| == |yOff| ==>
            var y := SubEach(yOn, yOff);
            var sliced := f.sliceCurve(y, x);
            var fom := if absDifference then Sum(AbsEach(sliced)) else Sum(sliced);
            r == Ok(pp.(yOn := Some(yOn), yOff := Some(yOff), x := Some(x), y := Some(y), fom := Some(fom))))) &&
        (c.Ok? ==> r == PpProjWrite(c.value, f, absDifference, pp))
    {
      var c := CombineProjPp(FomSelection(projCombo), maOn[0].value, maOff[0].value, maOn[1].value, maOff[1].value,
                             ma[0].value, ma[1].value, projDirect);
      if c.Fail? {
        return Fail(c.error);
      }
      if c.value.UntouchedPair? || c.value.on.None? {
        return Ok(pp);
      }
      var x := Arange(|c.value.on.value|);
      var (yOn, yOff) := f.normalizePp(c.value.on.value, c.value.off.value, x);
      if |yOn| != |yOff| {
        return Fail(ValueError);
      }
      var y := SubEach(yOn, yOff);
      var sliced := f.sliceCurve(y, x);
      var fom := if absDifference then Sum(AbsEach(sliced)) else Sum(sliced);
      r := Ok(pp.(yOn := Some(yOn), yOff := Some(yOff), x := Some(x), y := Some(y), fom := Some(fom)));
    }

    /** The four main averages take the regions of the train in turn, up to
        the first refusal. */
    method AssignMain(rois: seq<Option<Image>>) returns (err: Option<Error>)
      requires Valid() && |rois| == 4
      requires forall k :: 0 <= k < 4 ==> rois[k].Some? ==> IsRect(rois[k].value)
      modifies this`ma
      ensures Valid()
      ensures ma == AssignEach(old(ma), rois).0 && err == AssignEach(old(ma), rois).1
      ensures err.None? ==> Mirrors(ma, rois)
    {
      var assignment := AssignEach(ma, rois);
      forall k | 0 <= k < 4
        ensures assignment.0[k].window == maWindow
        ensures assignment.0[k].value.Some? ==> IsRect(assignment.0[k].value.value)
        ensures assignment.1.None? ==>
          (assignment.0[k].value.None? <==> rois[k].None?) &&
          (assignment.0[k].value.Some? ==> SameShape(assignment.0[k].value.value, rois[k].value))
      {
        if assignment.0[k] != ma[k] || assignment.1.None? {
          AssignMirrors(ma[k], rois[k], assignment.0[k]);
        }
      }
      ma := assignment.0;
      err := assignment.1;
    }

    /** The on and off averages of each region take the on and off regions
        in turn, up to the first refusal; afterwards they mirror the main
        averages. */
    method AssignPumpProbe(input: TrainInput) returns (err: Option<Error>)
      requires Valid() && WellFormed(input) && input.on.Some? && Mirrors(ma, input.rois)
      modifies this`maOn, this`maOff
      ensures Valid()
      ensures var r := AssignOnOff(old(maOn), old(maOff), input.on.value, input.off);
        maOn == r.0 && maOff == r.1 && err == r.2
      ensures err.None? ==> Aligned()
    {
      var onOff := AssignOnOff(maOn, maOff, input.on.value, input.off);
      forall k | 0 <= k < 4
        ensures onOff.0[k].window == maWindow && onOff.1[k].window == maWindow
        ensures onOff.2.None? ==> OnOffLike(onOff.0[k].value, onOff.1[k].value, ma[k].value)
      {
        if onOff.2.None? {
          AssignMirrors(maOn[k], input.on.value[k], onOff.0[k]);
          AssignMirrors(maOff[k], input.off[k], onOff.1[k]);
          if ma[k].value.Some? {
            ShapeThrough(onOff.0[k].value.value, input.on.value[k].value, input.rois[k].value, ma[k].value.value);
            ShapeThrough(onOff.1[k].value.value, input.off[k].value, input.rois[k].value, ma[k].value.value);
          }
        }
      }
      maOn, maOff := onOff.0, onOff.1;
      err := onOff.2;
    }

    /** The main part of a train: the four main averages take the regions
        of the masked mean; normaliser, FOM and projection follow. The first
        error stops the train; the fields written before it stay written. */
    method ProcessMain(input: TrainInput, f: Foreign, out: TrainRoiOut) returns (roi: TrainRoiOut, err: Option<Error>)
      requires Valid() && WellFormed(input)
      modifies this`ma
      ensures Valid()
      ensures (ma, roi, err) == MainPart(RoiConfig(fomCombo, fomType, normCombo, normType, projCombo, projDirect), old(ma), input, f, out)
      ensures AssignEach(old(ma), input.rois).1.None? ==> Mirrors(ma, input.rois)
    {
      roi := out;
      err := AssignMain(input.rois);
      if err.Some? {
        return;
      }
      var n := ProcessNorm(f.red, roi);
      if n.Fail? {
        return roi, Some(n.error);
      }
      roi := n.value;
      var fo := ProcessFom(f.red, roi);
      if fo.Fail? {
        return roi, Some(fo.error);
      }
      roi := fo.value;
      var pr := ProcessProj(f, roi);
      if pr.Fail? {
        return roi, Some(pr.error);
      }
      roi := pr.value;
    }

    /** The pump-probe part of a train: the on / off averages take their
        regions and, unless the pump-probe analysis is undefined, the
        pump-probe normalisers follow, then the pump-probe FOM (ROI FOM
        analysis) or projection (ROI projection analysis). */
    method ProcessPumpProbe(input: TrainInput, f: Foreign, pp: PpRoiOut) returns (ppOut: PpRoiOut, err: Option<Error>)
      requires Valid() && WellFormed(input) && input.on.Some? && Mirrors(ma, input.rois)
      modifies this`maOn, this`maOff
      ensures Valid()
      ensures (maOn, maOff, ppOut, err) ==
        PpPart(RoiConfig(fomCombo, fomType, normCombo, normType, projCombo, projDirect), ma, old(maOn), old(maOff), input, f, pp)
      ensures AssignOnOff(old(maOn), old(maOff), input.on.value, input.off).2.None? ==> Aligned()
    {
      ppOut := pp;
      err := AssignPumpProbe(input);
      if err.Some? || input.ppAnalysis == Undefined {
        return;
      }
      var pn := ProcessNormPumpProbe(f.red, ppOut);
      if pn.Fail? {
        return ppOut, Some(pn.error);
      }
      ppOut := pn.value;
      if input.ppAnalysis == RoiFom {
        var pf := ProcessFomPumpProbe(f.red, ppOut);
        if pf.Fail? {
          return ppOut, Some(pf.error);
        }
        ppOut := pf.value;
      } else if input.ppAnalysis == RoiProj {
        var pj := ProcessProjPumpProbe(f, input.absDifference, ppOut);
        if pj.Fail? {
          return ppOut, Some(pj.error);
        }
        ppOut := pj.value;
      }
    }

    /** One train: the main part, then, when the train has on / off images
        and the main part raised nothing, the pump-probe part. */
    method Process(input: TrainInput, f: Foreign, out: TrainRoiOut, pp: PpRoiOut)
      returns (roi: TrainRoiOut, ppOut: PpRoiOut, err: Option<Error>)
      requires Valid() && WellFormed(input)
      modifies this`ma, this`maOn, this`maOff
      ensures Valid()
      ensures (ma, maOn, maOff, roi, ppOut, err) ==
        TrainSteps(RoiConfig(fomCombo, fomType, normCombo, normType, projCombo, projDirect), old(ma), old(maOn), old(maOff), input, f, out, pp)
    {
      ppOut := pp;
      roi, err := ProcessMain(input, f, out);
      if err.Some? || input.on.None? {
        return;
      }
      ppOut, err := ProcessPumpProbe(input, f, pp);
    }
  }

  /** Averages holding a value exactly where a region is present, of that
      region's shape. */
  ghost predicate Mirrors(mas: seq<MovingAverage>, rois: seq<Option<Image>>) {
    |mas| == |rois| &&
    forall k :: 0 <= k < |mas| ==>
      (mas[k].value.None? <==> rois[k].None?) &&
      (mas[k].value.Some? ==> SameShape(mas[k].value.value, rois[k].value))
  }

  /** Shapes carry over: `x` shaped like `s`, `s` like `m`, and `y` like `m`
      give `x` shaped like `y`. */
  lemma ShapeThrough(x: Image, s: Image, m: Image, y: Image)
    requires SameShape(x, s) && SameShape(s, m) && SameShape(y, m)
    ensures SameShape(x, y)
  {
  }
}
