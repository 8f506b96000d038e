/** The Gotthard detector processor: each train's `(pulses, pixels)` ADC
    array is checked, then either recorded into the dark average or
    blended into the raw average and, when asked for, offset by the mean
    dark pulse. The pulses shown are those a Python slice selects. */
module Gotthard {
  import opened Common
  import opened Pixels
  import opened MovingAverages
  import opened PySlice

  /** The largest 32-bit signed integer: the dark average's window, which
      makes it a cumulative mean. */
  const MaxInt32: int := 2147483647

  /** The `data.adc` property of a train: missing, or an array with `ndim`
      dimensions whose rows (pulses) are given when it is 2-D. */
  datatype Property = Absent | Present(ndim: nat, rows: Image)

  /** Every row has `width` pixels. */
  predicate RowsOf(img: Image, width: nat) {
    forall i :: 0 <= i < |img| ==> |img[i]| == width
  }

  /** Pixel `c` of every pulse. */
  function PixelColumn(rows: Image, width: nat, c: nat): (r: seq<Pixel>)
    requires RowsOf(rows, width) && c < width
    ensures |r| == |rows| && forall i :: 0 <= i < |rows| ==> r[i] == rows[i][c]
  {
    seq(|rows|, i requires 0 <= i < |rows| => rows[i][c])
  }

  /** `np.mean(rows, axis=0)`: the mean over the pulses, pixel by pixel; a
      NaN pixel in any pulse makes that pixel's mean NaN, and an empty
      selection gives NaN everywhere. */
  function PulseMean(rows: Image, width: nat): (r: seq<Pixel>)
    requires RowsOf(rows, width)
    ensures |r| == width
    ensures forall c :: 0 <= c < width ==>
      (r[c].NaN? <==> |rows| == 0 || exists i :: 0 <= i < |rows| && rows[i][c].NaN?)
    ensures forall c :: 0 <= c < width && r[c].Val? ==>
      r[c].v == RealSum(PixelColumn(rows, width, c)) / |rows| as real
  {
    var m := seq(width, c requires 0 <= c < width =>
      if |rows| == 0 then NaN else DivCount(Sum(PixelColumn(rows, width, c)), |rows|));
    assert forall c :: 0 <= c < width ==> m[c].NaN? == (|rows| == 0 || Sum(PixelColumn(rows, width, c)).NaN?);
    forall c | 0 <= c < width
      ensures m[c].NaN? <==> |rows| == 0 || exists i :: 0 <= i < |rows| && rows[i][c].NaN?
      ensures m[c].Val? ==> m[c].v == RealSum(PixelColumn(rows, width, c)) / |rows| as real
    {
      var col := PixelColumn(rows, width, c);
      SumNaNIff(col);
      assert (exists i :: 0 <= i < |col| && col[i].NaN?) <==> (exists i :: 0 <= i < |rows| && rows[i][c].NaN?);
    }
    m
  }

  /** The dark offset subtracted from every pulse (numpy broadcasting of a
      `(pixels,)` array over `(pulses, pixels)`). */
  function SubtractRows(rows: Image, offset: seq<Pixel>): (r: Image)
    requires RowsOf(rows, |offset|)
    ensures |r| == |rows| && RowsOf(r, |offset|)
    ensures forall i, c :: 0 <= i < |rows| && 0 <= c < |offset| ==> r[i][c] == Sub(rows[i][c], offset[c])
  {
    seq(|rows|, i requires 0 <= i < |rows| =>
      seq(|offset|, c requires 0 <= c < |offset| => Sub(rows[i][c], offset[c])))
  }

  /** The pulse of interest lies among the pulses the slice selects. */
  predicate PoiInRange(s: Slice, poi: int, pulses: nat) {
    Indices(s, pulses).Some? && poi < |Indices(s, pulses).value|
  }

  /** With 4 pulses, index 3 is accepted under `slice(None, None)` and
      refused under `slice(None, None, 2)`. */
  lemma PoiScenario()
    ensures PoiInRange(All, 3, 4)
    ensures !PoiInRange(Slice(None, None, Some(2)), 3, 4)
  {
    FourPulsesScenario();
  }

  /** What a train produces: the pulse of interest, the selected pulses of
      the train and of the average, and their means over the pulses. */
  datatype GotthardOut = GotthardOut(
    poiIndex: int,
    displayed: Image,
    displayedMa: Image,
    mean: seq<Pixel>,
    meanMa: seq<Pixel>)

  /** The selected pulses of a rectangular array. */
  function Selected(rows: Image, s: Slice): (r: Image)
    requires Indices(s, |rows|).Some? && RowsOf(rows, Width(rows))
    ensures RowsOf(r, Width(rows))
    ensures |r| == |ValidIndices(s, |rows|)|
    ensures forall t :: 0 <= t < |r| ==> r[t] == rows[ValidIndices(s, |rows|)[t]]
  {
    var idx := ValidIndices(s, |rows|);
    var r := Select(rows, idx);
    assert forall t :: 0 <= t < |r| ==> |r[t]| == |rows[idx[t]]|;
    r
  }

  /** A rectangular image is made of rows of its first row's width. */
  lemma RectRows(img: Image)
    requires IsRect(img)
    ensures RowsOf(img, Width(img))
  {
  }

  /** An image shaped like rows of width `w` has rows of width `w`. */
  lemma ShapedRows(a: Image, b: Image, w: nat)
    requires SameShape(a, b) && RowsOf(b, w)
    ensures RowsOf(a, w) && Width(a) == Width(b)
  {
    if b != [] {
      assert |a[0]| == |b[0]|;
    }
  }

  class GotthardProcessor {
    var pulseSlicer: Slice
    var poiIndex: int
    /** The moving average of the raw trains. */
    var rawMa: MovingAverage
    /** The average of the dark trains (window MaxInt32). */
    var darkMa: MovingAverage
    /** The mean dark pulse used for the offset. */
    var darkMeanMa: Option<seq<Pixel>>
    var recordingDark: bool
    var subtractDark: bool

    /** The dark average keeps its cumulative window; averages hold
        rectangular arrays; a mean dark pulse exists only with a dark
        average. */
    ghost predicate Valid()
      reads this
    {
      darkMa.window == MaxInt32 &&
      MovingAverages.Valid(rawMa) && MovingAverages.Valid(darkMa) &&
      (rawMa.value.Some? ==> IsRect(rawMa.value.value)) &&
      (darkMa.value.Some? ==> IsRect(darkMa.value.value)) &&
      (darkMa.value.None? ==> darkMeanMa.None?)
    }

    constructor()
      ensures Valid()
      ensures pulseSlicer == All && poiIndex == 0
      ensures rawMa == Empty(1) && darkMa == Empty(MaxInt32) && darkMeanMa.None?
      ensures !recordingDark && !subtractDark
    {
      pulseSlicer := All;
      poiIndex := 0;
      rawMa := Empty(1);
      darkMa := Empty(MaxInt32);
      darkMeanMa := None;
      recordingDark := false;
      subtractDark := false;
    }

    /** A new window for the raw average; a window below 1 is refused. */
    method SetMaWindow(v: int) returns (err: Option<Error>)
      requires Valid()
      modifies this`rawMa
      ensures Valid()
      ensures err.Some? <==> v < 1
      ensures err.Some? ==> err.value == ValueError && rawMa == old(rawMa)
      ensures err.None? ==> rawMa == old(rawMa).(window := v)
    {
      var w := SetWindow(rawMa, v);
      if w.Fail? {
        return Some(w.error);
      }
      rawMa := w.value;
      err := None;
    }

    method OnPoiIndexChanged(v: int)
      modifies this`poiIndex
      ensures poiIndex == v
    {
      poiIndex := v;
    }

    /** A new pulse slicer; the mean dark pulse is recomputed from the
        dark average when there is one (a slice with step 0 then raises),
        and left as it is (`None`) otherwise. */
    method OnPulseSlicerChanged(s: Slice) returns (err: Option<Error>)
      requires Valid()
      modifies this`pulseSlicer, this`darkMeanMa
      ensures Valid()
      ensures pulseSlicer == s
      ensures darkMa.value.None? ==> darkMeanMa.None? && err.None?
      ensures darkMa.value.Some? && s.step == Some(0) ==> err == Some(ValueError) && darkMeanMa == old(darkMeanMa)
      ensures darkMa.value.Some? && s.step != Some(0) ==>
        var d := darkMa.value.value;
        RowsOf(d, Width(d)) && err.None? && darkMeanMa == Some(PulseMean(Selected(d, s), Width(d)))
    {
      pulseSlicer := s;
      err := None;
      if darkMa.value.Some? {
        var d := darkMa.value.value;
        if Indices(s, |d|).None? {
          return Some(ValueError);
        }
        RectRows(d);
        darkMeanMa := Some(PulseMean(Selected(d, s), Width(d)));
      }
    }

    /** Both the dark average and the mean dark pulse are dropped. */
    method OnRemoveDark()
      requires Valid()
      modifies this`darkMa, this`darkMeanMa
      ensures Valid()
      ensures darkMa == Empty(MaxInt32) && darkMeanMa.None?
    {
      darkMa := Delete(darkMa);
      darkMeanMa := None;
    }

    /** One train. A missing property, an array that is not 2-D, a slicer
        with step 0 and a pulse of interest beyond the selected pulses are
        refused before anything changes. While recording dark, the train
        goes into the dark average, the mean dark pulse is recomputed and
        nothing is dark-subtracted. Otherwise the train goes into the raw
        average and both the train and the average are offset by the mean
        dark pulse exactly when subtraction is on and a mean dark pulse
        exists. */
    method Process(prop: Property) returns (r: Outcome<GotthardOut>)
      requires Valid()
      requires prop.Present? && prop.ndim == 2 ==> IsRect(prop.rows)
      modifies this`rawMa, this`darkMa, this`darkMeanMa
      ensures Valid()
      ensures prop.Absent? ==> r == Fail(ProcessingError)
      ensures prop.Present? && prop.ndim != 2 ==> r == Fail(ProcessingError)
      ensures prop.Present? && prop.ndim == 2 && pulseSlicer.step == Some(0) ==> r == Fail(ValueError)
      ensures prop.Present? && prop.ndim == 2 && pulseSlicer.step != Some(0) && !PoiInRange(pulseSlicer, poiIndex, |prop.rows|) ==>
        r == Fail(ProcessingError)
      ensures !(prop.Present? && prop.ndim == 2 && PoiInRange(pulseSlicer, poiIndex, |prop.rows|)) ==>
        rawMa == old(rawMa) && darkMa == old(darkMa) && darkMeanMa == old(darkMeanMa)
      ensures r.Ok? ==>
        prop.Present? && prop.ndim == 2 && PoiInRange(pulseSlicer, poiIndex, |prop.rows|) &&
        r.value.poiIndex == poiIndex &&
        RowsOf(r.value.displayed, Width(prop.rows)) && RowsOf(r.value.displayedMa, Width(prop.rows)) &&
        r.value.mean == PulseMean(r.value.displayed, Width(prop.rows)) &&
        r.value.meanMa == PulseMean(r.value.displayedMa, Width(prop.rows))
      ensures prop.Present? && prop.ndim == 2 && PoiInRange(pulseSlicer, poiIndex, |prop.rows|) && recordingDark ==>
        var a := Assign(old(darkMa), Some(prop.rows));
        rawMa == old(rawMa) &&
        (a.Fail? ==> r == Fail(ShapeMismatchError) && darkMa == old(darkMa) && darkMeanMa == old(darkMeanMa)) &&
        (a.Ok? ==>
          var d := a.value.value.value;
          RowsOf(d, Width(prop.rows)) && |d| == |prop.rows| && RowsOf(prop.rows, Width(prop.rows)) &&
          darkMa == a.value && darkMeanMa == Some(PulseMean(Selected(d, pulseSlicer), Width(prop.rows))) &&
          r.Ok? && r.value.displayed == Selected(prop.rows, pulseSlicer) && r.value.displayedMa == Selected(d, pulseSlicer))
      ensures prop.Present? && prop.ndim == 2 && PoiInRange(pulseSlicer, poiIndex, |prop.rows|) && !recordingDark ==>
        var a := Assign(old(rawMa), Some(prop.rows));
        darkMa == old(darkMa) && darkMeanMa == old(darkMeanMa) &&
        (a.Fail? ==> r == Fail(ShapeMismatchError) && rawMa == old(rawMa)) &&
        (a.Ok? ==>
          var m := a.value.value.value;
          var w := Width(prop.rows);
          RowsOf(m, w) && |m| == |prop.rows| && RowsOf(prop.rows, w) && rawMa == a.value &&
          (subtractDark && darkMeanMa.Some? && |darkMeanMa.value| != w ==> r == Fail(ValueError)) &&
          (subtractDark && darkMeanMa.Some? && |darkMeanMa.value| == w ==>
            r.Ok? &&
            r.value.displayed == SubtractRows(Selected(prop.rows, pulseSlicer), darkMeanMa.value) &&
            r.value.displayedMa == SubtractRows(Selected(m, pulseSlicer), darkMeanMa.value)) &&
          (!(subtractDark && darkMeanMa.Some?) ==>
            r.Ok? && r.value.displayed == Selected(prop.rows, pulseSlicer) && r.value.displayedMa == Selected(m, pulseSlicer)))
    {
      if prop.Absent? {
        return Fail(ProcessingError);
      }
      var raw := prop.rows;
      if prop.ndim != 2 {
        return Fail(ProcessingError);
      }
      var idx := Indices(pulseSlicer, |raw|);
      if idx.None? {
        return Fail(ValueError);
      }
      if poiIndex >= |idx.value| {
        return Fail(ProcessingError);
      }
      var w := Width(raw);
      RectRows(raw);
      var displayed, displayedMa;
      if recordingDark {
        var a := Assign(darkMa, Some(raw));
        if a.Fail? {
          return Fail(a.error);
        }
        darkMa := a.value;
        var d := darkMa.value.value;
        ShapedRows(d, raw, w);
        SameShapeRect(d, raw);
        darkMeanMa := Some(PulseMean(Selected(d, pulseSlicer), w));
        displayed := Selected(raw, pulseSlicer);
        displayedMa := Selected(d, pulseSlicer);
      } else {
        var a := Assign(rawMa, Some(raw));
        if a.Fail? {
          return Fail(a.error);
        }
        rawMa := a.value;
        var m := rawMa.value.value;
        ShapedRows(m, raw, w);
        SameShapeRect(m, raw);
        if subtractDark && darkMeanMa.Some? {
          var offset := darkMeanMa.value;
          if |offset| != w {
            return Fail(ValueError);
          }
          displayed := SubtractRows(Selected(raw, pulseSlicer), offset);
          displayedMa := SubtractRows(Selected(m, pulseSlicer), offset);
        } else {
          displayed := Selected(raw, pulseSlicer);
          displayedMa := Selected(m, pulseSlicer);
        }
      }
      r := Ok(GotthardOut(poiIndex, displayed, displayedMa, PulseMean(displayed, w), PulseMean(displayedMa, w)));
    }
  }

  /** Every pixel of an image multiplied by `k`. */
  function Scaled(img: Image, k: real): (r: Image)
    requires forall i, j :: 0 <= i < |img| && 0 <= j < |img[i]| ==> img[i][j].Val?
    ensures SameShape(r, img)
    ensures forall i, j :: 0 <= i < |img| && 0 <= j < |img[i]| ==> r[i][j] == Val(k * img[i][j].v)
  {
    var r := seq(|img|, i requires 0 <= i < |img| =>
      seq(|img[i]|, j requires 0 <= j < |img[i]| => Val(k * img[i][j].v)));
    assert forall i :: 0 <= i < |img| ==> |r[i]| == |img[i]|;
    assert forall i, j :: 0 <= i < |img| && 0 <= j < |img[i]| ==> r[i][j] == Val(k * img[i][j].v);
    r
  }

  /** The dark average is a cumulative mean: recording `adc` and then
      `2 * adc` leaves `1.5 * adc`. */
  lemma DarkAverageScenario(adc: Image)
    requires forall i, j :: 0 <= i < |adc| && 0 <= j < |adc[i]| ==> adc[i][j].Val?
    ensures var first := Assign(Empty(MaxInt32), Some(adc));
      first.Ok? &&
      var second := Assign(first.value, Some(Scaled(adc, 2.0)));
      second.Ok? && second.value.value == Some(Scaled(adc, 1.5)) && second.value.count == 2
  {
    var twice := Scaled(adc, 2.0);
    var first := Assign(Empty(MaxInt32), Some(adc));
    assert first.value == MovingAverage(MaxInt32, 1, Some(adc));
    var b := BlendImage(adc, twice, 2);
    var expected := Scaled(adc, 1.5);
    assert |b| == |expected|;
    forall i | 0 <= i < |b| ensures b[i] == expected[i] {
      assert |b[i]| == |expected[i]|;
      forall j | 0 <= j < |b[i]| ensures b[i][j] == expected[i][j] {
        var x := adc[i][j].v;
        assert b[i][j] == Blend(Val(x), Val(2.0 * x), 2);
        assert x + (2.0 * x - x) / 2.0 == 1.5 * x;
      }
    }
    assert b == expected;
  }
}
