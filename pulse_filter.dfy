/** The pulse filter: for pulse-resolved ROI analysis it lists the pulses
    whose figure of merit lies outside the accepted range, and the
    downstream processors drop them. */
module PulseFilter {
  import opened Common
  import opened Pixels

  /** The pulse-resolved ROI results of one train (`None` when not
      computed). */
  datatype PulseData = PulseData(roi1Foms: Option<seq<Pixel>>, roi2Foms: Option<seq<Pixel>>)

  /** What `process` does to `processed.image.dropped_indices`. */
  datatype FilterResult =
    | Untouched
    | Dropped(indices: seq<nat>)
    | Raised(error: Error)

  predicate StrictlyIncreasing(d: seq<nat>) {
    forall a, b :: 0 <= a < b < |d| ==> d[a] < d[b]
  }

  /** `d` is the ascending list of the pulses whose FOM is outside
      `[lb, ub]`. */
  predicate DropList(d: seq<nat>, foms: seq<Pixel>, lb: Ext, ub: Ext) {
    StrictlyIncreasing(d) &&
    (forall t :: 0 <= t < |d| ==> d[t] < |foms| && OutOfRange(foms[d[t]], lb, ub)) &&
    (forall i :: 0 <= i < |foms| && OutOfRange(foms[i], lb, ub) ==> i in d)
  }

  /** There is only one such list. */
  lemma {:induction false} DropListUnique(d1: seq<nat>, d2: seq<nat>, foms: seq<Pixel>, lb: Ext, ub: Ext)
    requires DropList(d1, foms, lb, ub) && DropList(d2, foms, lb, ub)
    ensures d1 == d2
  {
    AscendingUnique(d1, d2);
  }

  /** Two strictly increasing lists with the same elements are equal. */
  lemma {:induction false} AscendingUnique(d1: seq<nat>, d2: seq<nat>)
    requires StrictlyIncreasing(d1) && StrictlyIncreasing(d2)
    requires forall i :: i in d1 <==> i in d2
    ensures d1 == d2
  {
    if d1 != [] {
      assert d1[0] in d2;
    }
    if d2 != [] {
      assert d2[0] in d1;
    }
    if d1 != [] && d2 != [] {
      // the first elements are both the least element
      FirstIsLeast(d1);
      FirstIsLeast(d2);
      assert d1[0] == d2[0];
      forall i ensures i in d1[1..] <==> i in d2[1..] {
        if i in d1[1..] {
          assert i in d2 && i != d2[0];
        }
        if i in d2[1..] {
          assert i in d1 && i != d1[0];
        }
      }
      AscendingUnique(d1[1..], d2[1..]);
      assert d1 == [d1[0]] + d1[1..];
      assert d2 == [d2[0]] + d2[1..];
    }
  }

  lemma FirstIsLeast(d: seq<nat>)
    requires StrictlyIncreasing(d) && d != []
    ensures forall x :: x in d ==> d[0] <= x
    ensures forall x :: x in d[1..] ==> d[0] < x
  {
  }

  /** Every dropped index is the index of a pulse. */
  lemma DroppedAreValidPulses(d: seq<nat>, foms: seq<Pixel>, lb: Ext, ub: Ext)
    requires DropList(d, foms, lb, ub)
    ensures forall t :: 0 <= t < |d| ==> d[t] < |foms|
  {
  }

  /** The default range `(-inf, inf)` drops nothing. */
  lemma DefaultRangeDropsNothing(d: seq<nat>, foms: seq<Pixel>)
    requires DropList(d, foms, NegInf, PosInf)
    ensures d == []
  {
    assert DropList([], foms, NegInf, PosInf);
    DropListUnique(d, [], foms, NegInf, PosInf);
  }

  /** FOMs [1, 2, 3, 4] with the range [0, 2.5] drop pulses 2 and 3; FOMs
      [4, 5, 6, 7] drop all four. */
  lemma RangeScenarios(d1: seq<nat>, d2: seq<nat>)
    requires DropList(d1, [Val(1.0), Val(2.0), Val(3.0), Val(4.0)], Finite(0.0), Finite(2.5))
    requires DropList(d2, [Val(4.0), Val(5.0), Val(6.0), Val(7.0)], Finite(0.0), Finite(2.5))
    ensures d1 == [2, 3]
    ensures d2 == [0, 1, 2, 3]
  {
    var f1 := [Val(1.0), Val(2.0), Val(3.0), Val(4.0)];
    var f2 := [Val(4.0), Val(5.0), Val(6.0), Val(7.0)];
    assert DropList([2, 3], f1, Finite(0.0), Finite(2.5)) by {
      assert !OutOfRange(f1[0], Finite(0.0), Finite(2.5)) && !OutOfRange(f1[1], Finite(0.0), Finite(2.5));
    }
    assert DropList([0, 1, 2, 3], f2, Finite(0.0), Finite(2.5)) by {
      assert forall t :: 0 <= t < 4 ==> [0, 1, 2, 3][t] == t;
    }
    DropListUnique(d1, [2, 3], f1, Finite(0.0), Finite(2.5));
    DropListUnique(d2, [0, 1, 2, 3], f2, Finite(0.0), Finite(2.5));
  }

  class PulseFilterProcessor {
    var analysisType: AnalysisType
    var fomRange: (Ext, Ext)
    var xgmIntensityRange: (Ext, Ext)

    /** Undefined analysis; every FOM is accepted; intensities from 0. */
    constructor()
      ensures analysisType == Undefined
      ensures fomRange == (NegInf, PosInf)
      ensures xgmIntensityRange == (Finite(0.0), PosInf)
    {
      analysisType := Undefined;
      fomRange := (NegInf, PosInf);
      xgmIntensityRange := (Finite(0.0), PosInf);
    }

    /** `update`: takes the configured analysis type and ranges. */
    method Update(analysis: AnalysisType, fom: (Ext, Ext), xgm: (Ext, Ext))
      modifies this
      ensures analysisType == analysis && fomRange == fom && xgmIntensityRange == xgm
    {
      analysisType := analysis;
      fomRange := fom;
      xgmIntensityRange := xgm;
    }

    /** `process`: nothing for an undefined analysis; for ROI1/ROI2
        pulse-resolved analysis the pulses whose FOM lies outside the range,
        or a processing error when that FOM list is missing; any other
        analysis type is not implemented. */
    method Process(data: PulseData) returns (r: FilterResult)
      ensures analysisType == Undefined ==> r == Untouched
      ensures analysisType == Roi1Pulse && data.roi1Foms.None? ==> r == Raised(ProcessingError)
      ensures analysisType == Roi2Pulse && data.roi2Foms.None? ==> r == Raised(ProcessingError)
      ensures analysisType !in {Undefined, Roi1Pulse, Roi2Pulse} ==> r == Raised(NotImplementedError)
      ensures analysisType == Roi1Pulse && data.roi1Foms.Some? ==>
        r.Dropped? && DropList(r.indices, data.roi1Foms.value, fomRange.0, fomRange.1)
      ensures analysisType == Roi2Pulse && data.roi2Foms.Some? ==>
        r.Dropped? && DropList(r.indices, data.roi2Foms.value, fomRange.0, fomRange.1)
    {
      if analysisType == Undefined {
        return Untouched;
      }
      var foms: seq<Pixel>;
      if analysisType == Roi1Pulse {
        if data.roi1Foms.None? {
          return Raised(ProcessingError);
        }
        foms := data.roi1Foms.value;
      } else if analysisType == Roi2Pulse {
        if data.roi2Foms.None? {
          return Raised(ProcessingError);
        }
        foms := data.roi2Foms.value;
      } else {
        return Raised(NotImplementedError);
      }

      var dropped: seq<nat> := [];
      var lb, ub := fomRange.0, fomRange.1;
      var i := 0;
      while i < |foms|
        invariant 0 <= i <= |foms|
        invariant StrictlyIncreasing(dropped)
        invariant forall t :: 0 <= t < |dropped| ==> dropped[t] < i
        invariant forall k: nat :: k in dropped <==> k < i && OutOfRange(foms[k], lb, ub)
      {
        var fom := foms[i];
        if Less(fom, lb) || Greater(fom, ub) {
          dropped := dropped + [i];
        }
        i := i + 1;
      }
      return Dropped(dropped);
    }
  }
}
