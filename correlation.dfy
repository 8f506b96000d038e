/** The correlation processor: keeps the history of (correlator value, FOM)
    pairs of one correlation plot, rebuilding or resetting that history when
    its configuration changes, and (for the first plot only) a separate
    pump-probe history of (train ID, pump-probe FOM). */
module Correlation {
  import opened Common
  import opened PairSequences

  /** 10 pulses per train, 60 seconds, 5 minutes. */
  const MaxPoints: nat := 10 * 60 * 5

  /** The configuration `update` reads for this plot: the analysis type, the
      correlator source, the binning resolution and whether the one-shot
      `reset{idx}` key is present. */
  datatype Config = Config(analysisType: AnalysisType, source: string, resolution: real, resetRequested: bool)

  /** What `process` reads from one train: the pump-probe analysis type,
      reset flag and FOM, the ROI, ROI-projection and azimuthal-integration
      FOMs, and the correlator value fetched from the train's slow data
      (`None` when it is not available). */
  datatype TrainData = TrainData(
    tid: int,
    ppAnalysisType: AnalysisType,
    ppReset: bool,
    ppFom: Option<real>,
    roiFom: Option<real>,
    roiFomSlave: Option<real>,
    roiProjFom: Option<real>,
    aiFom: Option<real>,
    correlator: Option<real>)

  /** `processed.corr[idx - 1]`: both histories (whose `data()` the plot
      shows), the source and the resolution. */
  datatype CorrOutput = CorrOutput(history: PairSequence, slaveHistory: PairSequence, source: string, resolution: real)

  /** How a call ended: normally, with an error that was logged, or with an
      exception that propagates to the caller. */
  datatype Status = Done | Logged(logged: Error) | Raised(raised: Error)

  /** The analysis types `_update_data_point` knows. */
  predicate KnownAnalysis(t: AnalysisType) {
    t == PumpProbe || t == RoiFom || t == RoiProj || t == AzimuthalInteg
  }

  /** The FOM correlated for each known analysis type. */
  function SelectFom(t: AnalysisType, data: TrainData): Option<real>
    requires KnownAnalysis(t)
  {
    match t
    case PumpProbe => data.ppFom
    case RoiFom => data.roiFom
    case RoiProj => data.roiProjFom
    case AzimuthalInteg => data.aiFom
  }

  /** The pump-probe grace counter: a present FOM clears it; a missing one
      increments it, and the second consecutive miss clears it again and
      raises. Returns the new counter and whether an error is raised. */
  function GraceStep(flag: nat, present: bool): (r: (nat, bool))
    ensures present ==> r == (0, false)
    ensures flag <= 1 ==> r.0 <= 1
    ensures !present && flag == 0 ==> r == (1, false)
    ensures !present && flag == 1 ==> r == (0, true)
  {
    if present then (0, false)
    else if flag + 1 == 2 then (0, true)
    else (flag + 1, false)
  }

  /** The counter after a run of trains starting from 0, and whether the
      last train raised. */
  function GraceRun(presents: seq<bool>): (nat, bool) {
    if presents == [] then (0, false)
    else GraceStep(GraceRun(presents[..|presents| - 1]).0, presents[|presents| - 1])
  }

  /** The number of trailing trains without a pump-probe FOM: the last `n`
      trains have none, and the train before them, if any, has one. */
  function TrailingMisses(presents: seq<bool>): (n: nat)
    ensures n <= |presents|
    ensures forall i :: |presents| - n <= i < |presents| ==> !presents[i]
    ensures n < |presents| ==> presents[|presents| - n - 1]
  {
    if presents == [] || presents[|presents| - 1] then 0
    else TrailingMisses(presents[..|presents| - 1]) + 1
  }

  /** The counter is the parity of the current run of misses, and a train
      raises exactly when it ends a run of misses of even length: when FOMs
      only arrive every other train nothing is raised, and every second
      consecutive miss is. */
  lemma {:induction false} GraceCounterParity(presents: seq<bool>)
    ensures GraceRun(presents).0 == TrailingMisses(presents) % 2
    ensures GraceRun(presents).1 <==>
      presents != [] && !presents[|presents| - 1] && TrailingMisses(presents) % 2 == 0
  {
    if presents != [] {
      GraceCounterParity(presents[..|presents| - 1]);
    }
  }

  /** Present, missing, present, missing, missing: only the last train
      raises. */
  lemma GraceScenario()
    ensures !GraceRun([true, false]).1 && !GraceRun([true, false, true, false]).1
    ensures GraceRun([true, false, true, false, false]) == (0, true)
  {
    assert [true, false, true, false, false][..4] == [true, false, true, false];
    assert [true, false, true, false][..3] == [true, false, true];
    assert [true, false, true][..2] == [true, false];
    assert [true, false][..1] == [true];
  }

  /** The main history after `_update_data_point`: a pair is appended only
      when the analysis type is known, its FOM is present and the correlator
      value is present. */
  function AfterPoint(t: AnalysisType, data: TrainData, h: PairSequence): PairSequence
  {
    if KnownAnalysis(t) && SelectFom(t, data).Some? && data.correlator.Some? then
      Append(h, Pair(data.correlator.value, SelectFom(t, data).value))
    else h
  }

  /** The slave history after `_update_data_point`: only ROI-FOM analysis
      has a slave FOM, and its pair is appended when the main pair is and
      the slave FOM is present. */
  function AfterSlavePoint(t: AnalysisType, data: TrainData, h: PairSequence): PairSequence
  {
    if t == RoiFom && data.roiFom.Some? && data.roiFomSlave.Some? && data.correlator.Some? then
      Append(h, Pair(data.correlator.value, data.roiFomSlave.value))
    else h
  }

  /** The error `_update_data_point` raises, if any. */
  function PointError(t: AnalysisType, flag: nat, data: TrainData): (r: Option<Error>)
    ensures !KnownAnalysis(t) ==> r == Some(UnknownParameterError)
    ensures KnownAnalysis(t) && t != PumpProbe ==> (r.Some? <==> SelectFom(t, data).None?)
    ensures t == PumpProbe ==> (r.Some? <==> GraceStep(flag, data.ppFom.Some?).1)
    ensures KnownAnalysis(t) && r.Some? ==> r == Some(ProcessingError)
  {
    if !KnownAnalysis(t) then Some(UnknownParameterError)
    else if t == PumpProbe then (if GraceStep(flag, data.ppFom.Some?).1 then Some(ProcessingError) else None)
    else if SelectFom(t, data).None? then Some(ProcessingError)
    else None
  }

  class CorrelationProcessor {
    const idx: int
    var analysisType: AnalysisType
    var ppAnalysisType: AnalysisType
    var correlation: PairSequence
    var correlationSlave: PairSequence
    var source: string
    var resolution: real
    var reset: bool
    var correlationPp: PairSequence
    var ppFailFlag: nat

    /** A zero resolution goes with simple histories, a nonzero one with
        binned histories (built at some nonzero resolution); every history
        has capacity `MaxPoints`, the pump-probe one is simple, and the
        grace counter never reaches 2 between trains. */
    ghost predicate Valid()
      reads this
    {
      (correlation.Simple? <==> resolution == 0.0) &&
      (correlationSlave.Simple? <==> resolution == 0.0) &&
      (correlation.Binned? ==> correlation.resolution != 0.0) &&
      (correlationSlave.Binned? ==> correlationSlave.resolution != 0.0) &&
      correlation.maxLen == MaxPoints && correlationSlave.maxLen == MaxPoints &&
      correlationPp.Simple? && correlationPp.maxLen == MaxPoints &&
      Bounded(correlation) && Bounded(correlationSlave) && Bounded(correlationPp) &&
      ppFailFlag <= 1
    }

    constructor(index: int)
      ensures Valid()
      ensures idx == index && analysisType == Undefined && ppAnalysisType == Undefined
      ensures correlation == NewSimple(MaxPoints) && correlationSlave == NewSimple(MaxPoints)
      ensures source == "" && resolution == 0.0 && !reset
      ensures correlationPp == NewSimple(MaxPoints) && ppFailFlag == 0
    {
      idx := index;
      analysisType := Undefined;
      ppAnalysisType := Undefined;
      correlation := NewSimple(MaxPoints);
      correlationSlave := NewSimple(MaxPoints);
      source := "";
      resolution := 0.0;
      reset := false;
      correlationPp := NewSimple(MaxPoints);
      ppFailFlag := 0;
    }

    /** `update`: a changed analysis type or source, a change between two
        nonzero resolutions, or the reset key set the reset flag. A change
        from a nonzero resolution to 0 replaces both histories by empty
        simple ones, and a change from 0 to a nonzero resolution by empty
        binned ones; neither sets the flag. Between two nonzero resolutions
        the histories are kept, so they keep binning at the resolution they
        were built with. The reset key is consumed: `remaining` is the
        store without it. */
    method Update(cfg: Config) returns (remaining: Config)
      requires Valid()
      modifies this
      ensures Valid()
      ensures analysisType == cfg.analysisType && source == cfg.source && resolution == cfg.resolution
      ensures reset <==>
        old(reset) || old(analysisType) != cfg.analysisType || old(source) != cfg.source ||
        (old(resolution) != 0.0 && cfg.resolution != 0.0 && old(resolution) != cfg.resolution) ||
        cfg.resetRequested
      ensures old(resolution) != 0.0 && cfg.resolution == 0.0 ==>
        correlation == NewSimple(MaxPoints) && correlationSlave == NewSimple(MaxPoints)
      ensures old(resolution) == 0.0 && cfg.resolution != 0.0 ==>
        correlation == NewBinned(cfg.resolution, MaxPoints) && correlationSlave == NewBinned(cfg.resolution, MaxPoints)
      ensures (old(resolution) == 0.0) == (cfg.resolution == 0.0) ==>
        correlation == old(correlation) && correlationSlave == old(correlationSlave)
      ensures ppAnalysisType == old(ppAnalysisType) && correlationPp == old(correlationPp) && ppFailFlag == old(ppFailFlag)
      ensures remaining == cfg.(resetRequested := false)
    {
      if analysisType != cfg.analysisType {
        analysisType := cfg.analysisType;
        reset := true;
      }

      if source != cfg.source {
        source := cfg.source;
        reset := true;
      }

      if resolution != 0.0 && cfg.resolution == 0.0 {
        correlation := NewSimple(MaxPoints);
        correlationSlave := NewSimple(MaxPoints);
      } else if resolution == 0.0 && cfg.resolution != 0.0 {
        correlation := NewBinned(cfg.resolution, MaxPoints);
        correlationSlave := NewBinned(cfg.resolution, MaxPoints);
      } else if resolution != cfg.resolution {
        reset := true;
      }
      resolution := cfg.resolution;

      remaining := cfg;
      if cfg.resetRequested {
        remaining := cfg.(resetRequested := false);
        reset := true;
      }
    }

    /** `_update_data_point`: picks the FOM of the analysis type and appends
        `(correlator, fom)` (and the slave pair) when the values are
        present; returns the error it raises. For pump-probe analysis a
        missing FOM goes through the grace counter and appends nothing. */
    method UpdateDataPoint(data: TrainData) returns (err: Option<Error>)
      requires Valid()
      modifies this
      ensures Valid()
      ensures err == PointError(analysisType, old(ppFailFlag), data)
      ensures ppFailFlag == if analysisType == PumpProbe then GraceStep(old(ppFailFlag), data.ppFom.Some?).0 else old(ppFailFlag)
      ensures correlation == AfterPoint(analysisType, data, old(correlation))
      ensures correlationSlave == AfterSlavePoint(analysisType, data, old(correlationSlave))
      ensures analysisType == old(analysisType) && ppAnalysisType == old(ppAnalysisType)
      ensures source == old(source) && resolution == old(resolution) && reset == old(reset)
      ensures correlationPp == old(correlationPp)
    {
      var fomSlave: Option<real> := None;
      var fom: real;
      if analysisType == PumpProbe {
        if data.ppFom.None? {
          var flag := ppFailFlag + 1;
          if flag == 2 {
            ppFailFlag := 0;
            return Some(ProcessingError);
          }
          ppFailFlag := flag;
          return None;
        }
        ppFailFlag := 0;
        fom := data.ppFom.value;
      } else if analysisType == RoiFom {
        fomSlave := data.roiFomSlave;
        if data.roiFom.None? {
          return Some(ProcessingError);
        }
        fom := data.roiFom.value;
      } else if analysisType == RoiProj {
        if data.roiProjFom.None? {
          return Some(ProcessingError);
        }
        fom := data.roiProjFom.value;
      } else if analysisType == AzimuthalInteg {
        if data.aiFom.None? {
          return Some(ProcessingError);
        }
        fom := data.aiFom.value;
      } else {
        return Some(UnknownParameterError);
      }
      assert SelectFom(analysisType, data) == Some(fom);

      if data.correlator.Some? {
        var v := data.correlator.value;
        var slave := if fomSlave.Some? then Append(correlationSlave, Pair(v, fomSlave.value)) else correlationSlave;
        correlation, correlationSlave := Append(correlation, Pair(v, fom)), slave;
      }
      return None;
    }

    /** `_process_general`: nothing at all for an undefined analysis type.
        Otherwise a change of the pump-probe analysis type (in pump-probe
        analysis) requests a reset, a pending reset empties both histories
        and clears the flag before the new point is added, a processing
        error is logged, and the output record is written; an unknown
        analysis type propagates and writes no output. */
    method ProcessGeneral(data: TrainData) returns (status: Status, out: Option<CorrOutput>)
      requires Valid()
      modifies this
      ensures Valid()
      ensures old(analysisType) == Undefined ==>
        status == Done && out.None? && unchanged(this)
      ensures old(analysisType) != Undefined ==>
        var ppChanged := analysisType == PumpProbe && old(ppAnalysisType) != data.ppAnalysisType;
        var h := if old(reset) || ppChanged then Reset(old(correlation)) else old(correlation);
        var hs := if old(reset) || ppChanged then Reset(old(correlationSlave)) else old(correlationSlave);
        var err := PointError(analysisType, old(ppFailFlag), data);
        !reset &&
        ppAnalysisType == (if ppChanged then data.ppAnalysisType else old(ppAnalysisType)) &&
        correlation == AfterPoint(analysisType, data, h) &&
        correlationSlave == AfterSlavePoint(analysisType, data, hs) &&
        ppFailFlag == (if analysisType == PumpProbe then GraceStep(old(ppFailFlag), data.ppFom.Some?).0 else old(ppFailFlag)) &&
        (err == Some(UnknownParameterError) ==> status == Raised(UnknownParameterError) && out.None?) &&
        (err == Some(ProcessingError) ==> status == Logged(ProcessingError)) &&
        (err.None? ==> status == Done) &&
        (err != Some(UnknownParameterError) ==>
          out == Some(CorrOutput(correlation, correlationSlave, source, resolution)))
      ensures analysisType == old(analysisType) && source == old(source) && resolution == old(resolution)
      ensures correlationPp == old(correlationPp)
    {
      if analysisType == Undefined {
        return Done, None;
      }

      if analysisType == PumpProbe {
        if ppAnalysisType != data.ppAnalysisType {
          reset := true;
          ppAnalysisType := data.ppAnalysisType;
        }
      }

      if reset {
        correlation := Reset(correlation);
        correlationSlave := Reset(correlationSlave);
        reset := false;
      }

      var err := UpdateDataPoint(data);
      if err == Some(UnknownParameterError) {
        return Raised(UnknownParameterError), None;
      }
      status := if err.Some? then Logged(err.value) else Done;
      out := Some(CorrOutput(correlation, correlationSlave, source, resolution));
    }

    /** `_process_pump_probe`: the pump-probe history is emptied on a
        pump-probe reset and gets `(tid, fom)` exactly when the pump-probe
        FOM is present; the output is its `data()`. */
    method ProcessPumpProbe(data: TrainData) returns (ppOut: (seq<real>, seq<real>))
      requires Valid()
      modifies this
      ensures Valid()
      ensures var h := if data.ppReset then Reset(old(correlationPp)) else old(correlationPp);
        correlationPp == (if data.ppFom.Some? then Append(h, Pair(data.tid as real, data.ppFom.value)) else h)
      ensures ppOut == Data(correlationPp)
      ensures analysisType == old(analysisType) && ppAnalysisType == old(ppAnalysisType)
      ensures correlation == old(correlation) && correlationSlave == old(correlationSlave)
      ensures source == old(source) && resolution == old(resolution) && reset == old(reset)
      ensures ppFailFlag == old(ppFailFlag)
    {
      var h := correlationPp;
      if data.ppReset {
        h := Reset(h);
      }
      if data.ppFom.Some? {
        h := Append(h, Pair(data.tid as real, data.ppFom.value));
      }
      correlationPp := h;
      ppOut := Data(h);
    }

    /** `process`: the general correlation, then, for the first plot only
        and unless an exception propagated, the pump-probe history. */
    method Process(data: TrainData) returns (status: Status, out: Option<CorrOutput>, ppOut: Option<(seq<real>, seq<real>)>)
      requires Valid()
      modifies this
      ensures Valid()
      ensures old(analysisType) == Undefined ==>
        status == Done && out.None? &&
        correlation == old(correlation) && correlationSlave == old(correlationSlave) &&
        reset == old(reset) && ppAnalysisType == old(ppAnalysisType) && ppFailFlag == old(ppFailFlag)
      ensures old(analysisType) != Undefined ==>
        var ppChanged := analysisType == PumpProbe && old(ppAnalysisType) != data.ppAnalysisType;
        var h := if old(reset) || ppChanged then Reset(old(correlation)) else old(correlation);
        var hs := if old(reset) || ppChanged then Reset(old(correlationSlave)) else old(correlationSlave);
        var err := PointError(analysisType, old(ppFailFlag), data);
        !reset &&
        ppAnalysisType == (if ppChanged then data.ppAnalysisType else old(ppAnalysisType)) &&
        correlation == AfterPoint(analysisType, data, h) &&
        correlationSlave == AfterSlavePoint(analysisType, data, hs) &&
        ppFailFlag == (if analysisType == PumpProbe then GraceStep(old(ppFailFlag), data.ppFom.Some?).0 else old(ppFailFlag)) &&
        (err == Some(UnknownParameterError) ==> status == Raised(UnknownParameterError) && out.None?) &&
        (err == Some(ProcessingError) ==> status == Logged(ProcessingError)) &&
        (err.None? ==> status == Done) &&
        (err != Some(UnknownParameterError) ==>
          out == Some(CorrOutput(correlation, correlationSlave, source, resolution)))
      ensures analysisType == old(analysisType) && source == old(source) && resolution == old(resolution)
      ensures status.Raised? ==> status == Raised(UnknownParameterError) && out.None?
      ensures status.Raised? || idx != 1 ==> ppOut.None? && correlationPp == old(correlationPp)
      ensures !status.Raised? && idx == 1 ==>
        var h := if data.ppReset then Reset(old(correlationPp)) else old(correlationPp);
        correlationPp == (if data.ppFom.Some? then Append(h, Pair(data.tid as real, data.ppFom.value)) else h) &&
        ppOut == Some(Data(correlationPp))
    {
      status, out := ProcessGeneral(data);
      if status.Raised? {
        return status, out, None;
      }
      if idx == 1 {
        var pp := ProcessPumpProbe(data);
        ppOut := Some(pp);
      } else {
        ppOut := None;
      }
    }
  }
}
