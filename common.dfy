/** Types shared by every processor of the pipeline: an optional value (Python's
    `None`), the analysis-type enumeration and the exception kinds the
    processors raise. */
module Common {

  /** `None` in Python, or a value. */
  datatype Option<+T> = None | Some(value: T)

  /** The value of a call that either returns or raises. */
  datatype Outcome<+T> = Ok(value: T) | Fail(error: Error)

  /** The members of the analysis-type enumeration that the modelled
      processors distinguish; `OtherAnalysis` stands for every other member. */
  datatype AnalysisType =
    | Undefined
    | PumpProbe
    | RoiFom
    | RoiProj
    | AzimuthalInteg
    | Roi1Pulse
    | Roi2Pulse
    | AzimuthalIntegPulse
    | OtherAnalysis(code: int)

  /** The exceptions raised by the modelled code. */
  datatype Error =
    | ProcessingError          // recoverable: required data is not available
    | UnknownParameterError    // configuration error: unknown enum value
    | NotImplementedError      // analysis type the pulse filter does not support
    | ValueError               // e.g. a Python slice with step 0
    | ShapeMismatchError       // arrays whose shapes do not agree
}
