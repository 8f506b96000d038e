# EXtra-foam analysis core, modelled in Dafny

EXtra-foam is an online analysis tool for detector data at the European XFEL.
Data arrives train by train; each train carries the pulses of one X-ray burst.
This project models the parts of its pipeline that turn a train's data into
figures of merit (FOMs) and histories, and proves properties of that model:

- **The image kernels** of the C++ extension (`f_imageproc.hpp`). These cover
  in-place masking of images and of image arrays (by NaN, by a threshold
  range or by an image mask, with an optional output mask), incremental
  moving averages, NaN-aware means, and gain/offset correction. They are
  modelled as methods over `array2`/`array3` whose loops carry invariants.
  Each method is proved against one per-pixel rule (`ImageProc.Masked`,
  `Pixels.Blend`, `ImageProc.NanMean`, `ImageProc.Correct`).
- **The ROI processors** (`ImageRoiPulse` and `ImageRoiTrain`). They reduce
  up to four regions of interest through the FOM-type table and combine
  ROI1/ROI2 (the FOM) and ROI3/ROI4 (the normaliser) as one region, a
  difference or a sum. They also build projections. The train processor
  keeps moving averages of every region, including the pump-probe on/off
  regions.
- **The pulse filter.** In pulse-resolved ROI analysis it lists the pulses
  whose FOM lies outside the accepted range.
- **The correlation processor.** It appends (correlator value, FOM) pairs to
  a bounded history. It rebuilds or resets that history when the
  configuration changes. A grace counter tolerates a pump-probe FOM that
  only arrives every other train.
- **The Gotthard processor.** Each train's `(pulses, pixels)` ADC array is
  validated, then recorded into a cumulative dark average or blended into a
  raw moving average. The pulses a Python slice selects are shown with the
  mean dark pulse subtracted, when subtraction is switched on.
- **The configurator's snapshot list.** A table of snapshot rows plus a map
  from each name to its row. Rows are inserted, removed, copied, renamed,
  loaded and snapshotted while the map stays consistent with the table and
  "Last saved" is pinned to row 0.

## Floating point

Pixel and FOM values are `Pixels.Pixel = NaN | Val(real)`:

- Arithmetic propagates NaN.
- Every comparison with NaN is false.
- The bounds of a threshold range are extended reals (`-inf`, finite,
  `inf`).

Rounding, float32 conversion and infinite pixel values are not modelled.

## Modules

| file | module | models |
|---|---|---|
| common.dfy | `Common` | `None`/value, raise/return, the analysis types, the exception kinds |
| pixels.dfy | `Pixels` | pixel arithmetic, sums, shapes, the moving-average step |
| image_proc.dfy | `ImageProc` | the `f_imageproc.hpp` kernels |
| pair_sequence.dfy | `PairSequences` | the simple and the binned correlation history, through the interface the correlation processor uses |
| moving_average.dfy | `MovingAverages` | the windowed moving-average container, through the interface the processors use |
| py_slice.dfy | `PySlice` | Python `slice` semantics (`slice.indices`) |
| pulse_filter.dfy | `PulseFilter` | `PulseFilterProcessor` |
| correlation.dfy | `Correlation` | `CorrelationProcessor` |
| image_roi.dfy | `ImageRoi` | `ImageRoiPulse` and `ImageRoiTrain` |
| gotthard.dfy | `Gotthard` | `GotthardProcessor` |
| configurator.dfy | `Configurator` | the `_config` map and the row bookkeeping of `Configurator` |

The pair-sequence and moving-average containers are defined in
`extra_foam/pipeline/data_model.py` and `extra_foam/algorithms`. Neither file
is part of this model. `PairSequences` and `MovingAverages` state an assumed
contract for them: a sample of another shape is refused, `None` empties a
moving average, and a window below 1 is refused. The rows below cite the
places where the processors use the containers. Those lines show the calls,
not the containers' own rules.

## Model

| member | source | states |
|---|---|---|
| Pixels.Add | src/extra_foam/include/f_imageproc.hpp:930-947 | A sum is NaN exactly when one of its operands is NaN |
| Pixels.Sub | src/extra_foam/include/f_imageproc.hpp:994-1000 | A difference is NaN exactly when one of its operands is NaN |
| Pixels.Mul | src/extra_foam/include/f_imageproc.hpp:1002-1008 | A product is NaN exactly when one of its operands is NaN |
| Pixels.DivCount | src/extra_foam/include/f_imageproc.hpp:930-947 | Dividing by a positive count is NaN exactly when the dividend is |
| Pixels.Abs | extra_foam/pipeline/processors/image_roi.py:578-581 | `np.abs` is NaN exactly for NaN; otherwise it is non-negative and equals the value or its negation |
| Pixels.SumNaNIff | extra_foam/pipeline/processors/image_roi.py:27-33 | `np.sum` is NaN exactly when some entry is NaN; otherwise it is the real sum of the entries |
| Pixels.SumAppend | extra_foam/pipeline/processors/image_roi.py:27-33 | The sum of a concatenation is the sum of the two sums |
| Pixels.RealSumAppend | extra_foam/pipeline/processors/image_roi.py:27-33 | The real sum distributes over concatenation |
| Pixels.SameShapeRect | extra_foam/pipeline/processors/image_roi.py:505-508 | An image with the shape of a rectangular image is rectangular |
| Pixels.Flatten | extra_foam/pipeline/processors/image_roi.py:27-33 | The flattened region has one entry per pixel |
| Pixels.Blend | src/extra_foam/include/f_imageproc.hpp:930-947 | One moving-average step is NaN exactly when the average or the sample is NaN |
| Pixels.BlendFirst | src/extra_foam/include/f_imageproc.hpp:930-947 | With count 1, a finite average is replaced by the sample |
| Pixels.BlendMean | src/extra_foam/include/f_imageproc.hpp:930-947 | Blending the `(n+1)`-th value with count `n+1` into the mean of `n` values gives the mean of all `n+1` values |
| ImageProc.ZeroMaskingRemovesNaN | src/extra_foam/include/f_imageproc.hpp:177-190 | A zero-family kernel never leaves a NaN pixel |
| ImageProc.ZeroMaskingCases | src/extra_foam/include/f_imageproc.hpp:472-495 | In the zero family, a masked, NaN or out-of-range pixel becomes 0 and every other pixel keeps its (finite) value |
| ImageProc.NanMaskingSurvivors | src/extra_foam/include/f_imageproc.hpp:547-571 | In the NaN family, a pixel is not NaN afterwards exactly when it was an unmasked number inside the range, and it then keeps its value |
| ImageProc.MaskingIdempotent | src/extra_foam/include/f_imageproc.hpp:472-611 | Masking twice with the same mask and thresholds equals masking once |
| ImageProc.NanMaskingWithoutMaskIsIdentity | src/extra_foam/include/f_imageproc.hpp:197-198 | With no mask and no thresholds the NaN family changes nothing, so the empty body of `maskImageDataNan(src)` is right |
| ImageProc.ZeroMaskingWithoutMaskReplacesNaN | src/extra_foam/include/f_imageproc.hpp:177-190 | With no mask and no thresholds the zero family only replaces NaN by 0 |
| ImageProc.NanOutMaskMarksNaN | src/extra_foam/include/f_imageproc.hpp:581-611 | After an out-mask NaN-family kernel, the output mask is set exactly where it was set before or where the pixel is now NaN |
| ImageProc.MaskImageDataZero | src/extra_foam/include/f_imageproc.hpp:177-190 | Every pixel of the image becomes its zero-masked value (NaN to 0) |
| ImageProc.MaskImageDataNan | src/extra_foam/include/f_imageproc.hpp:197-198 | The image is unchanged |
| ImageProc.ImageDataNanMask | src/extra_foam/include/f_imageproc.hpp:210-225 | The output mask is set where it was set or where the pixel is NaN; the image is unchanged |
| ImageProc.MaskImageDataZeroThreshold | src/extra_foam/include/f_imageproc.hpp:235-251 | Every NaN or out-of-range pixel becomes 0; the rest are kept |
| ImageProc.MaskImageDataZeroThresholdOut | src/extra_foam/include/f_imageproc.hpp:262-285 | As the threshold kernel, and the output mask is set at every replaced pixel |
| ImageProc.MaskImageDataNanThreshold | src/extra_foam/include/f_imageproc.hpp:294-311 | Every out-of-range number becomes NaN; NaN pixels and in-range pixels are kept |
| ImageProc.MaskImageDataNanThresholdOut | src/extra_foam/include/f_imageproc.hpp:321-345 | As the NaN threshold kernel, and the output mask is set at every NaN or out-of-range pixel |
| ImageProc.MaskImageDataZeroMask | src/extra_foam/include/f_imageproc.hpp:354-371 | Every masked or NaN pixel becomes 0 |
| ImageProc.MaskImageDataZeroMaskOut | src/extra_foam/include/f_imageproc.hpp:381-403 | As the mask kernel, and the output mask is set at every replaced pixel |
| ImageProc.MaskImageDataNanMask | src/extra_foam/include/f_imageproc.hpp:411-428 | Every masked pixel becomes NaN |
| ImageProc.MaskImageDataNanMaskOut | src/extra_foam/include/f_imageproc.hpp:436-461 | Every masked pixel becomes NaN; the output mask is set at every masked or NaN pixel |
| ImageProc.MaskImageDataZeroMaskThreshold | src/extra_foam/include/f_imageproc.hpp:472-495 | A masked pixel becomes 0 whatever its value; an unmasked NaN or out-of-range pixel becomes 0 |
| ImageProc.MaskImageDataZeroMaskThresholdOut | src/extra_foam/include/f_imageproc.hpp:507-537 | As the previous kernel, and the output mask is set at every replaced pixel |
| ImageProc.MaskImageDataNanMaskThreshold | src/extra_foam/include/f_imageproc.hpp:547-571 | A masked or out-of-range pixel becomes NaN; the rest are kept |
| ImageProc.MaskImageDataNanMaskThresholdOut | src/extra_foam/include/f_imageproc.hpp:581-611 | As the previous kernel, and the output mask is set at every masked, NaN or out-of-range pixel |
| ImageProc.MaskImageArrayZero | src/extra_foam/include/f_imageproc.hpp:618-643 | Every NaN pixel of every image becomes 0 |
| ImageProc.MaskImageArrayNan | src/extra_foam/include/f_imageproc.hpp:650-651 | The array is unchanged |
| ImageProc.MaskImageArrayZeroThreshold | src/extra_foam/include/f_imageproc.hpp:661-689 | Every NaN or out-of-range pixel of every image becomes 0 |
| ImageProc.MaskImageArrayNanThreshold | src/extra_foam/include/f_imageproc.hpp:698-728 | Every out-of-range number of every image becomes NaN |
| ImageProc.MaskImageArrayZeroMask | src/extra_foam/include/f_imageproc.hpp:737-773 | The 2-D mask, applied to every image, turns masked and NaN pixels into 0 |
| ImageProc.MaskImageArrayNanMask | src/extra_foam/include/f_imageproc.hpp:781-817 | The 2-D mask, applied to every image, turns masked pixels into NaN |
| ImageProc.MaskImageArrayZeroMaskThreshold | src/extra_foam/include/f_imageproc.hpp:826-869 | Mask and thresholds, applied to every image, turn flagged pixels into 0 |
| ImageProc.MaskImageArrayNanMaskThreshold | src/extra_foam/include/f_imageproc.hpp:877-921 | Mask and thresholds, applied to every image, turn flagged pixels into NaN |
| ImageProc.MovingAvgImageData | src/extra_foam/include/f_imageproc.hpp:930-947 | A count of 0 is refused and changes nothing; otherwise every pixel becomes `Blend(old, data, count)` |
| ImageProc.MovingAvgImageArray | src/extra_foam/include/f_imageproc.hpp:956-992 | The same for every pixel of every image of an array |
| ImageProc.CountVal | src/extra_foam/include/f_imageproc.hpp:53-83 | The number of non-NaN entries is at most the length |
| ImageProc.CountValExtremes | src/extra_foam/include/f_imageproc.hpp:53-83 | No entry counts exactly when every entry is NaN, and every entry counts exactly when none is |
| ImageProc.RealSumBounds | src/extra_foam/include/f_imageproc.hpp:53-83 | When every number lies in `[lo, hi]`, the sum of the numbers lies between `lo` and `hi` times their count |
| ImageProc.NanMeanBounds | src/extra_foam/include/f_imageproc.hpp:53-83 | `nanmean` is NaN exactly when every entry is NaN, and otherwise lies within the range of the entries |
| ImageProc.NanMeanWithoutNaN | src/extra_foam/include/f_imageproc.hpp:53-83 | Without NaN, `nanmean` is the plain arithmetic mean |
| ImageProc.NanMeanOfPair | src/extra_foam/include/f_imageproc.hpp:151-161 | The four branches of the two-image mean are `nanmean` of the pair: NaN for two NaNs, the other value for one NaN, the half-sum otherwise |
| ImageProc.PixelColumn | src/extra_foam/include/f_imageproc.hpp:53-83 | Entry `i` is pixel (j, k) of image `i` |
| ImageProc.SelectedColumn | src/extra_foam/include/f_imageproc.hpp:53-83 | Entry `t` is pixel (j, k) of the `t`-th kept image |
| ImageProc.PixelNanMean | src/extra_foam/include/f_imageproc.hpp:53-83 | The counting and summing loop computes `nanmean` of the pixel over the kept images, or over all images when `keep` is empty |
| ImageProc.NanmeanImageArrayImp | src/extra_foam/include/f_imageproc.hpp:36-89 | A fresh image, pixel by pixel the `nanmean` over the kept images (all images when `keep` is empty) |
| ImageProc.NanmeanImageArray | src/extra_foam/include/f_imageproc.hpp:114-123 | A fresh image, pixel by pixel the `nanmean` over all images |
| ImageProc.NanmeanImageArrayKeep | src/extra_foam/include/f_imageproc.hpp:101-112 | A fresh image in which each pixel is the `nanmean` over exactly the listed images; an empty `keep` list gives an all-NaN image, as in the sequential build |
| ImageProc.NanmeanTwoImages | src/extra_foam/include/f_imageproc.hpp:132-170 | A fresh image whose pixels are `nanmean` of the two pixels |
| ImageProc.Correct | src/extra_foam/include/f_imageproc.hpp:994-1008 | A corrected pixel is NaN exactly when the pixel or the constant is |
| ImageProc.OffsetUndoesShift | src/extra_foam/include/f_imageproc.hpp:994-1000 | The offset policy removes exactly an offset that was added |
| ImageProc.GainOffsetIsOffsetThenGain | src/extra_foam/include/f_imageproc.hpp:1084-1118 | `gain * (src - offset)` is the offset policy followed by the gain policy |
| ImageProc.CorrectImageData | src/extra_foam/include/f_imageproc.hpp:1061-1075 | Every pixel becomes the policy applied to it and to its constant |
| ImageProc.CorrectImageArray | src/extra_foam/include/f_imageproc.hpp:1018-1051 | The same for every pixel of every image |
| ImageProc.CorrectGainOffsetImage | src/extra_foam/include/f_imageproc.hpp:1127-1142 | Every pixel becomes `gain * (src - offset)` with its own gain and offset |
| ImageProc.CorrectGainOffsetArray | src/extra_foam/include/f_imageproc.hpp:1084-1118 | The same for every pixel of every image |
| PairSequences.Last | extra_foam/pipeline/processors/correlation.py:53-54 | The last `n` elements: the length is `min(len, n)`, and they are the tail of the sequence in order |
| PairSequences.NewSimple | extra_foam/pipeline/processors/correlation.py:53-59 | A new simple history is empty, with the given capacity |
| PairSequences.NewBinned | extra_foam/pipeline/processors/correlation.py:81-85 | A new binned history is empty, with the given resolution and capacity |
| PairSequences.Append | extra_foam/pipeline/processors/correlation.py:192-195 | The kind and capacity are kept; a binned history gains the sample; a simple one grows until it is full, then holds the newest pair last, never exceeding its capacity |
| PairSequences.Reset | extra_foam/pipeline/processors/correlation.py:118-121 | Empty again, with the same kind, capacity and resolution |
| PairSequences.Xs | extra_foam/pipeline/processors/correlation.py:128-130 | The x-values of the pairs, in order |
| PairSequences.Ys | extra_foam/pipeline/processors/correlation.py:128-130 | The y-values of the pairs, in order |
| PairSequences.Data | extra_foam/pipeline/processors/correlation.py:128-130 | `data()` gives two equal-length lists, the x- and y-values of the stored pairs in insertion order |
| PairSequences.LastSnoc | extra_foam/pipeline/processors/correlation.py:192-195 | Keeping the last `n` after each append equals keeping the last `n` at the end |
| PairSequences.SimpleKeepsLastPairs | extra_foam/pipeline/processors/correlation.py:43-54 | After any appends to an empty simple history of capacity `c`, it holds exactly the last `c` appended pairs, in order |
| PairSequences.BinnedKeepsEverySample | extra_foam/pipeline/processors/correlation.py:81-85 | A binned history accumulates every appended sample, in order |
| PairSequences.CapacityThreeScenario | extra_foam/pipeline/processors/correlation.py:192-195 | With capacity 3, after four appends `data()` gives the last three pairs |
| PairSequences.DataOfThree | extra_foam/pipeline/processors/correlation.py:128-130 | `data()` of a three-pair history lists the three x- and y-values |
| MovingAverages.Empty | extra_foam/pipeline/processors/image_roi.py:215-228 | An empty container has the given window and no value |
| MovingAverages.BlendImage | src/extra_foam/include/f_imageproc.hpp:930-947 | The result has the shape of the average, and each pixel is one blend step |
| MovingAverages.Assign | extra_foam/pipeline/processors/image_roi.py:300-327 | `None` empties the container. The first sample is stored as it is. A sample of another shape is refused. Otherwise the count grows to `window` and then stays there, and the value keeps the sample's shape |
| MovingAverages.Delete | extra_foam/pipeline/processors/image_roi.py:268-282 | `del` gives back the empty container with the same window |
| MovingAverages.SetWindow | extra_foam/pipeline/processors/image_roi.py:284-298 | A window below 1 is refused; otherwise only the window changes |
| MovingAverages.Column | extra_foam/pipeline/processors/image_roi.py:300-327 | The values of pixel (i, j) across the samples |
| MovingAverages.Mean | extra_foam/special_suite/gotthard_proc.py:47-48 | The pixel-wise arithmetic mean has the shape of the samples |
| MovingAverages.UniformPrefix | extra_foam/special_suite/gotthard_proc.py:47-48 | Dropping the last of several uniform samples leaves uniform samples |
| MovingAverages.CumulativeMean | extra_foam/special_suite/gotthard_proc.py:47-48 | While at most `window` samples have been assigned, the container holds their exact pixel-wise mean (why the dark average with window `2^31 - 1` is a cumulative mean) |
| MovingAverages.WindowTwoScenario | extra_foam/pipeline/processors/image_roi.py:284-298 | With window 2, the samples 10, 20, 30 give the averages 10, 15 and 22.5 |
| PySlice.Adjust | extra_foam/special_suite/gotthard_proc.py:85-86 | A missing bound takes the default; a given bound is clamped into range |
| PySlice.Progression | extra_foam/special_suite/gotthard_proc.py:85-86 | `count` indices, the `t`-th being `start + t * step` |
| PySlice.Count | extra_foam/special_suite/gotthard_proc.py:85-86 | The length of `range(lo, hi, d)`: 0 for an empty range; otherwise the last index lies below `hi` and one more step would reach or pass it |
| PySlice.Indices | extra_foam/special_suite/gotthard_proc.py:85-89 | A slice with step 0 is refused, and only such a slice is |
| PySlice.IndicesInRange | extra_foam/special_suite/gotthard_proc.py:142 | Every selected index is a valid index, and no index is selected twice |
| PySlice.ForwardInRange | extra_foam/special_suite/gotthard_proc.py:142 | A positive-step range within `[0, n]` selects distinct valid indices |
| PySlice.BackwardInRange | extra_foam/special_suite/gotthard_proc.py:142 | A negative-step range within `[-1, n-1]` selects distinct valid indices |
| PySlice.ProgressionBounds | extra_foam/special_suite/gotthard_proc.py:142 | A progression whose first and last elements are valid indices holds only distinct valid indices |
| PySlice.BetweenEnds | extra_foam/special_suite/gotthard_proc.py:142 | Every element of a progression lies between its first and its last |
| PySlice.StepsDiffer | extra_foam/special_suite/gotthard_proc.py:142 | Two different positions of a progression with a non-zero step hold different indices |
| PySlice.ValidIndices | extra_foam/special_suite/gotthard_proc.py:142 | The indices of a slice with a non-zero step, all valid |
| PySlice.Select | extra_foam/special_suite/gotthard_proc.py:160-171 | `xs[slice]`: the elements at the selected indices, in slice order |
| PySlice.AllSelectsEverything | extra_foam/special_suite/gotthard_proc.py:55 | `slice(None, None)` selects every index in order |
| PySlice.FourPulsesScenario | extra_foam/special_suite/tests/test_gotthard.py:284-297 | Of four pulses, `slice(None, None)`, `slice(None, None, 2)` and `slice(None, None, -1)` select [0,1,2,3], [0,2] and [3,2,1,0] |
| PySlice.EveryOtherOfFour | extra_foam/special_suite/tests/test_gotthard.py:168-171 | `slice(None, None, 2)` of four pulses selects [0, 2] |
| PySlice.ReversedFour | extra_foam/special_suite/gotthard_proc.py:85-86 | `slice(None, None, -1)` of four pulses selects [3, 2, 1, 0] |
| PulseFilter.DropListUnique | karaboFAI/pipeline/processors/pulse_filter.py:68-74 | There is exactly one ascending list of the out-of-range pulses, so the drop list is fully determined |
| PulseFilter.AscendingUnique | karaboFAI/pipeline/processors/pulse_filter.py:68-74 | Two strictly increasing lists with the same elements are equal |
| PulseFilter.FirstIsLeast | karaboFAI/pipeline/processors/pulse_filter.py:68-74 | The first element of a strictly increasing list is its least element |
| PulseFilter.DroppedAreValidPulses | karaboFAI/pipeline/processors/pulse_filter.py:68-74 | Every dropped index is the index of a pulse |
| PulseFilter.DefaultRangeDropsNothing | karaboFAI/pipeline/processors/pulse_filter.py:35 | The default range `(-inf, inf)` drops no pulse (not even a NaN one) |
| PulseFilter.RangeScenarios | karaboFAI/pipeline/processors/tests/test_pulse_filter_processor.py:47-63 | FOMs [1,2,3,4] with range [0, 2.5] drop [2, 3]; FOMs [4,5,6,7] drop all four |
| PulseFilter.PulseFilterProcessor.constructor | karaboFAI/pipeline/processors/pulse_filter.py:31-36 | An undefined analysis, the FOM range `(-inf, inf)` and the intensity range `(0, inf)` |
| PulseFilter.PulseFilterProcessor.Update | karaboFAI/pipeline/processors/pulse_filter.py:38-44 | The configured analysis type and the two ranges are taken over |
| PulseFilter.PulseFilterProcessor.Process | karaboFAI/pipeline/processors/pulse_filter.py:47-74 | An undefined analysis does nothing. A missing ROI1/ROI2 FOM list raises a processing error. Other analysis types are not implemented. Otherwise the result is the ascending list of exactly the pulses whose FOM lies below or above the range |
| Correlation.GraceStep | extra_foam/pipeline/processors/correlation.py:157-168 | A present FOM clears the counter. A first miss sets it to 1. A second consecutive miss clears it and raises. The counter never exceeds 1 |
| Correlation.TrailingMisses | extra_foam/pipeline/processors/correlation.py:157-168 | The last `n` trains have no pump-probe FOM, and the train before them, if there is one, has one; `n` is at most the number of trains |
| Correlation.GraceCounterParity | extra_foam/pipeline/processors/correlation.py:157-168 | Over any run of trains, the counter is the parity of the current run of misses, and a train raises exactly when it ends a run of misses of even length |
| Correlation.GraceScenario | extra_foam/pipeline/processors/correlation.py:161-165 | Present, missing, present, missing raises nothing; a further miss raises |
| Correlation.PointError | extra_foam/pipeline/processors/correlation.py:154-185 | An unknown analysis type raises an unknown-parameter error. A known non-pump-probe type raises a processing error exactly when its FOM is missing. Pump-probe raises exactly when the grace counter says so |
| Correlation.CorrelationProcessor.constructor | extra_foam/pipeline/processors/correlation.py:45-60 | Undefined analyses, empty simple histories of capacity 3000, resolution 0, no reset pending, grace counter 0 |
| Correlation.CorrelationProcessor.Update | extra_foam/pipeline/processors/correlation.py:62-95 | A reset is requested exactly when the analysis type or source changes, one nonzero resolution changes to another, or the reset key is present; the key is consumed. Nonzero to 0 rebuilds simple histories; 0 to nonzero rebuilds binned ones; otherwise the histories are kept |
| Correlation.CorrelationProcessor.UpdateDataPoint | extra_foam/pipeline/processors/correlation.py:154-195 | The raised error is `PointError`. A pair is appended exactly when the FOM and the correlator value are present; a slave pair only for ROI FOM with a slave FOM. The grace counter follows `GraceStep` |
| Correlation.CorrelationProcessor.ProcessGeneral | extra_foam/pipeline/processors/correlation.py:105-132 | An undefined analysis changes nothing. Otherwise a changed pump-probe type requests a reset, and a pending reset empties both histories before the point is added. A processing error is logged and the output is still written; an unknown analysis type propagates and writes no output |
| Correlation.CorrelationProcessor.ProcessPumpProbe | extra_foam/pipeline/processors/correlation.py:134-152 | A pump-probe reset empties the pump-probe history, which gains `(tid, fom)` exactly when the FOM is present; the output is its `data()`; nothing else changes |
| Correlation.CorrelationProcessor.Process | extra_foam/pipeline/processors/correlation.py:97-152 | With no analysis type nothing changes and no output is written. Otherwise the histories, the reset flag, the pump-probe type, the grace counter, the status and the output are as in `ProcessGeneral`. An unknown analysis type propagates and skips the pump-probe part. Only the first plot, and only when nothing propagated, applies a pump-probe reset to the pump-probe history, appends `(tid, fom)` when the FOM is present, and returns its `data()`; otherwise the pump-probe history is unchanged |
| ImageRoi.Reduce | extra_foam/pipeline/processors/image_roi.py:27-33 | Exactly the five listed FOM types have a handler, and the sum handler is `np.sum` |
| ImageRoi.FomSelection | extra_foam/pipeline/processors/image_roi.py:385-406 | ROI1, ROI2, ROI1-ROI2 and ROI1+ROI2 are the only combos read as one region, the other region, a difference or a sum |
| ImageRoi.NormSelection | extra_foam/pipeline/processors/image_roi.py:362-383 | ROI3, ROI4, ROI3-ROI4 and ROI3+ROI4 are the only combos read as one region, the other region, a difference or a sum |
| ImageRoi.ComputeFomPulse | extra_foam/pipeline/processors/image_roi.py:96-113 | A missing region gives `None`, before the FOM type is looked at. A type without a handler raises. Otherwise there is one FOM per pulse, the reduction of that pulse's region, which the model receives already masked |
| ImageRoi.CombinePulse | extra_foam/pipeline/processors/image_roi.py:115-189 | A single-region mode assigns that region's FOMs and never evaluates the other region. A combined mode leaves the field untouched when an operand is missing, otherwise assigns the pulse-wise difference or sum; an unknown combo raises |
| ImageRoi.ImageRoiPulse.constructor | extra_foam/pipeline/processors/image_roi.py:49-62 | FOM combo ROI1, normaliser combo ROI3, both with the sum FOM |
| ImageRoi.ImageRoiPulse.Update | extra_foam/pipeline/processors/image_roi.py:64-78 | The configured combos and FOM types are taken over |
| ImageRoi.ImageRoiPulse.ProcessNorm | extra_foam/pipeline/processors/image_roi.py:115-149 | The normaliser field gets the ROI3/ROI4 combination, or raises with it |
| ImageRoi.ImageRoiPulse.ProcessFom | extra_foam/pipeline/processors/image_roi.py:156-189 | The FOM field gets the ROI1/ROI2 combination, or raises with it |
| ImageRoi.ImageRoiPulse.Process | extra_foam/pipeline/processors/image_roi.py:81-94 | The normaliser first, then the FOM; an error stops the train, and only the fields written before it are kept |
| ImageRoi.PulseSkipsUnusedRegion | extra_foam/pipeline/processors/image_roi.py:156-189 | With ROI1 missing, ROI2 present and a FOM type without a handler, the pulse processor assigns `None` and the train processor raises |
| ImageRoi.CombinedSumScenario | extra_foam/pipeline/processors/image_roi.py:385-406 | ROI1 = [[1,2],[3,4]] minus ROI2 = [[5]] with the sum FOM assigns 5; a sum with ROI2 missing leaves the field untouched |
| ImageRoi.ComputeFomTrain | extra_foam/pipeline/processors/image_roi.py:351-360 | A missing region gives `None`; a type without a handler raises; otherwise the reduction of the whole region |
| ImageRoi.CombineTrain | extra_foam/pipeline/processors/image_roi.py:362-406 | Both regions are reduced first, so a type without a handler raises whenever either region is present. A single-region mode assigns that FOM. A combined mode is untouched without both operands, otherwise the difference or sum; an unknown combo raises |
| ImageRoi.CombineTrainPp | extra_foam/pipeline/processors/image_roi.py:410-475 | The same selection applied to both the on and off regions. In a combined mode only the on operands decide whether the fields are untouched. On and off are assigned `None` together |
| ImageRoi.ColumnOf | extra_foam/pipeline/processors/image_roi.py:477-488 | Entry `i` is row `i`'s pixel in column `c` |
| ImageRoi.ColumnSums | extra_foam/pipeline/processors/image_roi.py:477-488 | One sum per column |
| ImageRoi.RowSums | extra_foam/pipeline/processors/image_roi.py:477-488 | One sum per row |
| ImageRoi.ComputeProj | extra_foam/pipeline/processors/image_roi.py:477-488 | A missing region gives `None` before the direction is looked at. "x" gives the column sums, "y" the row sums, and any other direction raises |
| ImageRoi.ProjLengths | extra_foam/pipeline/processors/image_roi.py:505-508 | Regions of one shape have projections of one length |
| ImageRoi.RowSumsTotal | extra_foam/pipeline/processors/image_roi.py:477-488 | The "y" projection adds up to the region's sum FOM |
| ImageRoi.CombineProj | extra_foam/pipeline/processors/image_roi.py:490-530 | A single-region mode assigns that profile. A combined mode is untouched when an operand is missing or the shapes differ (logged), otherwise the element-wise difference or sum; an unknown combo raises |
| ImageRoi.CombineProjPp | extra_foam/pipeline/processors/image_roi.py:532-588 | The projection combinator on the on and off regions. The shape check is made on the main regions, only the on profiles decide whether the fields are untouched, and on/off profiles are of one length |
| ImageRoi.OnOffLengths | extra_foam/pipeline/processors/image_roi.py:532-588 | The on and off profiles of a region have the length of its main profile |
| ImageRoi.AssignEach | extra_foam/pipeline/processors/image_roi.py:316-327 | The averages take their samples in turn; without an error each is the assignment of its sample, and after a refusal the rest are left as they were |
| ImageRoi.AssignOnOff | extra_foam/pipeline/processors/image_roi.py:329-349 | The same for the on and off averages of each region |
| ImageRoi.AssignMirrors | extra_foam/pipeline/processors/image_roi.py:316-327 | An assigned average holds a value exactly when the region is present, with the region's shape |
| ImageRoi.ClearAll | extra_foam/pipeline/processors/image_roi.py:268-282 | Every average is emptied, keeping its window |
| ImageRoi.Rewindow | extra_foam/pipeline/processors/image_roi.py:284-298 | Every average gets the new window and nothing else changes |
| ImageRoi.RewindowSame | extra_foam/pipeline/processors/image_roi.py:300-309 | Re-setting the window every average already has changes nothing |
| ImageRoi.ImageRoiTrain.constructor | extra_foam/pipeline/processors/image_roi.py:230-246 | Default combos and FOM types, projection along "x", window 1 and twelve empty averages |
| ImageRoi.ImageRoiTrain.UpdateMovingAverage | extra_foam/pipeline/processors/image_roi.py:300-309 | The reset key empties all twelve averages and is consumed. A new window reaches all of them only when it differs from the stored one, and a window below 1 is refused |
| ImageRoi.ImageRoiTrain.Update | extra_foam/pipeline/processors/image_roi.py:248-266 | The moving-average settings first; a refused window stops before the ROI settings are taken over |
| ImageRoi.ImageRoiTrain.ProcessNorm | extra_foam/pipeline/processors/image_roi.py:362-383 | The normaliser field gets the combination of the ROI3/ROI4 averages |
| ImageRoi.ImageRoiTrain.ProcessFom | extra_foam/pipeline/processors/image_roi.py:385-406 | The FOM field gets the combination of the ROI1/ROI2 averages |
| ImageRoi.ImageRoiTrain.ProcessProj | extra_foam/pipeline/processors/image_roi.py:490-530 | An assigned profile gives `x = arange(len)`, the normalised profile as `y` and the sum of `y` as the FOM; a missing profile writes nothing |
| ImageRoi.ImageRoiTrain.ProcessNormPumpProbe | extra_foam/pipeline/processors/image_roi.py:410-438 | The on/off normalisers get the combination of the on/off ROI3/ROI4 averages |
| ImageRoi.ImageRoiTrain.ProcessFomPumpProbe | extra_foam/pipeline/processors/image_roi.py:440-475 | The pump-probe FOM is `fom_on - fom_off`, and nothing is written when `fom_on` is missing |
| ImageRoi.ImageRoiTrain.ProcessProjPumpProbe | extra_foam/pipeline/processors/image_roi.py:532-588 | The on/off profiles are normalised together, then their difference is taken. The FOM is the sum (of absolute values if asked) of the sliced difference. Normalised profiles of different lengths raise |
| ImageRoi.ImageRoiTrain.AssignMain | extra_foam/pipeline/processors/image_roi.py:316-327 | The four main averages take the four regions in turn; afterwards they mirror the regions |
| ImageRoi.ImageRoiTrain.AssignPumpProbe | extra_foam/pipeline/processors/image_roi.py:329-349 | The on/off averages take their regions; afterwards they have the shapes of the main averages |
| ImageRoi.ImageRoiTrain.ProcessMain | extra_foam/pipeline/processors/image_roi.py:316-327 | The new main averages, the record and the error are `MainPart` of the old averages. That is the assignment of the four regions; a refusal returns the record untouched. Then come the normaliser, the FOM and the projection steps of `MainSteps`: the first step that raises returns its error, with the earlier steps' fields written and the later ones not. A refusal-free assignment leaves the averages mirroring the regions |
| ImageRoi.ImageRoiTrain.ProcessPumpProbe | extra_foam/pipeline/processors/image_roi.py:329-349 | The new on/off averages, the pump-probe record and the error are `PpPart` of the old ones. That is the on/off assignment; a refusal returns the record untouched. Then come the steps of `PpSteps`: nothing for an undefined analysis, otherwise the normalisers, then the FOM for ROI FOM or the projection for ROI projection, stopping at the first error. A refusal-free assignment leaves the on/off averages shaped like the main ones |
| ImageRoi.ImageRoiTrain.Process | extra_foam/pipeline/processors/image_roi.py:312-349 | All three sets of averages, both records and the error are `TrainSteps` of the old state. That is the main part, and then the pump-probe part only when the train has on/off images and the main part raised nothing; otherwise the on/off averages and the pump-probe record are unchanged |
| ImageRoi.ProjWrite | extra_foam/pipeline/processors/image_roi.py:519-530 | A missing or untouched profile writes nothing. An assigned profile writes `x = arange(len)`, the normalised profile as `y` and the sum of `y` as the FOM. The normaliser and FOM fields are kept |
| ImageRoi.PpNormWrite | extra_foam/pipeline/processors/image_roi.py:420-438 | An untouched pair writes nothing; an assigned pair writes exactly the on and off normalisers |
| ImageRoi.PpFomWrite | extra_foam/pipeline/processors/image_roi.py:470-475 | A missing `fom_on` writes nothing; otherwise exactly the pump-probe FOM is written, as `fom_on - fom_off` |
| ImageRoi.PpProjWrite | extra_foam/pipeline/processors/image_roi.py:567-588 | A missing pair writes nothing. It raises a `ValueError` exactly when the normalised on/off profiles differ in length. Otherwise it writes `x`, both normalised profiles, their difference, and the FOM as the sum (of absolute values if asked) of the sliced difference; the normalisers are kept |
| ImageRoi.MainStepsFacts | extra_foam/pipeline/processors/image_roi.py:362-530 | The main steps raise only an unknown parameter, and a raised error leaves the projection unwritten. A failing normaliser writes nothing. Without an error, the normaliser, the FOM and the projection are the combined values |
| ImageRoi.PpStepsFacts | extra_foam/pipeline/processors/image_roi.py:341-349 | An undefined analysis writes nothing. Only the projection analysis writes profiles or raises a length mismatch. Only the FOM and projection analyses write the FOM. Every other error is an unknown parameter |
| ImageRoi.AssignEachMirrors | extra_foam/pipeline/processors/image_roi.py:316-321 | After a refusal-free assignment the averages mirror the regions and hold rectangular values |
| ImageRoi.MainPartFacts | extra_foam/pipeline/processors/image_roi.py:316-327 | The main part assigns the averages; a refused region leaves the record untouched and raises a shape mismatch; its only errors are a shape mismatch and an unknown parameter |
| ImageRoi.PpPartFacts | extra_foam/pipeline/processors/image_roi.py:329-349 | The pump-probe part assigns the on/off averages; a refused region leaves the record untouched and raises a shape mismatch; an undefined analysis leaves the record untouched; the only errors are a shape mismatch, an unknown parameter and, for the projection analysis only, a length mismatch |
| Gotthard.PixelColumn | extra_foam/special_suite/gotthard_proc.py:173-174 | Entry `i` is pixel `c` of pulse `i` |
| Gotthard.PulseMean | extra_foam/special_suite/gotthard_proc.py:173-174 | `np.mean(axis=0)`: a pixel's mean is NaN exactly when there are no pulses or one of them is NaN there; otherwise it is the sum over pulses divided by their number |
| Gotthard.SubtractRows | extra_foam/special_suite/gotthard_proc.py:166-168 | The mean dark pulse is subtracted from every pulse, pixel by pixel |
| Gotthard.PoiScenario | extra_foam/special_suite/tests/test_gotthard.py:161-171 | With four pulses, pulse 3 is accepted under `slice(None, None)` and refused under `slice(None, None, 2)` |
| Gotthard.Selected | extra_foam/special_suite/gotthard_proc.py:160-171 | `rows[slicer]`: the pulses at the selected indices, in order, with the width of the array |
| Gotthard.RectRows | extra_foam/special_suite/gotthard_proc.py:137-139 | A 2-D array has rows of one width |
| Gotthard.ShapedRows | extra_foam/special_suite/gotthard_proc.py:153-168 | An average shaped like the train has the train's row width |
| Gotthard.GotthardProcessor.constructor | extra_foam/special_suite/gotthard_proc.py:50-65 | Every pulse is selected, the pulse of interest is 0, the raw window is 1, and the dark average is empty with window `2^31 - 1` |
| Gotthard.GotthardProcessor.SetMaWindow | extra_foam/special_suite/gotthard_proc.py:67-68 | A window below 1 is refused; otherwise only the raw average's window changes |
| Gotthard.GotthardProcessor.OnPoiIndexChanged | extra_foam/special_suite/gotthard_proc.py:91-92 | The pulse of interest is taken over |
| Gotthard.GotthardProcessor.OnPulseSlicerChanged | extra_foam/special_suite/gotthard_proc.py:85-89 | The new slicer is stored; with a dark average the mean dark pulse is recomputed over the newly selected pulses (step 0 raises), and without one it stays `None` |
| Gotthard.GotthardProcessor.OnRemoveDark | extra_foam/special_suite/gotthard_proc.py:117-120 | The dark average and the mean dark pulse are dropped |
| Gotthard.GotthardProcessor.Process | extra_foam/special_suite/gotthard_proc.py:122-193 | A missing property, a non-2-D array, step 0 or an out-of-range pulse of interest raises before anything changes. Recording dark updates the dark average and mean dark pulse and subtracts nothing. Otherwise the raw average is updated, and both outputs are offset exactly when subtraction is on and a dark pulse exists. The means are over the shown pulses |
| Gotthard.Scaled | extra_foam/special_suite/tests/test_gotthard.py:206-208 | Every pixel multiplied by `k`, same shape |
| Gotthard.DarkAverageScenario | extra_foam/special_suite/tests/test_gotthard.py:197-230 | Recording `adc` and then `2 * adc` into the dark average leaves `1.5 * adc` after two trains |
| Configurator.ConsistentSize | extra_foam/gui/misc_widgets/configurator.py:39 | A consistent name-to-row map has one entry per row |
| Configurator.RowValues | extra_foam/gui/misc_widgets/configurator.py:121-125 | The rows of a consistent map are exactly `0 .. n-1` |
| Configurator.ShiftUp | extra_foam/gui/misc_widgets/configurator.py:121-125 | The same names; every row at or after `r` moves down by one and the others stay |
| Configurator.ShiftDown | extra_foam/gui/misc_widgets/configurator.py:138-142 | The same names; every row after `r` moves up by one and the others stay |
| Configurator.InsertAt | extra_foam/gui/misc_widgets/configurator.py:105 | One row more: the new row at `r`, the rows before it kept, the rows after it moved down |
| Configurator.RemoveAt | extra_foam/gui/misc_widgets/configurator.py:136 | One row fewer: the rows before `r` kept, the rows after it moved up |
| Configurator.TargetRow | extra_foam/gui/misc_widgets/configurator.py:100-103 | "Last saved" goes to row 0, no row means the end, and otherwise the given row |
| Configurator.InsertConsistent | extra_foam/gui/misc_widgets/configurator.py:90-127 | Inserting a new name and shifting the later rows keeps map and table consistent |
| Configurator.RemoveConsistent | extra_foam/gui/misc_widgets/configurator.py:129-142 | Removing a name and shifting the later rows back keeps map and table consistent |
| Configurator.RenameConsistent | extra_foam/gui/misc_widgets/configurator.py:161-170 | Giving a row a fresh name keeps map and table consistent |
| Configurator.RowsBelowSize | extra_foam/gui/misc_widgets/configurator.py:121 | Every row of a consistent map lies below the number of entries |
| Configurator.ShiftUpAtEnd | extra_foam/gui/misc_widgets/configurator.py:121 | Skipping the shift when inserting at the end is correct: the shift would change nothing |
| Configurator.ListedKept | extra_foam/gui/misc_widgets/configurator.py:211-215 | Loaded rows whose names are kept stay listed |
| Configurator.NewName | extra_foam/gui/misc_widgets/configurator.py:211-212 | With distinct names, each loaded row brings a name the earlier rows do not have |
| Configurator.SnapshotFacts | extra_foam/gui/misc_widgets/configurator.py:217-226 | A snapshot inserts a new top row unless "Last saved" is already on top, where it is overwritten. Either way map and table stay consistent, "Last saved" is in row 0 and every other row keeps its content |
| Configurator.ShiftScenario | extra_foam/gui/misc_widgets/configurator.py:121-142 | Adding "a" and then "Last saved" moves "a" to row 1; removing "Last saved" moves it back to row 0 |
| Configurator.InsertFacts | extra_foam/gui/misc_widgets/configurator.py:90-127 | An insertion keeps consistency and the content of every other row, and keeps "Last saved" on top unless a new name is put above it |
| Configurator.RemoveFacts | extra_foam/gui/misc_widgets/configurator.py:129-142 | A removal keeps consistency, the content of every other row and "Last saved" on top |
| Configurator.RowsAroundRemoved | extra_foam/gui/misc_widgets/configurator.py:138 | After a removal, no other row lies at the removed row or beyond the new size |
| Configurator.ShiftRowsUp | extra_foam/gui/misc_widgets/configurator.py:121-125 | The loop over the map, with its end-of-table shortcut, computes `ShiftUp` |
| Configurator.ShiftRowsDown | extra_foam/gui/misc_widgets/configurator.py:138-142 | The loop over the map, with its end-of-table shortcut, computes `ShiftDown` |
| Configurator.Configurator.constructor | extra_foam/gui/misc_widgets/configurator.py:39 | An empty map and an empty table |
| Configurator.Configurator.CheckConfigName | extra_foam/gui/misc_widgets/configurator.py:279-292 | A name is accepted exactly when it is not taken, not "default" or "Last saved", and not empty |
| Configurator.Configurator.Insert | extra_foam/gui/misc_widgets/configurator.py:90-127 | The row goes to its target row, the later rows move down, and "Last saved" stays on top when it is not displaced |
| Configurator.Configurator.Remove | extra_foam/gui/misc_widgets/configurator.py:153-159 | The name's row goes, the later rows move up, and "Last saved" stays on top |
| Configurator.Configurator.Copy | extra_foam/gui/misc_widgets/configurator.py:144-151 | A copy of the row under the new name is appended at the end |
| Configurator.Configurator.Rename | extra_foam/gui/misc_widgets/configurator.py:161-170 | The row keeps its place and content under the new name |
| Configurator.Configurator.TakeSnapshot | extra_foam/gui/misc_widgets/configurator.py:217-226 | Afterwards row 0 is "Last saved" with the new timestamp and description, and consistency holds |
| Configurator.Configurator.Load | extra_foam/gui/misc_widgets/configurator.py:201-215 | Afterwards every loaded row is listed under its name, every old name not loaded keeps its row's content, "Last saved" is on top, and a new snapshot is taken when none was listed. The table is `LoadRows` of the old table: a loaded "Last saved" row on top, then the old rows whose names were not loaded in their old order, then the other loaded rows in list order; with no "Last saved" anywhere the new snapshot row comes first |
| Configurator.SnapshotEntry | extra_foam/gui/misc_widgets/configurator.py:217-226 | `_takeSnapshot` on the map and the rows: consistent, pinned, "Last saved" added, other rows kept |
| Configurator.LoadEntries | extra_foam/gui/misc_widgets/configurator.py:201-215 | The names afterwards are the old ones, the loaded ones and "Last saved"; loaded rows listed, other rows kept; the rows are the loaded rows inserted one by one into the old rows without the loaded names, under a new snapshot row when no "Last saved" is listed |
| Configurator.ReplaceListed | extra_foam/gui/misc_widgets/configurator.py:205-212 | The two loading loops together: the names become the old and the loaded ones, loaded rows listed, other rows kept, and the rows are `InsertedRows` of the old rows without the loaded names |
| Configurator.SnapshotUnlessListed | extra_foam/gui/misc_widgets/configurator.py:214-215 | With "Last saved" listed nothing changes; otherwise a snapshot row is put on top of the unchanged rows. Loaded rows stay listed |
| Configurator.SnapshotOnTop | extra_foam/gui/misc_widgets/configurator.py:222-223 | With no "Last saved" listed the top row is not "Last saved", so the snapshot is inserted at row 0 above all rows |
| Configurator.InsertEntry | extra_foam/gui/misc_widgets/configurator.py:90-127 | Insertion on the map and the rows: consistent, the new row listed, other rows kept, one name more |
| Configurator.RemoveEntry | extra_foam/gui/misc_widgets/configurator.py:129-142 | Removal on the map and the rows: consistent, other rows kept, one name fewer |
| Configurator.RemoveListed | extra_foam/gui/misc_widgets/configurator.py:205-209 | The first loading loop removes exactly the loaded names that were listed and keeps every other row; the rows left are the old rows without the loaded names, in their old order (the gaps close) |
| Configurator.InsertListed | extra_foam/gui/misc_widgets/configurator.py:211-212 | The second loading loop lists every loaded row and keeps every old row; the rows are `InsertedRows`, one insertion per loaded row with no row given |
| Configurator.RemoveIfListed | extra_foam/gui/misc_widgets/configurator.py:208-209 | One step of the first loading loop: a listed name loses its row, the other rows keep their content and close the gap in order; an unlisted name changes nothing |
| Configurator.InsertNext | extra_foam/gui/misc_widgets/configurator.py:211-212 | One step of the second loading loop keeps consistency, the old rows, the rows listed so far, lists the next loaded row and inserts it at its target row |
| Configurator.InsertedRowsStep | extra_foam/gui/misc_widgets/configurator.py:211-212 | One loaded row more is one insertion more at its target row |
| Configurator.InsertedRowsClosed | extra_foam/gui/misc_widgets/configurator.py:100-103 | With distinct names, inserting the loaded rows one by one puts a loaded "Last saved" row on top, keeps the old rows in order after it and appends the other loaded rows in list order |
| Configurator.InsertListedRows | extra_foam/gui/misc_widgets/configurator.py:100-105 | One insertion step: a loaded "Last saved" row goes to row 0 above everything, any other loaded row goes after the last row |
| Configurator.LoadAppends | extra_foam/gui/misc_widgets/configurator.py:201-212 | Loading rows none of which is "Last saved" keeps the unloaded old rows in order and appends the loaded rows in list order |
| Configurator.NotNamedAbsent | extra_foam/gui/misc_widgets/configurator.py:208 | Dropping names no row has changes nothing |
| Configurator.NamedAbsent | extra_foam/gui/misc_widgets/configurator.py:100 | Selecting names no row has selects nothing |
| Configurator.NotNamedTwice | extra_foam/gui/misc_widgets/configurator.py:205-209 | Dropping the names of the earlier loaded rows and then the next one drops all of them |
| Configurator.NotNamedRemove | extra_foam/gui/misc_widgets/configurator.py:134-136 | Removing the row at the position of the only row named `x` is dropping the name `x`: the other rows close the gap in order |
| Configurator.NamesSnoc | extra_foam/gui/misc_widgets/configurator.py:205-212 | One loaded row more adds exactly its name |

## Left out

- TBB parallelism: the `FOAM_WITH_TBB` code paths of `f_imageproc.hpp` are not modelled as parallel code. The one exception is `nanmeanImageArrayImp`, which exists only in that build. Its loop is modelled (`ImageProc.NanmeanImageArrayImp`) because, for a non-empty `keep`, its per-pixel result equals the sequential `nanmean`.
- ImageProc.NanmeanImageArrayKeep: follows the sequential build, where an empty `keep` gives an all-NaN image. The `FOAM_WITH_TBB` build throws `std::invalid_argument` for an empty `keep` instead; that refusal is not modelled.
- The GUI and Qt: widgets, signals, context menus, message boxes and item flags are not modelled. The context-menu dispatch (`showContextMenu`) is modelled only through the preconditions of `Copy`, `Rename` and `Remove`: a fresh name, as `_checkConfigName` guarantees, and an existing name or row. The menu's row-0 guard, which offers delete and rename only below the top row (configurator.py:246-252, 264), is not modelled: `Remove` and `Rename` accept row 0.
- Floating point: rounding, float32 casts (`astype(_PIXEL_DTYPE)`) and infinite pixel values are not modelled; pixels are reals or NaN.
- `hist_with_stats` in the Gotthard output (the ADU histogram and its statistics) is not modelled, nor are the bin settings that only feed it.
- `GotthardProcessor.onLoadDarkRun` reads a run directory from disk; file I/O is not modelled.
- The output channel, the train ID and the log messages of the Gotthard processor are not modelled.
- Gotthard.GotthardProcessor.Process: the caller supplies the train's `data.adc` property as a parameter. A missing output channel (a `KeyError` in the source) is not modelled.
- The binned statistics of `OneWayAccuPairSequence` (`data()` of a binned history with its counts and spreads) are not modelled. A binned history keeps its samples only.
- PairSequences and MovingAverages model containers that are not in this model's source files. Their rules are an assumed contract: a shape mismatch is refused, and assigning `None` empties the container. The processors' call sites that the rows cite do not show these rules.
- MovingAverages.SetWindow: the refusal of a window below 1 (a `ValueError`) is an assumed rule of the moving-average container, which is not in this model's source files.
- ImageRoi.ImageRoiTrain.UpdateMovingAverage: the refusal of a window below 1 comes from the assumed container rule in `MovingAverages.SetWindow`. The processor's own code (`image_roi.py:300-309`) only passes the window on.
- Gotthard.GotthardProcessor.SetMaWindow: the refusal of a window below 1 comes from the assumed container rule in `MovingAverages.SetWindow`. The processor's own code (`gotthard_proc.py:67-68`) only passes the window on.
- MovingAverages.Assign: the refusal of a sample of another shape is an assumed rule of the container, which is not in this model's source files. Numpy's broadcasting of a length-1 axis is not modelled; two shapes either match exactly or are refused.
- ImageRoi.PpProjWrite: a difference of two profiles of different lengths is a `ValueError`; numpy's broadcasting of a length-1 profile against a longer one is not modelled.
- Gotthard.SubtractRows: takes a dark row as long as the pulses; the processor raises a `ValueError` before calling it when the lengths differ (gotthard_proc.py:166-167). Numpy's broadcasting of a length-1 dark row over the pulses is not modelled.
- The ROI geometry (the intersection of the configured rectangle with the image) is not modelled: the regions arrive already cut out. The train-resolved processor reads its regions from the already-masked `masked_mean` image (image_roi.py:316-322), so no masking happens there.
- ImageRoi.ComputeFomPulse: the pulse-resolved processor masks each region in place inside `_compute_fom` (image_roi.py:106-112), using the region's own cut of the image mask and the threshold mask (image_roi.py:125-128). The model receives the regions already masked and has no mask parameters. The masking writes zero or NaN through the region view into the assembled array; that write, which later consumers see, is not modelled. The FOMs are unaffected, because masking an already-masked region changes nothing (`ImageProc.MaskingIdempotent`).
- `_normalize_fom`, `_normalize_fom_pp` and `slice_curve` are not modelled as code: they are function-typed parameters (`ImageRoi.Foreign`). The same holds for the mean, median, max and min reductions (`ImageRoi.Reductions`).
- `_fetch_property_data` (the correlator value from slow data) is not modelled as code: the correlator value is a field of the train input, and its error message is only logged.
- The meta-data store (`hget_all`, `hdel`, `MetaProxy`) is not modelled as a store: configuration snapshots are inputs, and a consumed reset key comes back as the returned configuration with the key cleared.
- The processed record is not modelled as an object: processors return the fields they write as values.
- The moving-average window is one class attribute shared by every `ImageRoiTrain` and by the raw average of every `GotthardProcessor` in the source. The model gives each instance its own window.
- `onMaWindowChanged` and `onNoBinsChanged` parse strings with `int(...)`; the model takes the integer.
- Correlation.CorrelationProcessor.Update: a change from one nonzero resolution to another keeps the existing binned histories, which still bin at the resolution they were built with; it only requests a reset. The model follows the code here.
- The pulse filter's `xgm_intensity_range` is stored but never used by `process`; the model stores it too.
- Configurator: the `MetaProxy` calls (`copy_snapshot`, `remove_snapshot`, `rename_snapshot`, `take_snapshot`, `load_configurations`) are not modelled. The rows they produce are parameters.
- Configurator: the `TypeError` fallback when a cell text is not a string is not modelled; a row holds three strings.
- Configurator: `_saveConfigurations`, `_resetToDefault`, `onItemDoubleClicked`, `onInit`, `onStart` and `onStop` are not modelled; they only call into the meta-data store or the widgets.
- Configurator.Configurator.Load: requires the loaded names to be distinct; with a repeated name the source inserts a second row under it.
- Configurator.Configurator.Insert: requires a name not yet in the map; the source overwrites the map entry and leaves a stale row.
- Configurator.Configurator.Copy: requires a fresh name, as `_checkConfigName` guarantees for the menu path.
- Configurator.Configurator.Rename: requires a fresh name, as `_checkConfigName` guarantees for the menu path.
- Configurator: the loops over `_config.items()` are modelled as methods over a map value, which the class fields are then set to.
- ImageProc.NanmeanImageArrayImp: the element-type template parameter and the run-time shape checks are modelled as types and preconditions.
- ImageProc.PixelNanMean: the sum is accumulated in exact reals; the source accumulates in the element type.
