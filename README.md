# MNIST digit drawing and classification: a Dafny model

The system is a web client where a user draws a digit on a 28 x 28 canvas, and a
service that checks the drawn sample and classifies it with a Gaussian class model
fitted to the training data. It can also generate a sample for a digit.

This project models the parts of that system that are plain logic:

- **The canvas store** (`Canvas`). A class `PixelStore` holds the grid in an
  `array2<int>`. `Reset` paints the grid white. `Draw` darkens the cells under the
  square brush box, changing only those cells. `PixelsToString` exports the grid as
  the 784-long vector that the service receives. `Invert` and `Flatten` are loop
  methods, each proved equal to a specification function, and the round trips and
  range facts are proved about those functions.
- **Request validation and the error taxonomy** (`Validator`, `Exceptions`). These
  cover the sample and label checks, and the four HTTP exception kinds with their
  status and detail text. The label and length error details are proved to carry
  the offending label or length; the pixel-value error carries a fixed text.
- **The classifier's arithmetic skeleton**, over exact reals:
  - `Estimation`: class priors by counting, and per-class column means;
  - `Posterior`: the log-sum-exp normalisation and the first-wins arg-max;
  - `Scaling`: the min-max rescale to 0..255;
  - `Predictor`: the three entry points, each validating its input before it reads
    any data.
- **`Interop`**: the client's export is a sample the service's validation accepts.

Shared helpers live in `LabelMaps`, which treats a dict as a `map` plus the order of
its keys, and `RealArith`, which holds small real-division facts.

## Model

| member | source | states |
|---|---|---|
| Canvas.Clamp | client/src/stores/pixelStore.ts:70 | the result never exceeds `max`; it is at least `min` whenever `min <= max`; a value already in range is returned unchanged; values below or above the range go to the nearer end |
| Canvas.BrushSpan | client/src/stores/pixelStore.ts:28-31 | one axis of the box: start = max(0, floor((c - r) / size)) is at least 0 and end = min(n, ceil((c + r) / size)) is at most n; which cells it covers is in the BrushSpanCovers row |
| Canvas.BrushBox | client/src/stores/pixelStore.ts:25-31 | the box's start indices are at least 0 and its end indices at most dim, for any mouse position and brush size |
| Canvas.BrushSpanCovers | client/src/stores/pixelStore.ts:26-31 | cell i of an axis is in the box exactly when the brush interval [c - r, c + r] meets ((i - 1) * pixelSize, (i + 1) * pixelSize) |
| Canvas.Floor | client/src/stores/pixelStore.ts:28 | Math.floor gives the integer k with k <= x < k + 1 |
| Canvas.Ceil | client/src/stores/pixelStore.ts:29 | Math.ceil gives the integer k with k - 1 < x <= k |
| Canvas.PixelStore.constructor | client/src/stores/pixelStore.ts:6 | a new store holds the empty grid, before any reset |
| Canvas.PixelStore.Reset | client/src/stores/pixelStore.ts:8-18 | afterwards the grid is a new dim x dim grid (dim = 28) in which every cell is 255 |
| Canvas.PixelStore.Draw | client/src/stores/pixelStore.ts:24-40 | each in-grid cell of the brush box becomes clamp(old - 20, 0, 255) and every other cell keeps its value; a grid within 0..255 stays within it, and no non-negative cell increases |
| Canvas.Invert | client/src/stores/pixelStore.ts:42-52 | the loops build exactly the dim x dim grid of 255 - p |
| Canvas.Flatten | client/src/stores/pixelStore.ts:54-62 | the loops build exactly the 784-long column-major vector of the first 28 x 28 cells |
| Canvas.PixelStore.PixelsToString | client/src/stores/pixelStore.ts:64-68 | the exported vector is flatten(invert(pixels)); it has 784 entries, all in 0..255 when the grid is |
| Canvas.Inverted | client/src/stores/pixelStore.ts:42-52 | inverting gives a 28 x 28 grid |
| Canvas.InvertedTwice | client/src/stores/pixelStore.ts:42-52 | inverting twice gives back the original grid |
| Canvas.InvertedInRange | client/src/stores/pixelStore.ts:47 | inverting keeps every cell within 0..255 |
| Canvas.Flattened | client/src/stores/pixelStore.ts:54-62 | the flattened vector has 28 * 28 = 784 entries, whatever dim is |
| Canvas.FlattenedAt | client/src/stores/pixelStore.ts:56-58 | flat[i * 28 + j] is pixels[j][i] for 0 <= i, j <= 27 |
| Canvas.UnflattenFlattened | client/src/stores/pixelStore.ts:54-62 | flattening a 28 x 28 grid loses nothing: it can be undone |
| Canvas.FlattenUnflattened | client/src/stores/pixelStore.ts:54-62 | every 784-long vector is the flattening of some grid |
| Canvas.BlankExportIsZeros | client/src/stores/pixelStore.ts:64-66 | a freshly reset canvas exports 784 zeros |
| Canvas.ExportInRange | client/src/stores/pixelStore.ts:64-66 | a grid within 0..255 exports values within 0..255 |
| Canvas.Filled | client/src/stores/pixelStore.ts:9-16 | the grid reset builds is n x n |
| Validator.ValidateSample | service/src/validator.py:4-8 | passes exactly when the sample has 784 pixels, each in 0..255 inclusive; any failure has status 400 and is a sample-validation kind |
| Validator.ValidateLabel | service/src/validator.py:10-12 | passes exactly when the label is in 0..9; a failure has status 400 and is not a sample-validation kind |
| Validator.LengthCheckedFirst | service/src/validator.py:5-6 | any wrong-length sample gets the length error, whatever its pixels; the detail carries the sample's length |
| Validator.BadPixelRejected | service/src/validator.py:7-8 | a 784-pixel sample with any pixel outside 0..255 gets the pixel-value error with its default detail |
| Validator.LabelRejected | service/src/validator.py:11-12 | every label below 0 or above 9 gets the label error, whose detail carries that label |
| Exceptions.SampleValidationError | service/src/utilities/exceptions.py:5-8 | definition of SampleValidationException; properties in the SampleStatusOverridable row |
| Exceptions.LabelValidationError | service/src/utilities/exceptions.py:16-20 | definition of LabelValidationException; properties in the LabelErrorNamesLabel row |
| Exceptions.InvalidSampleLengthError | service/src/utilities/exceptions.py:28-30 | definition of InvalidSampleLengthException; properties in the LengthErrorNamesLength row |
| Exceptions.InvalidSamplePixelValueError | service/src/utilities/exceptions.py:32-34 | definition of InvalidSamplePixelValueException; properties in the PixelErrorDefaults row |
| Exceptions.LabelErrorNamesLabel | service/src/utilities/exceptions.py:16-20 | the label error has status 400, is not a sample-validation kind, and its detail is the fixed text followed by the label, which can be read back |
| Exceptions.LengthErrorNamesLength | service/src/utilities/exceptions.py:28-30 | the length error has the default status 400, is a sample-validation kind, and its detail is "Sample length must be 784 (n given)." with n the actual length, which can be read back |
| Exceptions.PixelErrorDefaults | service/src/utilities/exceptions.py:32-34 | the pixel error has status 400, the default detail text, and is a sample-validation kind |
| Exceptions.SampleStatusOverridable | service/src/utilities/exceptions.py:5-8 | the sample-validation status is 400 by default, and a caller's status and detail are kept as given |
| Exceptions.NatToString | service/src/utilities/exceptions.py:30 | the decimal rendering used in the details is non-empty and made of digits |
| Exceptions.ParseIntToString | service/src/utilities/exceptions.py:18 | the number rendered in a detail reads back as the same number |
| Estimation.Count | service/src/preditor.py:52 | the row count of a label is at most the number of rows, and positive exactly when the label occurs |
| Estimation.Unique | service/src/preditor.py:14 | ys.unique() holds every label of ys, and only those, each once |
| Estimation.UniqueInOrderOfAppearance | service/src/preditor.py:14 | ys.unique() lists the labels in the order they first appear in ys |
| Estimation.Prior | service/src/preditor.py:52 | definition of one prior, count / number of rows; properties in the PriorInUnitInterval and PriorsSumToOne rows |
| Estimation.GetPriors | service/src/preditor.py:49-53 | priors has exactly the given labels as keys, and priors[y] = (rows labelled y) / (all rows) |
| Estimation.PriorInUnitInterval | service/src/preditor.py:52 | the prior of an observed label lies in (0, 1] |
| Estimation.CountsOfUniqueAddUp | service/src/preditor.py:52 | the row counts of the observed labels add up to the number of rows |
| Estimation.PriorsSumToOne | service/src/preditor.py:49-53 | the priors of the observed labels sum to 1 |
| Estimation.GroupMean | service/src/preditor.py:64 | a class mean has one entry per feature column |
| Estimation.GetMeans | service/src/preditor.py:61-65 | means has exactly the given labels as keys, and means[y][k] is the average of column k over the rows labelled y |
| Estimation.GroupConstScales | service/src/preditor.py:64 | summing a constant v over a class gives v times the class size |
| Estimation.ColumnSumBounds | service/src/preditor.py:64 | if the class's values in a column lie in [lo, hi], their sum lies between lo and hi times the class size |
| Estimation.MeanWithinGroupBounds | service/src/preditor.py:64 | a class mean lies within any bounds that hold for that class's values in the column, so between the column's minimum and maximum over the class |
| Posterior.ArgMaxIndex | service/src/preditor.py:83 | the position picked holds a largest value, and every earlier position holds a strictly smaller one |
| Posterior.MostLikelyLabel | service/src/preditor.py:82-83 | the label returned is a key whose value is at least every other key's value |
| Posterior.MaxValue | service/src/preditor.py:75 | the maximum log-posterior bounds every value and is attained by some label |
| Posterior.ArgMaxIndexUnique | service/src/preditor.py:83 | the first position holding the largest value is the only one the arg-max can pick, so ties go to the earliest key |
| Posterior.MostLikelyLabelOrderInvariant | service/src/preditor.py:83 | two dicts that order the labels alike have the same most likely label, ties included |
| Posterior.Shifted | service/src/preditor.py:75-76 | after subtracting the maximum, every value is <= 0 and the most likely label's value is exactly 0 |
| Posterior.Weights | service/src/preditor.py:76 | the unnormalised weight exp(lp[y] - max) of every label; properties in the TotalWeight row |
| Posterior.TotalWeight | service/src/preditor.py:76-77 | the total of the shifted weights is at least 1, because the top label's weight is exp(0) = 1, so the division never divides by 0 |
| Posterior.Normalized | service/src/preditor.py:76-79 | a posterior for every label, each weight divided by the total; properties in the NormalizedInUnitInterval, NormalizedSumsToOne, NormalizedKeepsOrder and NormalizedShiftInvariant rows |
| Posterior.NormalizePosteriors | service/src/preditor.py:74-80 | the in-place loop leaves each label's weight divided by the total, exactly as the normalisation specifies |
| Posterior.NormalizedInUnitInterval | service/src/preditor.py:77-79 | every posterior lies in [0, 1], and in (0, 1] with the mathematical exponential |
| Posterior.NormalizedSumsToOne | service/src/preditor.py:77-79 | the posteriors sum to 1 |
| Posterior.NormalizedKeepsOrder | service/src/preditor.py:76-79 | with the mathematical exponential, one posterior is below, or equal to, another exactly when its log-posterior is |
| Posterior.NormalizedKeepsMostLikely | service/src/preditor.py:20-21 | normalising does not change which label is most likely |
| Posterior.ShiftedShiftInvariant | service/src/preditor.py:75-76 | adding a constant to every log-posterior leaves the shifted values unchanged |
| Posterior.NormalizedShiftInvariant | service/src/preditor.py:75-79 | adding a constant to every log-posterior leaves the posteriors unchanged, which is why subtracting the maximum is safe |
| Scaling.SeqMin | service/src/preditor.py:43 | sample.min() is an entry of the sample and at most every entry |
| Scaling.SeqMax | service/src/preditor.py:44 | sample.max() is an entry of the sample and at least every entry |
| Scaling.Truncate | service/src/preditor.py:46 | astype(np.uint8) on a non-negative value keeps its integer part |
| Scaling.ScaledValue | service/src/preditor.py:45-46 | one rescaled entry lies in 0..255 |
| Scaling.ScaledSample | service/src/preditor.py:42-47 | the rescaled sample has the input's length, and every entry is in 0..255 |
| Scaling.ScaledEnds | service/src/preditor.py:42-47 | the smallest entries become 0 and the largest become 255 |
| Scaling.ScaledMonotone | service/src/preditor.py:42-47 | the rescale is monotone non-decreasing |
| Predictor.LogPosteriorsOf | service/src/preditor.py:67-72 | there is a log-posterior for every observed label |
| Predictor.GetLogPosteriors | service/src/preditor.py:67-72 | log_posteriors has exactly the labels as keys, and each entry is the class log-likelihood plus the log of the class prior |
| Predictor.Classify | service/src/preditor.py:13-22 | after validation, the prediction is an observed label, the most likely one after normalisation, and with the mathematical exponential the one with the largest log-posterior |
| Predictor.GetPrediction | service/src/preditor.py:11-22 | an invalid sample is rejected with its validation error, whatever the data; no data is an error; otherwise the result is an observed label, the most likely one after normalisation; with the mathematical exponential it has the largest log-posterior, and on ties it is the first seen in the data |
| Predictor.GetSample | service/src/preditor.py:24-32 | an invalid label is rejected first; a label with no rows is a missing-label error; otherwise the result is the rescaled draw from that class, and every pixel of it is in 0..255 |
| Predictor.GetSampleMean | service/src/preditor.py:34-40 | an invalid label is rejected first; a label with no rows is a missing-label error; otherwise the result is the rescaled class mean, one pixel per feature column; with 784 columns it passes sample validation |
| Interop.CanvasExportAccepted | client/src/stores/pixelStore.ts:64-67 | the vector the canvas exports from a grid within 0..255 passes the service's validate_sample |
| Interop.BlankCanvasAccepted | client/src/stores/pixelStore.ts:64-67 | a freshly reset canvas exports a sample the service accepts |

## Left out

- `multivariate_normal.logpdf`, `multivariate_normal.rvs`, `np.exp` and `np.log` are floating-point library routines. They are parameters of the predictor: `logPdf`, `rvs`, `exp` and `ln`. The normalisation assumes only that exp(0) = 1 and that exp is never negative. The order-preservation results also assume that exp is positive and strictly increasing.
- `_get_covariances` (`np.cov`) is not modelled. The class covariance reaches the model only through the class label passed to `logPdf` and `rvs`.
- Loading the training data (the MongoDB and CSV loaders) is I/O. The data is a `Table` parameter whose rows all have the same number of columns.
- The HTTP layer (router, API), the plotting module, settings loading, the mixture-model controller, the client's HTTP store and the application bootstrap are not part of this model.
- The logging done by the exception constructors is not modelled.
- The JSON text that `pixelsToString` produces is not modelled. The model returns the vector it serialises.
- Floating-point arithmetic is not modelled: browser numbers and numpy floats are exact `real`s, and grey levels are `int`s. Rounding, overflow to infinity and NaN are not modelled.
- Canvas.PixelStore.Draw: requires a positive canvas width; with width 0 the browser computes with infinities and NaN.
- Canvas.PixelStore.Draw and Canvas.PixelStore.PixelsToString: require a grid that has been reset. Before that the grid is empty, and the browser code would fail on it.
- Scaling.ScaledSample: requires max > min. For an empty vector numpy raises an error. For a constant vector numpy divides 0 by 0 and the uint8 cast of NaN is unspecified. The entry points report both cases as the `Degenerate` failure instead.
- Scaling.Truncate: models `astype(np.uint8)` only on 0..255, the range the rescale produces. It does not model the wrap-around for other values.
- Predictor.GetPrediction: `max` of an empty dict raises ValueError when there is no training data; the model returns the `NoTrainingData` failure.
- Predictor.GetSample and Predictor.GetSampleMean: a valid label with no training rows raises KeyError; the model returns the `MissingLabel` failure. For `GetSample`, the KeyError comes from the means lookup, so no draw happens.
- Posterior.NormalizePosteriors: requires the labels to be distinct, as `ys.unique()` makes them. It takes the maximum over the labels' entries, which are all of the dict's entries here.
- Estimation.GetMeans: requires every label to occur in the data, as it does for `ys.unique()`. For an absent label pandas would give NaN means.
