/** The three service entry points of service/src/preditor.py:
    `get_prediction`, `get_sample` and `get_sample_mean`.

    The training data is the `Table` the loader returns. The library
    numerics are parameters: `logPdf(sample, mean, y)` is
    `multivariate_normal.logpdf` with the class-y covariance of the same
    data, `ln` is `np.log`, `exp` is `np.exp`, and `rvs(mean, y)` is the
    vector `multivariate_normal.rvs` draws. What can go wrong is a
    `Failure`: a validation error, a label the data has no rows for (the
    dict lookup raises KeyError), no training data at all (`max` of an
    empty dict raises ValueError), or a vector with no spread to rescale. */
module Predictor {
  import opened Exceptions
  import opened Validator
  import opened LabelMaps
  import opened Estimation
  import opened Posterior
  import opened Scaling

  datatype Failure = Rejected(error: HttpError) | MissingLabel(missing: int) | NoTrainingData | Degenerate

  datatype Result<T> = Ok(value: T) | Err(failure: Failure)

  /** The log-posterior of every observed label: log-likelihood of the sample
      under the class model plus the log of the class prior */
  function LogPosteriorsOf(t: Table, sample: seq<int>, logPdf: (seq<int>, seq<real>, int) -> real, ln: real -> real)
    : (lp: map<int, real>)
    requires WellFormed(t) && |t.ys| > 0
    ensures Defines(lp, Unique(t.ys))
  {
    map y | y in Unique(t.ys) :: logPdf(sample, GroupMean(t, y), y) + ln(Prior(t.ys, y))
  }

  /** _get_log_posteriors: fills log_posteriors[y] for each label in turn */
  method GetLogPosteriors(sample: seq<int>, labels: seq<int>, means: map<int, seq<real>>, priors: map<int, real>,
                          logPdf: (seq<int>, seq<real>, int) -> real, ln: real -> real)
    returns (logPosteriors: map<int, real>)
    requires forall y :: y in labels ==> y in means && y in priors
    ensures logPosteriors.Keys == set y | y in labels
    ensures forall y :: y in labels ==> logPosteriors[y] == logPdf(sample, means[y], y) + ln(priors[y])
  {
    logPosteriors := map[];
    for i := 0 to |labels|
      invariant logPosteriors.Keys == set y | y in labels[..i]
      invariant forall y :: y in labels[..i] ==> logPosteriors[y] == logPdf(sample, means[y], y) + ln(priors[y])
    {
      var y := labels[i];
      assert labels[..i + 1] == labels[..i] + [y];
      logPosteriors := logPosteriors[y := logPdf(sample, means[y], y) + ln(priors[y])];
    }
    assert labels[..|labels|] == labels;
  }

  /** The part of get_prediction after validation: estimate, score,
      normalise and pick the most likely observed label */
  method Classify(sample: seq<int>, t: Table, logPdf: (seq<int>, seq<real>, int) -> real,
                  ln: real -> real, exp: real -> real)
    returns (prediction: int)
    requires WellFormed(t) && |t.ys| > 0 && ExpAnchored(exp)
    ensures prediction in t.ys
    ensures prediction == MostLikelyLabel(Unique(t.ys), Normalized(Unique(t.ys), LogPosteriorsOf(t, sample, logPdf, ln), exp))
    ensures ExpStrict(exp) ==> prediction == MostLikelyLabel(Unique(t.ys), LogPosteriorsOf(t, sample, logPdf, ln))
  {
    var labels := Unique(t.ys);
    var priors := GetPriors(t, labels);
    var means := GetMeans(t, labels);
    var logPosteriors := GetLogPosteriors(sample, labels, means, priors, logPdf, ln);
    assert logPosteriors == LogPosteriorsOf(t, sample, logPdf, ln);
    var posteriors := NormalizePosteriors(logPosteriors, labels, exp);
    prediction := MostLikelyLabel(labels, posteriors);
    if ExpStrict(exp) {
      NormalizedKeepsMostLikely(labels, logPosteriors, exp);
    }
  }

  /** get_prediction. The sample is validated before the data is used, so
      an invalid sample is rejected with its validation error whatever the
      data. Otherwise the answer is the most likely observed label after
      normalisation, and with the mathematical exponential that is the label
      with the largest log-posterior, the first one seen in the data on ties. */
  method GetPrediction(sample: seq<int>, t: Table, logPdf: (seq<int>, seq<real>, int) -> real,
                       ln: real -> real, exp: real -> real)
    returns (r: Result<int>)
    requires WellFormed(t) && ExpAnchored(exp)
    ensures ValidateSample(sample).Fail? ==> r == Err(Rejected(ValidateSample(sample).error))
    ensures ValidateSample(sample).Pass? && |t.ys| == 0 ==> r == Err(NoTrainingData)
    ensures ValidateSample(sample).Pass? && |t.ys| > 0 ==>
      r.Ok? && r.value in t.ys &&
      r.value == MostLikelyLabel(Unique(t.ys), Normalized(Unique(t.ys), LogPosteriorsOf(t, sample, logPdf, ln), exp))
    ensures ValidateSample(sample).Pass? && |t.ys| > 0 && ExpStrict(exp) ==>
      r == Ok(MostLikelyLabel(Unique(t.ys), LogPosteriorsOf(t, sample, logPdf, ln)))
  {
    var outcome := ValidateSample(sample);
    if outcome.Fail? {
      return Err(Rejected(outcome.error));
    }
    if |t.ys| == 0 {
      return Err(NoTrainingData);
    }
    var prediction := Classify(sample, t, logPdf, ln, exp);
    r := Ok(prediction);
  }

  /** get_sample: the label is validated first; a draw from the class model
      is rescaled to pixel values. */
  method GetSample(actual: int, t: Table, rvs: (seq<real>, int) -> seq<real>) returns (r: Result<seq<int>>)
    requires WellFormed(t)
    ensures ValidateLabel(actual).Fail? ==> r == Err(Rejected(ValidateLabel(actual).error))
    ensures ValidateLabel(actual).Pass? && actual !in t.ys ==> r == Err(MissingLabel(actual))
    ensures ValidateLabel(actual).Pass? && actual in t.ys ==>
      var drawn := rvs(GroupMean(t, actual), actual);
      if HasRange(drawn) then r == Ok(ScaledSample(drawn)) else r == Err(Degenerate)
    ensures r.Ok? ==> forall i :: 0 <= i < |r.value| ==> PixelInRange(r.value[i])
  {
    var outcome := ValidateLabel(actual);
    if outcome.Fail? {
      return Err(Rejected(outcome.error));
    }
    var labels := Unique(t.ys);
    var means := GetMeans(t, labels);
    if actual !in means {
      return Err(MissingLabel(actual));
    }
    var sample := rvs(means[actual], actual);
    if !HasRange(sample) {
      return Err(Degenerate);
    }
    r := Ok(ScaledSample(sample));
  }

  /** get_sample_mean: the label is validated first; the class mean is
      rescaled to pixel values. With 784 feature columns the result is a
      sample validate_sample accepts. */
  method GetSampleMean(actual: int, t: Table) returns (r: Result<seq<int>>)
    requires WellFormed(t)
    ensures ValidateLabel(actual).Fail? ==> r == Err(Rejected(ValidateLabel(actual).error))
    ensures ValidateLabel(actual).Pass? && actual !in t.ys ==> r == Err(MissingLabel(actual))
    ensures ValidateLabel(actual).Pass? && actual in t.ys ==>
      if HasRange(GroupMean(t, actual)) then r == Ok(ScaledSample(GroupMean(t, actual))) else r == Err(Degenerate)
    ensures r.Ok? ==> |r.value| == t.cols
    ensures r.Ok? && t.cols == SampleLength ==> ValidateSample(r.value).Pass?
  {
    var outcome := ValidateLabel(actual);
    if outcome.Fail? {
      return Err(Rejected(outcome.error));
    }
    var labels := Unique(t.ys);
    var means := GetMeans(t, labels);
    if actual !in means {
      return Err(MissingLabel(actual));
    }
    var mean := means[actual];
    if !HasRange(mean) {
      return Err(Degenerate);
    }
    r := Ok(ScaledSample(mean));
  }
}
