/** Request validation (service/src/validator.py): a sample must have 784
    pixels, each in 0..255; a label must be a digit 0..9. A failed check is
    the exception it raises, as an `Outcome`. */
module Validator {
  import opened Exceptions

  const SampleLength: nat := 784
  const MinPixel: int := 0
  const MaxPixel: int := 255
  const MinLabel: int := 0
  const MaxLabel: int := 9

  /** The result of a validation: it returns, or it raises `error` */
  datatype Outcome = Pass | Fail(error: HttpError)

  predicate PixelInRange(p: int) {
    MinPixel <= p <= MaxPixel
  }

  /** validate_sample: the length is checked first, then every pixel */
  function ValidateSample(sample: seq<int>): (r: Outcome)
    ensures r.Pass? <==> |sample| == SampleLength && forall i :: 0 <= i < |sample| ==> PixelInRange(sample[i])
    ensures r.Fail? ==> r.error.status == BadRequest && IsSampleValidation(r.error.kind)
  {
    if |sample| != SampleLength then
      Fail(InvalidSampleLengthError(|sample|))
    else if !(forall p :: p in sample ==> PixelInRange(p)) then
      Fail(InvalidSamplePixelValueError())
    else
      Pass
  }

  /** validate_label */
  function ValidateLabel(actual: int): (r: Outcome)
    ensures r.Pass? <==> MinLabel <= actual <= MaxLabel
    ensures r.Fail? ==> r.error.status == BadRequest && !IsSampleValidation(r.error.kind)
  {
    if actual < MinLabel || actual > MaxLabel then Fail(LabelValidationError(actual)) else Pass
  }

  /** A sample of the wrong length is rejected with the length error naming
      its length, whatever its pixels are. */
  lemma LengthCheckedFirst(sample: seq<int>)
    requires |sample| != SampleLength
    ensures ValidateSample(sample) == Fail(InvalidSampleLengthError(|sample|))
    ensures ValidateSample(sample).error.kind == InvalidSampleLength
    ensures var d := ValidateSample(sample).error.detail;
      |LengthPrefix| + |LengthSuffix| <= |d| && ParseInt(d[|LengthPrefix|..|d| - |LengthSuffix|]) == |sample|
  {
    LengthErrorNamesLength(|sample|);
  }

  /** A sample of the right length with a pixel outside 0..255 gets the pixel error */
  lemma BadPixelRejected(sample: seq<int>, i: nat)
    requires |sample| == SampleLength && i < |sample| && !PixelInRange(sample[i])
    ensures ValidateSample(sample) == Fail(InvalidSamplePixelValueError())
    ensures ValidateSample(sample).error.detail == DefaultPixelDetail
  {
    assert sample[i] in sample;
  }

  /** Out-of-range labels on either side are rejected with the label error
      that names them; -1 and 10 are the nearest such labels. */
  lemma LabelRejected(actual: int)
    requires actual < MinLabel || actual > MaxLabel
    ensures ValidateLabel(actual) == Fail(LabelValidationError(actual))
    ensures var d := ValidateLabel(actual).error.detail;
      |LabelPrefix| <= |d| && ParseInt(d[|LabelPrefix|..]) == actual
  {
    LabelErrorNamesLabel(actual);
  }
}
